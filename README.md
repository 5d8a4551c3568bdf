# KeyAuth license bot: a Dafny model

This project models the decision logic of a Discord bot that issues software
license keys through the KeyAuth seller API. The bot has two commands:

- `!genkey [days] [level]` builds a random key of the form
  `XXXX-XXXX-XXXX-XXXX` and asks KeyAuth to create it.
- `!checkkey <key>` asks KeyAuth about a key and shows the answer as an embed.

Only authors whose numeric id is in a configured list may use them.

The network, Discord and the random generator sit at the boundary, and each
becomes an input:

- The random draws are sixteen positions in the alphabet `A-Z0-9`.
- The provider's answer is an `Outcome`: a transport error with its text, a
  body that did not decode, or a decoded JSON object.
- Every `channel.send` becomes one `Reply`, collected in order.
- Every provider request becomes one `Call`, also collected in order.

Modules, one per component:

- `Json` (Json.dfy): decoded JSON values and two pieces of Python semantics.
  One is truthiness. The other is the `in` operator, which raises a TypeError
  on a number, a boolean or null. A chat text is a sequence of pieces: a
  literal, or a provider value shown through Python's `str()`. Such a value is
  not rendered, because Python's `str()` of an object follows the document's
  key order, and a map does not keep it.
- `Strings` (Strings.dfy): `str.split()`, `str.split(',')`, `str.strip()`,
  `str.startswith`, `int()` and `str()` of an integer.
- `KeyGen` (KeyGen.dfy): `generate_random_key`. It is an imperative method
  proved against the function `KeyFromChoices`.
- `KeyAuth` (KeyAuth.dfy): the request parameters, plus the interpretation of
  the create and info responses as `CreateResult` and `InfoResult`.
- `Bot` (Bot.dfy): `on_message`. It is an imperative method proved against
  the function `Respond`, which maps one message to a `Trace` of replies and
  calls.
- `Config` (Config.dfy): parsing the comma-separated list of authorized ids.

In these places the code does something surprising, and the model follows the code:

- A successful create whose response has neither a truthy `key` nor a truthy
  `license` returns the proposed key with no marker. The code only prints a
  console warning.
- `!checkkey` uses the second token and ignores any tokens after it. It does
  not demand exactly one argument.
- The create path can end without a final reply. This happens when the
  provider refuses with a `message` that is a number, a boolean or null: the
  test `"Key already exists" in message` then raises a TypeError that no
  `except` clause catches. The warnings and the progress notice have already
  been sent; nothing follows them (`CreateRaised`).
- Commands are matched by prefix only. For example, `!genkeyX` is treated as
  `!genkey` with no arguments.
- A body that fails to decode is modelled as `NotJson`, which gives the fixed
  invalid-response text. With requests 2.27 or later, the decode error is also
  a `RequestException`. The first `except` clause then catches it, and the
  reply becomes the communication-error text. In the model, that case arrives
  as `TransportError` carrying the error's text.

## Model

| member | source | states |
|---|---|---|
| Json.PyIn | discord_bot.py:90 | `"Key already exists" in message` raises exactly when the message is not a string, a list or an object; on an object it is key membership |
| Strings.Split | discord_bot.py:151 | `content.split()` yields non-empty tokens free of whitespace |
| Strings.SplitJoin | discord_bot.py:151 | splitting tokens joined by spaces, with any surrounding whitespace, gives back exactly those tokens |
| Strings.SplitWeave | discord_bot.py:151 | tokens separated by any non-empty runs of whitespace, with any whitespace before and after, split back into exactly those tokens |
| Strings.SplitDecompose | discord_bot.py:151 | every text is leading whitespace, then the tokens of its split in order, each followed by a whitespace run that is non-empty between tokens: the split drops only whitespace and keeps the maximal non-whitespace runs |
| Strings.Strip | discord_bot.py:20 | `uid.strip()` is no longer than its input, and it neither starts nor ends with whitespace |
| Strings.StripSpec | discord_bot.py:20 | `uid.strip()` is a slice of the input with only whitespace cut from each end, and it neither starts nor ends with whitespace |
| Strings.SplitOn | discord_bot.py:20 | `s.split(',')` gives at least one piece, and no piece contains a comma |
| Strings.JoinSplitOn | discord_bot.py:20 | joining the pieces of `s.split(',')` with commas restores `s` |
| Strings.SplitOnJoin | discord_bot.py:20 | comma-free pieces joined by commas split back into the same pieces |
| Strings.ParseShowInt | discord_bot.py:55-56 | `int(str(n)) == n` for every integer, so the decimal strings sent as `expiry` and `level` denote the parsed values |
| Strings.ParseInt | discord_bot.py:158 | `int(s)` accepts only non-empty texts without whitespace, and a negative result comes from a leading `-` |
| Strings.ParseIntOfForm | discord_bot.py:156-175 | a sign that fits `v`, any leading zeros, then the decimal text of `v`'s magnitude, reads back as `v` (`int("007") == 7`, `int("-0") == 0`) |
| Strings.ParseIntForm | discord_bot.py:156-175 | every text `int()` accepts has that form for the value it returns |
| Strings.ParseIntExactly | discord_bot.py:156-175 | `int(s) == v` if and only if `s` is a fitting sign, any zeros and the decimal text of `v`'s magnitude |
| KeyGen.KeyFromChoices | discord_bot.py:32-39 | the key built from the sixteen draws has the canonical shape `XXXX-XXXX-XXXX-XXXX` over `A-Z0-9` |
| KeyGen.KeyFormat | discord_bot.py:32-39 | every generated key has length 19, dashes at 4, 9 and 14, and alphabet characters elsewhere; its four slices are the four segments in draw order |
| KeyGen.KeyOnto | discord_bot.py:32-39 | every key of that shape is produced by some draws, so the generator's outputs are exactly the canonical keys |
| KeyGen.GenerateKey | discord_bot.py:32-39 | the loop that appends four four-character segments and joins them with `-` returns `KeyFromChoices` of the draws, a canonical key |
| KeyAuth.CreateParamsRoundTrip | discord_bot.py:50-59 | the create request carries `type=add`, the proposed key, `format=json`, and an expiry and level that read back as the given integers |
| KeyAuth.InterpretCreate | discord_bot.py:61-97 | a create succeeds if and only if the decoded response has a truthy `success`, and then shows a truthy value or the proposed key; an exception escapes only from a decoded refusal that carries a `message` |
| KeyAuth.AcceptedKey | discord_bot.py:66-86 | the key shown after a success is truthy or is the proposal, and a value other than the proposal is the response's `key` or `license` |
| KeyAuth.CreateSucceedsIff | discord_bot.py:61-97 | a create succeeds if and only if the decoded response has a truthy `success`; a transport failure becomes exactly the communication-error prefix followed by the error's text, and an undecodable body exactly the invalid-response text; neither escapes |
| KeyAuth.AcceptedKeyOrder | discord_bot.py:66-86 | on success the displayed key is `key` when truthy, else `license` when truthy, else exactly the proposed key |
| KeyAuth.AcceptedKeyFromResponse | discord_bot.py:66-86 | a displayed key other than the proposal came from the response's `key` or `license` field |
| KeyAuth.DuplicateNamesProposedKey | discord_bot.py:88-91 | a refusal whose message contains `Key already exists` becomes one literal text that contains the proposed key |
| KeyAuth.OtherFailureReportsMessage | discord_bot.py:87-92 | any other string refusal is the KeyAuth error prefix followed by the message; with no message, the default `Erreur inconnue de KeyAuth.` is used |
| KeyAuth.UnknownErrorIsNotDuplicate | discord_bot.py:88-90 | the default message never triggers the duplicate-key rewrite |
| KeyAuth.CreateRaisesIff | discord_bot.py:88-90 | the create handler raises if and only if the refusal's `message` is a number, a boolean or null |
| KeyAuth.InterpretInfo | discord_bot.py:113-131 | information found comes from a decoded, successful response and is its `key_data` or its `info`; a transport or decode failure is never found |
| KeyAuth.InfoFoundIff | discord_bot.py:113-131 | info is found if and only if `success` is truthy and `key_data` or `info` is present; `key_data` wins over `info`; transport and decode failures give exactly the communication-error and invalid-response texts |
| KeyAuth.InfoFailureText | discord_bot.py:122-125 | otherwise a `message` field is reported after the error prefix; without one, the answer is the unexpected-response text |
| Bot.ParseCount | discord_bot.py:155-175 | a count argument is always at least 1: 1 when missing; 1 plus exactly one warning when not numeric or not positive, with a different wording for each case; a present argument that parses to a positive value is used as it is, with no warning |
| Bot.RequestCarriesCall | discord_bot.py:50-59 | the query of a create call has `type=add`, the call's key, and an expiry and level that read back as the call's values; the query of an info call has exactly `sellerkey`, `type=info`, the key and `format=json` |
| Bot.ReadCount | discord_bot.py:156-175 | each `try: int(args[i])` block leaves the value and the warnings exactly as `ParseCount` specifies |
| Bot.GenKeyCommand | discord_bot.py:151-199 | the step-by-step `!genkey` branch sends and requests exactly what `GenKey` specifies |
| Bot.CheckKeyCommand | discord_bot.py:206-236 | the step-by-step `!checkkey` branch sends and requests exactly what `CheckKey` specifies |
| Bot.Respond | discord_bot.py:139-236 | a message from the bot causes nothing; a provider request is only ever made for an authorized author, and at most one per message |
| Bot.GenKey | discord_bot.py:151-199 | `!genkey` makes one create request, for a canonical key with expiry and level at least 1, and sends between one and four replies |
| Bot.CheckKey | discord_bot.py:206-236 | `!checkkey` makes an info request if and only if a second token is present, and then for that token; it sends one reply more than it makes requests |
| Bot.OnMessage | discord_bot.py:139-236 | the handler's sends and provider calls, in order, are exactly `Respond` of the message |
| Bot.OwnMessagesIgnored | discord_bot.py:141-143 | a message written by the bot causes no reply and no request |
| Bot.OtherTextIgnored | discord_bot.py:145-201 | text that starts with neither command causes nothing |
| Bot.UnauthorizedDenied | discord_bot.py:145-149 | an author outside the list who sends either command gets exactly the permission-denied reply, before any argument is looked at, and no key is generated or requested |
| Bot.GenKeyFlow | discord_bot.py:151-199 | `!genkey` gives at most two warnings, then the progress notice with the final expiry and level, then at most one final reply (the embedded key on success, the failure text verbatim on failure); it makes one create request for a canonical key with expiry and level of at least 1 |
| Bot.GenKeyIgnoresExtraTokens | discord_bot.py:151-175 | tokens after the third do not change what `!genkey` does |
| Bot.GenKeyZeroFive | discord_bot.py:156-175 | `!genkey 0 5` gives expiry 1 with the not-positive warning, and level 5 |
| Bot.GenKeyAbcTwo | discord_bot.py:156-175 | `!genkey abc 2` gives expiry 1 with the not-a-number warning, and level 2 |
| Bot.CheckKeyUsage | discord_bot.py:206-209 | `!checkkey` with fewer than two tokens sends only the usage reply and makes no request |
| Bot.CheckKeyFlow | discord_bot.py:206-236 | otherwise it sends the progress notice for the second token, makes one info request for it, and sends one reply: the info embed of the key and the found value when information was found, else the failure text verbatim |
| Bot.InfoEmbed | discord_bot.py:220-232 | the embed is titled with the key; a found object gives six fields and no description, any other value is the description and gives no fields |
| Bot.InfoEmbedShape | discord_bot.py:220-232 | a found object renders as the six fields status, level, expires, note, hwid and createdate, in that order, each defaulting to `N/A`; any other found value renders as the description |
| Bot.CheckKeyActiveExample | discord_bot.py:118-119 | the answer `{"success": true, "key_data": {"status": "active"}}` shows status `active` and `N/A` in the five other fields |
| Config.ParseAuthorizedIds | discord_bot.py:20 | the configured list parses if and only if every comma-separated piece, stripped, is an integer; the ids are those integers in order, and a parsed list is never empty |
| Config.ParseAll | discord_bot.py:20 | the id list is produced if and only if every stripped piece is an integer, and then it holds those integers in order |
| Config.ParseShownIds | discord_bot.py:20 | any non-empty list of ids written with commas parses back to itself |

## Left out

- The Discord client, intents, `on_ready`, `client.run`, and the async
  scheduling of the handler are gateway I/O. A send is a `Reply` appended to
  the output.
- `requests.get` and `raise_for_status` are network I/O. Their result is the
  `Outcome` input. The query a call sends is `Bot.Request` of the call; the
  fixed seller-API URL is not modelled.
- `load_dotenv`, `os.getenv`, the missing-configuration check and `exit()`
  are environment and process control. Only the parse of the id list is
  modelled (`Config`).
- The console warning printed when the create response carries no key is a
  side effect only and does not change the returned value.
- `random.choice` is replaced by the sixteen draws passed in.
- `int()` accepts only an optional sign followed by ASCII digits.
  Underscores between digits and non-ASCII digits are not modelled. Nor is
  the surrounding whitespace `int()` skips: every text it is given has
  already been split or stripped.
- Whitespace for `split()` and `strip()` is the ASCII set that Python
  accepts: space, `\t`, `\n`, `\v`, `\f`, `\r` and `\x1c` to `\x1f`. Non-ASCII
  whitespace is not modelled.
- A response whose top level is not a JSON object is not modelled. It would
  raise an uncaught AttributeError.
- JSON `NaN` and the infinities are not modelled. Other fractional numbers are
  reals.
- Python's `str()` of a provider value interpolated into a reply is not
  modelled: the value is kept as a piece of the text.
- The embed's colour is not modelled, and neither are Discord's own limits on
  embeds, such as rejecting an empty field value.
- An exception escaping the handler is not logged in the model. The model
  only records that the handler stopped sending.
