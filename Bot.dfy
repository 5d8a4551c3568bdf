/** The message handler: from one inbound chat message to the ordered replies
    sent to its channel and the requests made to the licensing provider. The
    author list, the random draws of the key generator and the provider's
    answers are inputs. */
module Bot {
  import opened Json
  import opened Strings
  import opened KeyGen
  import opened KeyAuth

  const Denied := "❌ Tu n'as pas la permission d'utiliser cette commande !"
  const ExpiryNotPositive := "⚠️ La durée d'expiration doit être un nombre positif de jours. Utilisation de la valeur par défaut (1 jour)."
  const ExpiryNotNumber := "⚠️ La durée d'expiration fournie n'est pas un nombre valide. Utilisation de la valeur par défaut (1 jour)."
  const LevelNotPositive := "⚠️ Le niveau de licence doit être un nombre positif. Utilisation de la valeur par défaut (niveau 1)."
  const LevelNotNumber := "⚠️ Le niveau de licence fourni n'est pas un nombre valide. Utilisation de la valeur par défaut (niveau 1)."
  const Usage := "⚠️ Veuillez fournir la clé à vérifier. Usage : `!checkkey XXXX-XXXX-XXXX-XXXX`"
  const NotAvailable := JStr("N/A")

  /** An inbound chat message: whether the bot itself wrote it, the author's
      numeric id and the raw text. */
  datatype Message = Message(fromBot: bool, authorId: int, content: string)

  /** One labelled field of an embed. */
  datatype Field = Field(name: string, value: Json, inline: bool)

  /** A structured reply: a title and either labelled fields or a description. */
  datatype Embed = Embed(title: string, fields: seq<Field>, description: Option<Json>)

  /** One `channel.send`: a text or an embed. */
  datatype Reply = Say(text: Text) | Show(embed: Embed)

  /** One request to the licensing provider. */
  datatype Call = CreateCall(key: string, expiry: int, level: int) | InfoCall(key: string)

  /** The query parameters sent for a call, with the seller key. */
  function Request(seller: string, c: Call): map<string, string> {
    match c
    case CreateCall(key, expiry, level) => CreateParams(seller, key, expiry, level)
    case InfoCall(key) => InfoParams(seller, key)
  }

  /** A create call asks for `type=add` and carries its key, expiry and level
      so that they read back unchanged; an info call asks for `type=info`
      about its key; both ask for JSON and carry the seller key. */
  lemma RequestCarriesCall(seller: string, c: Call)
    ensures var p := Request(seller, c);
      && p["sellerkey"] == seller && p["key"] == c.key && p["format"] == "json"
      && (c.CreateCall? ==> p["type"] == "add" && ParseInt(p["expiry"]) == Some(c.expiry) && ParseInt(p["level"]) == Some(c.level))
      && (c.InfoCall? ==> p["type"] == "info" && p.Keys == {"sellerkey", "type", "key", "format"})
  {
    if c.CreateCall? {
      CreateParamsRoundTrip(seller, c.key, c.expiry, c.level);
    }
  }

  /** Everything one message causes, in order. */
  datatype Trace = Trace(replies: seq<Reply>, calls: seq<Call>)

  const Silent := Trace([], [])

  function Progress(expiry: int, level: int): Text {
    Lit("🔑 Génération d'une nouvelle clé pour " + ShowInt(expiry) + " jour(s) au niveau " + ShowInt(level) + " en cours...")
  }

  function Announce(expiry: int, level: int, key: Json): Text {
    [Str("🎉 Licence générée pour " + ShowInt(expiry) + " jour(s) au niveau " + ShowInt(level) + " et ajoutée à KeyAuth : `"),
     Value(key), Str("`")]
  }

  function Checking(key: string): Text {
    Lit("🔎 Vérification de la clé `" + key + "` en cours...")
  }

  function InfoTitle(key: string): string {
    "Informations pour la clé : " + key
  }

  /** A count argument after parsing, with the warnings it drew. */
  datatype Count = Count(value: int, warnings: seq<Reply>)

  /** The optional positive integer argument at position `i` of the tokens: 1
      when missing; 1 and a warning when not a number or not positive. */
  function ParseCount(args: seq<string>, i: nat, notPositive: string, notNumber: string): (c: Count)
    ensures c.value >= 1 && |c.warnings| <= 1
    ensures c.warnings == [] <==> |args| <= i || (ParseInt(args[i]).Some? && ParseInt(args[i]).value >= 1)
    ensures c.value != 1 ==> i < |args| && ParseInt(args[i]) == Some(c.value)
    ensures i < |args| && ParseInt(args[i]).None? ==> c.warnings == [Say(Lit(notNumber))]
    ensures i < |args| && ParseInt(args[i]).Some? && ParseInt(args[i]).value <= 0 ==> c.warnings == [Say(Lit(notPositive))]
    ensures i < |args| && ParseInt(args[i]).Some? && ParseInt(args[i]).value >= 1 ==> c == Count(ParseInt(args[i]).value, [])
  {
    if |args| <= i then Count(1, [])
    else
      match ParseInt(args[i])
      case None => Count(1, [Say(Lit(notNumber))])
      case Some(v) => if v <= 0 then Count(1, [Say(Lit(notPositive))]) else Count(v, [])
  }

  function Expiry(args: seq<string>): Count {
    ParseCount(args, 1, ExpiryNotPositive, ExpiryNotNumber)
  }

  function Level(args: seq<string>): Count {
    ParseCount(args, 2, LevelNotPositive, LevelNotNumber)
  }

  /** The fields shown for a license found by the provider. */
  function InfoFields(d: map<string, Json>): seq<Field> {
    [ Field("Statut", Get(d, "status", NotAvailable), true),
      Field("Niveau", Get(d, "level", NotAvailable), true),
      Field("Expire le", Get(d, "expires", NotAvailable), true),
      Field("Note", Get(d, "note", NotAvailable), false),
      Field("HWID", Get(d, "hwid", NotAvailable), true),
      Field("Créée le", Get(d, "createdate", NotAvailable), true) ]
  }

  /** The embed shown for a found license: titled with the key; an object
      becomes six fields, any other value the description. */
  function InfoEmbed(key: string, info: Json): (e: Embed)
    ensures e.title == InfoTitle(key)
    ensures e.description.None? <==> info.JObj?
    ensures |e.fields| == (if info.JObj? then 6 else 0)
    ensures e.description.Some? ==> e.description.value == info
  {
    if info.JObj? then Embed(InfoTitle(key), InfoFields(info.fields), None)
    else Embed(InfoTitle(key), [], Some(info))
  }

  /** The final reply of `!genkey` for the create result; none when the
      create handler raised. */
  function CreateReply(r: CreateResult, expiry: int, level: int): (s: seq<Reply>)
    ensures |s| <= 1
  {
    match r
    case Created(key) => [Say(Announce(expiry, level, key))]
    case CreateFailed(message) => [Say(message)]
    case CreateRaised => []
  }

  function InfoReply(key: string, r: InfoResult): Reply {
    match r
    case InfoFound(info) => Show(InfoEmbed(key, info))
    case InfoFailed(message) => Say(message)
  }

  /** `!genkey` from an authorized author. */
  function GenKey(args: seq<string>, draws: seq<int>, created: Outcome): (t: Trace)
    requires ValidChoices(draws)
    ensures |t.calls| == 1 && t.calls[0].CreateCall? && IsLicenseKey(t.calls[0].key)
    ensures t.calls[0].expiry >= 1 && t.calls[0].level >= 1
    ensures 1 <= |t.replies| <= 4
  {
    var expiry, level := Expiry(args), Level(args);
    var key := KeyFromChoices(draws);
    Trace(expiry.warnings + level.warnings + [Say(Progress(expiry.value, level.value))]
            + CreateReply(InterpretCreate(key, created), expiry.value, level.value),
          [CreateCall(key, expiry.value, level.value)])
  }

  /** `!checkkey` from an authorized author. */
  function CheckKey(args: seq<string>, fetched: Outcome): (t: Trace)
    ensures t.calls == [] <==> |args| < 2
    ensures t.calls != [] ==> t.calls == [InfoCall(args[1])]
    ensures |t.replies| == 1 + |t.calls|
  {
    if |args| < 2 then Trace([Say(Lit(Usage))], [])
    else
      var key := args[1];
      Trace([Say(Checking(key)), InfoReply(key, InterpretInfo(fetched))], [InfoCall(key)])
  }

  /** What one inbound message causes. */
  function Respond(m: Message, authorized: seq<int>, draws: seq<int>, created: Outcome, fetched: Outcome): (t: Trace)
    requires ValidChoices(draws)
    ensures m.fromBot ==> t == Silent
    ensures t.calls != [] ==> !m.fromBot && m.authorId in authorized
    ensures |t.calls| <= 1
  {
    if m.fromBot then Silent
    else if StartsWith(m.content, "!genkey") then
      if m.authorId !in authorized then Trace([Say(Lit(Denied))], [])
      else GenKey(Split(m.content), draws, created)
    else if StartsWith(m.content, "!checkkey") then
      if m.authorId !in authorized then Trace([Say(Lit(Denied))], [])
      else CheckKey(Split(m.content), fetched)
    else Silent
  }

  /** `on_message`: replies are appended to `sent` in the order the handler
      awaits them, and provider requests to `calls`. */
  method OnMessage(m: Message, authorized: seq<int>, draws: seq<int>, created: Outcome, fetched: Outcome)
    returns (sent: seq<Reply>, calls: seq<Call>)
    requires ValidChoices(draws)
    ensures Trace(sent, calls) == Respond(m, authorized, draws, created, fetched)
  {
    sent, calls := [], [];
    if m.fromBot {
      return;
    }
    if StartsWith(m.content, "!genkey") {
      if m.authorId !in authorized {
        sent := sent + [Say(Lit(Denied))];
        return;
      }
      sent, calls := GenKeyCommand(Split(m.content), draws, created);
    } else if StartsWith(m.content, "!checkkey") {
      if m.authorId !in authorized {
        sent := sent + [Say(Lit(Denied))];
        return;
      }
      sent, calls := CheckKeyCommand(Split(m.content), fetched);
    }
  }

  /** One of the two `try: int(args[i])` blocks of `!genkey`: the value to
      use, and the warning sent on the way, if any. */
  method ReadCount(args: seq<string>, i: nat, notPositive: string, notNumber: string) returns (value: int, warnings: seq<Reply>)
    ensures Count(value, warnings) == ParseCount(args, i, notPositive, notNumber)
  {
    value, warnings := 1, [];
    if |args| > i {
      match ParseInt(args[i]) {
        case Some(v) =>
          value := v;
          if value <= 0 {
            warnings := warnings + [Say(Lit(notPositive))];
            value := 1;
          }
        case None =>
          warnings := warnings + [Say(Lit(notNumber))];
          value := 1;
      }
    }
  }

  /** The `!genkey` branch of `on_message`, after the permission check. */
  method GenKeyCommand(args: seq<string>, draws: seq<int>, created: Outcome) returns (sent: seq<Reply>, calls: seq<Call>)
    requires ValidChoices(draws)
    ensures Trace(sent, calls) == GenKey(args, draws, created)
  {
    sent, calls := [], [];
    var expiry, warnings := ReadCount(args, 1, ExpiryNotPositive, ExpiryNotNumber);
    sent := sent + warnings;
    var level;
    level, warnings := ReadCount(args, 2, LevelNotPositive, LevelNotNumber);
    sent := sent + warnings;
    sent := sent + [Say(Progress(expiry, level))];
    var newKey := GenerateKey(draws);
    calls := calls + [CreateCall(newKey, expiry, level)];
    ghost var before := sent;
    match InterpretCreate(newKey, created) {
      case Created(key) =>
        sent := sent + [Say(Announce(expiry, level, key))];
      case CreateFailed(message) =>
        sent := sent + [Say(message)];
      case CreateRaised =>
    }
    assert sent == before + CreateReply(InterpretCreate(newKey, created), expiry, level);
    assert GenKey(args, draws, created).replies == sent by {
      assert before == Expiry(args).warnings + Level(args).warnings + [Say(Progress(expiry, level))];
    }
  }

  /** The `!checkkey` branch of `on_message`, after the permission check. */
  method CheckKeyCommand(args: seq<string>, fetched: Outcome) returns (sent: seq<Reply>, calls: seq<Call>)
    ensures Trace(sent, calls) == CheckKey(args, fetched)
  {
    sent, calls := [], [];
    if |args| < 2 {
      sent := sent + [Say(Lit(Usage))];
      return;
    }
    var keyToCheck := args[1];
    sent := sent + [Say(Checking(keyToCheck))];
    calls := calls + [InfoCall(keyToCheck)];
    match InterpretInfo(fetched) {
      case InfoFound(info) =>
        var embed := Embed(InfoTitle(keyToCheck), [], None);
        if info.JObj? {
          embed := embed.(fields := InfoFields(info.fields));
        } else {
          embed := embed.(description := Some(info));
        }
        sent := sent + [Show(embed)];
      case InfoFailed(message) =>
        sent := sent + [Say(message)];
    }
  }

  /** Messages written by the bot itself cause nothing. */
  lemma OwnMessagesIgnored(m: Message, authorized: seq<int>, draws: seq<int>, created: Outcome, fetched: Outcome)
    requires ValidChoices(draws) && m.fromBot
    ensures Respond(m, authorized, draws, created, fetched) == Trace([], [])
  {
  }

  /** Text that starts with neither command causes nothing. */
  lemma OtherTextIgnored(m: Message, authorized: seq<int>, draws: seq<int>, created: Outcome, fetched: Outcome)
    requires ValidChoices(draws)
    requires !StartsWith(m.content, "!genkey") && !StartsWith(m.content, "!checkkey")
    ensures Respond(m, authorized, draws, created, fetched) == Trace([], [])
  {
  }

  /** For either command, an author outside the list gets exactly the
      permission-denied reply, before any argument is looked at, and no
      key is generated or requested. */
  lemma UnauthorizedDenied(m: Message, authorized: seq<int>, draws: seq<int>, created: Outcome, fetched: Outcome)
    requires ValidChoices(draws) && !m.fromBot && m.authorId !in authorized
    requires StartsWith(m.content, "!genkey") || StartsWith(m.content, "!checkkey")
    ensures Respond(m, authorized, draws, created, fetched) == Trace([Say(Lit(Denied))], [])
  {
  }

  /** `!genkey` from an authorized author: up to two warnings (expiry first),
      then the progress notice, then at most one final reply; exactly one
      create request, for a canonical key and an expiry and level of at
      least 1, which are the ones the notices show. */
  lemma GenKeyFlow(m: Message, authorized: seq<int>, draws: seq<int>, created: Outcome, fetched: Outcome)
    requires ValidChoices(draws) && !m.fromBot && m.authorId in authorized
    requires StartsWith(m.content, "!genkey")
    ensures var t := Respond(m, authorized, draws, created, fetched);
      var args := Split(m.content);
      var w := Expiry(args).warnings + Level(args).warnings;
      var e, l := Expiry(args).value, Level(args).value;
      var r := InterpretCreate(t.calls[0].key, created);
      && |t.calls| == 1 && t.calls[0].CreateCall?
      && IsLicenseKey(t.calls[0].key)
      && t.calls[0].expiry == e >= 1 && t.calls[0].level == l >= 1
      && |w| <= 2 && |t.replies| >= |w| + 1
      && t.replies[..|w|] == w && t.replies[|w|] == Say(Progress(e, l))
      && (r.Created? ==> t.replies[|w| + 1..] == [Say(Announce(e, l, r.key))])
      && (r.CreateFailed? ==> t.replies[|w| + 1..] == [Say(r.message)])
      && (r.CreateRaised? ==> |t.replies| == |w| + 1)
  {
    KeyFormat(draws);
    var t := Respond(m, authorized, draws, created, fetched);
    var args := Split(m.content);
    var w := Expiry(args).warnings + Level(args).warnings;
    var p := [Say(Progress(Expiry(args).value, Level(args).value))];
    var f := CreateReply(InterpretCreate(KeyFromChoices(draws), created), Expiry(args).value, Level(args).value);
    assert t.replies == w + p + f;
    assert (w + p + f)[..|w|] == w;
    assert (w + p + f)[|w| + 1..] == f;
  }

  /** Only the second and third tokens of `!genkey` matter: two messages
      whose first three tokens agree cause the same thing. */
  lemma GenKeyIgnoresExtraTokens(m: Message, m': Message, authorized: seq<int>, draws: seq<int>, created: Outcome, fetched: Outcome)
    requires ValidChoices(draws)
    requires m.fromBot == m'.fromBot && m.authorId == m'.authorId
    requires StartsWith(m.content, "!genkey") && StartsWith(m'.content, "!genkey")
    requires |Split(m.content)| >= 3 && |Split(m'.content)| >= 3
    requires Split(m.content)[..3] == Split(m'.content)[..3]
    ensures Respond(m, authorized, draws, created, fetched) == Respond(m', authorized, draws, created, fetched)
  {
    var a, a' := Split(m.content), Split(m'.content);
    assert a[1] == a[..3][1] == a'[1];
    assert a[2] == a[..3][2] == a'[2];
  }

  /** `str.split()` of a message of space-separated tokens gives the tokens. */
  lemma SplitTokens(content: string, toks: seq<string>)
    requires forall i :: 0 <= i < |toks| ==> toks[i] != "" && NoSpace(toks[i])
    requires content == Join(" ", toks)
    ensures Split(content) == toks
  {
    assert "" + Join(" ", toks) + "" == content;
    SplitJoin("", toks, "");
  }

  lemma ZeroFiveTokens()
    ensures Split("!genkey 0 5") == ["!genkey", "0", "5"]
  {
    var toks := ["!genkey", "0", "5"];
    assert Join(" ", toks) == "!genkey 0 5";
    SplitTokens("!genkey 0 5", toks);
  }

  lemma AbcTwoTokens()
    ensures Split("!genkey abc 2") == ["!genkey", "abc", "2"]
  {
    var toks := ["!genkey", "abc", "2"];
    assert Join(" ", toks) == "!genkey abc 2";
    SplitTokens("!genkey abc 2", toks);
  }

  /** `!genkey 0 5`: the expiry falls back to 1 with the not-positive
      warning, the level stays 5. */
  lemma GenKeyZeroFive()
    ensures var args := Split("!genkey 0 5");
      && Expiry(args) == Count(1, [Say(Lit(ExpiryNotPositive))])
      && Level(args) == Count(5, [])
  {
    var args := Split("!genkey 0 5");
    ZeroFiveTokens();
    assert args[1] == ShowInt(0) && args[2] == ShowInt(5);
    ParseShowInt(0);
    ParseShowInt(5);
  }

  /** `!genkey abc 2`: the expiry falls back to 1 with the not-a-number
      warning, the level becomes 2. */
  lemma GenKeyAbcTwo()
    ensures var args := Split("!genkey abc 2");
      && Expiry(args) == Count(1, [Say(Lit(ExpiryNotNumber))])
      && Level(args) == Count(2, [])
  {
    var args := Split("!genkey abc 2");
    AbcTwoTokens();
    assert ParseInt(args[1]) == None by { assert !IsDigit(args[1][0]); }
    assert args[2] == ShowInt(2);
    ParseShowInt(2);
  }

  /** `!checkkey` from an authorized author with no key after it: only the
      usage reply, and no request. */
  lemma CheckKeyUsage(m: Message, authorized: seq<int>, draws: seq<int>, created: Outcome, fetched: Outcome)
    requires ValidChoices(draws) && !m.fromBot && m.authorId in authorized
    requires StartsWith(m.content, "!checkkey") && |Split(m.content)| < 2
    ensures Respond(m, authorized, draws, created, fetched) == Trace([Say(Lit(Usage))], [])
  {
    assert !StartsWith(m.content, "!genkey") by {
      assert m.content[1] == 'c';
    }
  }

  /** `!checkkey <key> ...` from an authorized author: the progress notice for
      the second token, one info request for it, then one reply: an embed
      titled with the key and built by `InfoEmbed` from what was found, else the
      failure text as it is. */
  lemma CheckKeyFlow(m: Message, authorized: seq<int>, draws: seq<int>, created: Outcome, fetched: Outcome)
    requires ValidChoices(draws) && !m.fromBot && m.authorId in authorized
    requires StartsWith(m.content, "!checkkey") && |Split(m.content)| >= 2
    ensures var t := Respond(m, authorized, draws, created, fetched);
      var key := Split(m.content)[1];
      var r := InterpretInfo(fetched);
      && t.calls == [InfoCall(key)]
      && |t.replies| == 2 && t.replies[0] == Say(Checking(key))
      && (t.replies[1].Show? <==> r.InfoFound?)
      && (r.InfoFound? ==> t.replies[1] == Show(InfoEmbed(key, r.info)) && t.replies[1].embed.title == InfoTitle(key))
      && (r.InfoFailed? ==> t.replies[1] == Say(r.message))
  {
    assert !StartsWith(m.content, "!genkey") by {
      assert m.content[1] == 'c';
    }
  }

  /** A license found as an object is shown as the six labelled fields status,
      level, expires, note, hwid and createdate, in that order, each "N/A"
      when absent; anything else found is shown as a description. */
  lemma InfoEmbedShape(key: string, info: Json)
    ensures var e := InfoEmbed(key, info);
      && e.title == InfoTitle(key)
      && (info.JObj? ==>
           && e.description == None && |e.fields| == 6
           && (forall i :: 0 <= i < 6 ==> e.fields[i].name == ["Statut", "Niveau", "Expire le", "Note", "HWID", "Créée le"][i])
           && (forall i :: 0 <= i < 6 ==>
                 var f := ["status", "level", "expires", "note", "hwid", "createdate"][i];
                 e.fields[i].value == (if f in info.fields then info.fields[f] else JStr("N/A"))))
      && (!info.JObj? ==> e.fields == [] && e.description == Some(info))
  {
  }

  /** A provider answer `{"success": true, "key_data": {"status": "active"}}`
      is shown with status "active" and every other field "N/A". */
  lemma CheckKeyActiveExample(key: string)
    ensures var answer := Parsed(map["success" := JBool(true), "key_data" := JObj(map["status" := JStr("active")])]);
      var r := InfoReply(key, InterpretInfo(answer));
      && r.Show?
      && r.embed.fields[0].value == JStr("active")
      && (forall i :: 1 <= i < 6 ==> r.embed.fields[i].value == JStr("N/A"))
  {
  }
}
