/** The licensing client: the two requests sent to the KeyAuth seller API and
    the interpretation of what comes back. The HTTP round trip itself is not
    modelled; its outcome is an input, classified by the `except` clause of the
    source that would handle it. */
module KeyAuth {
  import opened Json
  import opened Strings

  /** The outcome of one GET to the seller API. */
  datatype Outcome =
      /** `requests.exceptions.RequestException` (connection error, or a 4xx/5xx
          status raised by `raise_for_status`), carrying `str(e)`. */
    | TransportError(detail: string)
      /** A `ValueError` from decoding the body that is not also a
          `RequestException`. */
    | NotJson
      /** A body that decoded to a JSON object. */
    | Parsed(data: map<string, Json>)

  const UnknownError := "Erreur inconnue de KeyAuth."
  const ErrorPrefix := "❌ Erreur KeyAuth : "
  const InvalidResponse := "❌ Erreur : Réponse invalide de l'API KeyAuth."
  const CommunicationPrefix := "❌ Erreur de communication avec l'API KeyAuth : "
  const UnexpectedResponse := "❌ Erreur KeyAuth : Réponse inattendue."
  const AlreadyExists := "Key already exists"

  /** The query parameters of the create request (`type=add`). */
  function CreateParams(seller: string, key: string, expiry: int, level: int): map<string, string> {
    map["sellerkey" := seller, "type" := "add", "key" := key,
        "expiry" := ShowInt(expiry), "level" := ShowInt(level), "format" := "json"]
  }

  /** The query parameters of the info request (`type=info`). */
  function InfoParams(seller: string, key: string): map<string, string> {
    map["sellerkey" := seller, "type" := "info", "key" := key, "format" := "json"]
  }

  /** The provider reads back from the create request exactly the key, expiry
      and level it was given, and is asked for JSON. */
  lemma CreateParamsRoundTrip(seller: string, key: string, expiry: int, level: int)
    ensures var p := CreateParams(seller, key, expiry, level);
      && p["type"] == "add" && p["key"] == key && p["format"] == "json"
      && ParseInt(p["expiry"]) == Some(expiry) && ParseInt(p["level"]) == Some(level)
  {
    var p := CreateParams(seller, key, expiry, level);
    assert ParseInt(p["expiry"]) == Some(expiry) by {
      assert p["expiry"] == ShowInt(expiry);
      ParseShowInt(expiry);
    }
    assert ParseInt(p["level"]) == Some(level) by {
      assert p["level"] == ShowInt(level);
      ParseShowInt(level);
    }
  }

  /** What `create_keyauth_license` returns, or the exception that escapes it. */
  datatype CreateResult =
      /** `(True, key)`: the key to display, which may be any JSON value the
          provider sent back, or the proposed key. */
    | Created(key: Json)
      /** `(False, message)`. */
    | CreateFailed(message: Text)
      /** The `"Key already exists" in message` test raised a TypeError (the
          message is a number, a boolean or null); no `except` clause catches it. */
    | CreateRaised

  function CommunicationError(detail: string): Text {
    Lit(CommunicationPrefix + detail)
  }

  function DuplicateKeyError(proposed: string): string {
    ErrorPrefix + "La clé " + proposed + " (celle que le bot a tenté de créer) existe déjà."
  }

  predicate Succeeded(data: map<string, Json>) {
    Truthy(Get(data, "success", JBool(false)))
  }

  /** The key reported after a successful create: `data.get("key")`, else
      `data.get("license")`, each only when truthy, else the proposed key. */
  function AcceptedKey(proposed: string, data: map<string, Json>): (r: Json)
    ensures Truthy(r) || r == JStr(proposed)
    ensures r != JStr(proposed) ==> ("key" in data && data["key"] == r) || ("license" in data && data["license"] == r)
  {
    var first := Get(data, "key", JNull);
    var second := if Truthy(first) then first else Get(data, "license", JNull);
    if Truthy(second) then second else JStr(proposed)
  }

  /** The response handling of `create_keyauth_license` for the proposed key. */
  function InterpretCreate(proposed: string, outcome: Outcome): (r: CreateResult)
    ensures r.Created? <==> outcome.Parsed? && Succeeded(outcome.data)
    ensures r.Created? ==> Truthy(r.key) || r.key == JStr(proposed)
    ensures r.CreateRaised? ==> outcome.Parsed? && "message" in outcome.data
  {
    match outcome
    case TransportError(detail) => CreateFailed(CommunicationError(detail))
    case NotJson => CreateFailed(Lit(InvalidResponse))
    case Parsed(data) =>
      if Succeeded(data) then Created(AcceptedKey(proposed, data))
      else
        var message := Get(data, "message", JStr(UnknownError));
        match PyIn(AlreadyExists, message)
        case None => CreateRaised
        case Some(true) => CreateFailed(Lit(DuplicateKeyError(proposed)))
        case Some(false) => CreateFailed([Str(ErrorPrefix), Value(message)])
  }

  /** A create succeeds exactly when the provider answered with a truthy
      `success`; a transport failure becomes the communication-error text
      carrying the error, and an undecodable body the fixed invalid-response
      text; neither escapes. */
  lemma CreateSucceedsIff(proposed: string, outcome: Outcome)
    ensures InterpretCreate(proposed, outcome).Created? <==> outcome.Parsed? && Succeeded(outcome.data)
    ensures outcome.TransportError? ==> InterpretCreate(proposed, outcome) == CreateFailed(Lit(CommunicationPrefix + outcome.detail))
    ensures outcome.NotJson? ==> InterpretCreate(proposed, outcome) == CreateFailed(Lit(InvalidResponse))
  {
  }

  /** After a successful create, the key shown is `key` when truthy, else
      `license` when truthy, else exactly the proposed key; whatever it is, it
      is truthy or it is the proposal. */
  lemma AcceptedKeyOrder(proposed: string, data: map<string, Json>)
    requires Succeeded(data)
    ensures var r := InterpretCreate(proposed, Parsed(data));
      && r.Created?
      && ("key" in data && Truthy(data["key"]) ==> r.key == data["key"])
      && (!("key" in data && Truthy(data["key"])) && "license" in data && Truthy(data["license"]) ==> r.key == data["license"])
      && (!("key" in data && Truthy(data["key"])) && !("license" in data && Truthy(data["license"])) ==> r.key == JStr(proposed))
      && (Truthy(r.key) || r.key == JStr(proposed))
  {
  }

  /** The key shown differs from the proposal only when the response carried
      it, under `key` or `license`. */
  lemma AcceptedKeyFromResponse(proposed: string, data: map<string, Json>)
    requires Succeeded(data)
    requires InterpretCreate(proposed, Parsed(data)).key != JStr(proposed)
    ensures var k := InterpretCreate(proposed, Parsed(data)).key;
      ("key" in data && data["key"] == k) || ("license" in data && data["license"] == k)
  {
  }

  /** A failure naming an existing key mentions the proposed key itself. */
  lemma DuplicateNamesProposedKey(proposed: string, data: map<string, Json>, m: string)
    requires !Succeeded(data)
    requires "message" in data && data["message"] == JStr(m) && IsSubstring(AlreadyExists, m)
    ensures var r := InterpretCreate(proposed, Parsed(data));
      r.CreateFailed? && |r.message| == 1 && r.message[0].Str? && IsSubstring(proposed, r.message[0].s)
  {
    var text := DuplicateKeyError(proposed);
    assert text == (ErrorPrefix + "La clé ") + proposed + " (celle que le bot a tenté de créer) existe déjà.";
    SubstringInside(ErrorPrefix + "La clé ", proposed, " (celle que le bot a tenté de créer) existe déjà.");
  }

  /** Any other refusal is reported as the KeyAuth error prefix followed by
      the provider's message, or by the generic unknown-error text when the
      response has none. */
  lemma OtherFailureReportsMessage(proposed: string, data: map<string, Json>)
    requires !Succeeded(data)
    requires "message" !in data || (data["message"].JStr? && !IsSubstring(AlreadyExists, data["message"].s))
    ensures InterpretCreate(proposed, Parsed(data))
      == CreateFailed([Str(ErrorPrefix), Value(if "message" in data then data["message"] else JStr(UnknownError))])
  {
    if "message" !in data {
      UnknownErrorIsNotDuplicate();
    }
  }

  /** The default message does not mention an existing key. */
  lemma UnknownErrorIsNotDuplicate()
    ensures !IsSubstring(AlreadyExists, UnknownError)
  {
    var s, p := UnknownError, AlreadyExists;
    forall i | 0 <= i <= |s| ensures !IsPrefix(p, s[i..]) {
      if i < 10 {
        assert s[..10][i] != 'K';
        assert s[i..][0] == s[i];
      }
    }
    NoOccurrence(p, s);
  }

  /** The create handler lets an exception escape exactly when the provider
      refused with a `message` that is a number, a boolean or null. */
  lemma CreateRaisesIff(proposed: string, outcome: Outcome)
    ensures InterpretCreate(proposed, outcome).CreateRaised? <==>
      && outcome.Parsed? && !Succeeded(outcome.data) && "message" in outcome.data
      && !(outcome.data["message"].JStr? || outcome.data["message"].JArr? || outcome.data["message"].JObj?)
  {
  }

  /** What `get_keyauth_license_info` returns: `(True, info)` or
      `(False, message)`. */
  datatype InfoResult = InfoFound(info: Json) | InfoFailed(message: Text)

  /** The response handling of `get_keyauth_license_info`. */
  function InterpretInfo(outcome: Outcome): (r: InfoResult)
    ensures r.InfoFound? ==> outcome.Parsed? && Succeeded(outcome.data)
    ensures r.InfoFound? ==>
      ("key_data" in outcome.data && r.info == outcome.data["key_data"]) || ("info" in outcome.data && r.info == outcome.data["info"])
    ensures !outcome.Parsed? ==> r.InfoFailed?
  {
    match outcome
    case TransportError(detail) => InfoFailed(CommunicationError(detail))
    case NotJson => InfoFailed(Lit(InvalidResponse))
    case Parsed(data) =>
      if Succeeded(data) && "key_data" in data then InfoFound(data["key_data"])
      else if Succeeded(data) && "info" in data then InfoFound(data["info"])
      else if "message" in data then InfoFailed([Str(ErrorPrefix), Value(data["message"])])
      else InfoFailed(Lit(UnexpectedResponse))
  }

  /** Information is found exactly when the response reports success and
      carries `key_data` or `info`; `key_data` wins when both are present.
      Transport and decoding failures give the same texts as for a create. */
  lemma InfoFoundIff(outcome: Outcome)
    ensures InterpretInfo(outcome).InfoFound? <==>
      outcome.Parsed? && Succeeded(outcome.data) && ("key_data" in outcome.data || "info" in outcome.data)
    ensures outcome.TransportError? ==> InterpretInfo(outcome) == InfoFailed(Lit(CommunicationPrefix + outcome.detail))
    ensures outcome.NotJson? ==> InterpretInfo(outcome) == InfoFailed(Lit(InvalidResponse))
    ensures outcome.Parsed? && Succeeded(outcome.data) && "key_data" in outcome.data ==>
      InterpretInfo(outcome).info == outcome.data["key_data"]
    ensures outcome.Parsed? && Succeeded(outcome.data) && "key_data" !in outcome.data && "info" in outcome.data ==>
      InterpretInfo(outcome).info == outcome.data["info"]
  {
  }

  /** When nothing is found, a `message` in the response is reported after the
      KeyAuth error prefix, and without one the answer is "unexpected". */
  lemma InfoFailureText(outcome: Outcome)
    requires outcome.Parsed? && !InterpretInfo(outcome).InfoFound?
    ensures "message" in outcome.data ==>
      InterpretInfo(outcome).message == [Str(ErrorPrefix), Value(outcome.data["message"])]
    ensures "message" !in outcome.data ==> InterpretInfo(outcome).message == Lit(UnexpectedResponse)
  {
  }
}
