/** JSON values as the licensing provider returns them, with the two pieces of
    Python semantics that the bot applies to them: truthiness (`if x:`) and the
    `in` operator. Texts that interpolate a provider value keep that value as a
    piece instead of rendering it, since Python's `str()` of an object depends
    on the key order of the document, which a map does not keep. */
module Json {

  datatype Option<T> = None | Some(value: T)

  /** A decoded JSON value. Numbers with a fraction or an exponent are kept as
      reals; NaN and the infinities are not represented. */
  datatype Json =
    | JNull
    | JBool(b: bool)
    | JInt(i: int)
    | JFloat(r: real)
    | JStr(s: string)
    | JArr(items: seq<Json>)
    | JObj(fields: map<string, Json>)

  /** Python truthiness of the decoded value (`bool(x)`). */
  predicate Truthy(v: Json) {
    match v
    case JNull => false
    case JBool(b) => b
    case JInt(i) => i != 0
    case JFloat(r) => r != 0.0
    case JStr(s) => s != ""
    case JArr(items) => |items| != 0
    case JObj(fields) => |fields| != 0
  }

  /** `d.get(k, default)` on a decoded object. */
  function Get(d: map<string, Json>, k: string, default: Json): (v: Json)
    ensures k in d ==> v == d[k]
    ensures k !in d ==> v == default
  {
    if k in d then d[k] else default
  }

  /** `p` occurs in `s` starting at position 0. */
  predicate IsPrefix(p: string, s: string) {
    |p| <= |s| && s[..|p|] == p
  }

  /** `p` occurs somewhere in `s` (Python's `p in s` on strings). */
  predicate IsSubstring(p: string, s: string)
    decreases |s|
  {
    IsPrefix(p, s) || (s != [] && IsSubstring(p, s[1..]))
  }

  lemma {:induction false} SubstringInside(a: string, p: string, b: string)
    ensures IsSubstring(p, a + p + b)
  {
    if a == [] {
      assert (a + p + b)[..|p|] == p;
    } else {
      assert (a + p + b)[1..] == a[1..] + p + b;
      SubstringInside(a[1..], p, b);
    }
  }

  /** A string occurs nowhere when it is a prefix of no suffix. */
  lemma {:induction false} NoOccurrence(p: string, s: string)
    requires forall i :: 0 <= i <= |s| ==> !IsPrefix(p, s[i..])
    ensures !IsSubstring(p, s)
    decreases |s|
  {
    assert s[0..] == s;
    if s != [] {
      forall i | 0 <= i <= |s[1..]| ensures !IsPrefix(p, s[1..][i..]) {
        assert s[1..][i..] == s[i + 1..];
      }
      NoOccurrence(p, s[1..]);
    }
  }

  /** Python's `needle in hay` when `needle` is a string: substring search on a
      string, element equality on a list, key membership on an object, and a
      TypeError (None) on a number, a boolean or null. */
  function PyIn(needle: string, hay: Json): (r: Option<bool>)
    ensures r == None <==> !(hay.JStr? || hay.JArr? || hay.JObj?)
    ensures hay.JObj? ==> (r == Some(true) <==> needle in hay.fields)
  {
    match hay
    case JStr(s) => Some(IsSubstring(needle, s))
    case JArr(items) => Some(JStr(needle) in items)
    case JObj(fields) => Some(needle in fields)
    case _ => None
  }

  /** One piece of a chat text: a literal, or a provider value shown through
      Python's `str()`. */
  datatype Piece = Str(s: string) | Value(v: Json)

  type Text = seq<Piece>

  /** A text made of one literal. */
  function Lit(s: string): Text {
    [Str(s)]
  }
}
