/** The key generator: four segments of four characters drawn from
    `A`-`Z` and `0`-`9`, joined with `-`. The random draws are an input: the
    sixteen positions in the alphabet that `random.choice` picked, in order. */
module KeyGen {
  import opened Strings

  const Uppercase := "ABCDEFGHIJKLMNOPQRSTUVWXYZ"
  const Digits := "0123456789"
  /** The alphabet the generator draws from, upper-case letters first. */
  const Chars := Uppercase + Digits

  /** Sixteen draws, each a position in the alphabet. */
  predicate ValidChoices(c: seq<int>) {
    |c| == 16 && forall i :: 0 <= i < 16 ==> 0 <= c[i] < |Chars|
  }

  /** Canonical key shape `XXXX-XXXX-XXXX-XXXX`: nineteen characters, dashes
      at positions 4, 9 and 14, every other character in the alphabet. */
  predicate IsLicenseKey(k: string) {
    && |k| == 19
    && k[4] == '-' && k[9] == '-' && k[14] == '-'
    && forall i :: 0 <= i < 19 && i != 4 && i != 9 && i != 14 ==> k[i] in Chars
  }

  /** The alphabet letters of a run of draws. */
  function Spell(d: seq<int>): (t: string)
    requires forall i :: 0 <= i < |d| ==> 0 <= d[i] < |Chars|
  {
    seq(|d|, i requires 0 <= i < |d| => Chars[d[i]])
  }

  /** Segment `s` of the key: the letters of draws 4s to 4s+3. */
  function Segment(c: seq<int>, s: nat): string
    requires ValidChoices(c) && s < 4
  {
    Spell(c[4 * s..4 * s + 4])
  }

  /** The key the generator returns for the draws `c`. */
  function KeyFromChoices(c: seq<int>): (k: string)
    requires ValidChoices(c)
    ensures IsLicenseKey(k)
  {
    var k := Segment(c, 0) + "-" + Segment(c, 1) + "-" + Segment(c, 2) + "-" + Segment(c, 3);
    assert IsLicenseKey(k) by {
      forall i | 0 <= i < 19 && i != 4 && i != 9 && i != 14 ensures k[i] in Chars {
        var s := if i < 4 then 0 else if i < 9 then 1 else if i < 14 then 2 else 3;
        assert k[5 * s..5 * s + 4] == Segment(c, s);
        assert k[i] == k[5 * s..5 * s + 4][i - 5 * s];
      }
    }
    k
  }

  /** Every generated key has the canonical shape, and its four dash-separated
      slices are the four segments, in the order they were drawn. */
  lemma KeyFormat(c: seq<int>)
    requires ValidChoices(c)
    ensures IsLicenseKey(KeyFromChoices(c))
    ensures var k := KeyFromChoices(c);
      k[0..4] == Segment(c, 0) && k[5..9] == Segment(c, 1) && k[10..14] == Segment(c, 2) && k[15..19] == Segment(c, 3)
  {
    var k := KeyFromChoices(c);
    assert k[0..4] == Segment(c, 0);
    assert k[5..9] == Segment(c, 1);
    assert k[10..14] == Segment(c, 2);
    assert k[15..19] == Segment(c, 3);
  }

  function IndexOf(ch: char, s: string): (r: nat)
    requires ch in s
    ensures r < |s| && s[r] == ch
  {
    if s[0] == ch then 0 else 1 + IndexOf(ch, s[1..])
  }

  /** The positions in the alphabet of the letters of `t`. */
  function Indices(t: string): (d: seq<int>)
    requires forall i :: 0 <= i < |t| ==> t[i] in Chars
    ensures |d| == |t| && forall i :: 0 <= i < |d| ==> 0 <= d[i] < |Chars| && Chars[d[i]] == t[i]
  {
    seq(|t|, i requires 0 <= i < |t| => IndexOf(t[i], Chars))
  }

  /** The draws that spell out the non-dash characters of `k`. */
  lemma DrawsOf(k: string) returns (c: seq<int>)
    requires IsLicenseKey(k)
    ensures ValidChoices(c)
    ensures Segment(c, 0) == k[0..4] && Segment(c, 1) == k[5..9]
    ensures Segment(c, 2) == k[10..14] && Segment(c, 3) == k[15..19]
  {
    var d0, d1, d2, d3 := Indices(k[0..4]), Indices(k[5..9]), Indices(k[10..14]), Indices(k[15..19]);
    c := d0 + d1 + d2 + d3;
    assert c[0..4] == d0 && c[4..8] == d1 && c[8..12] == d2 && c[12..16] == d3;
  }

  /** Every key of the canonical shape is the output of some draws: the
      generator can produce exactly the canonical keys. */
  lemma KeyOnto(k: string)
    requires IsLicenseKey(k)
    ensures exists c :: ValidChoices(c) && KeyFromChoices(c) == k
  {
    var c := DrawsOf(k);
    assert KeyFromChoices(c) == k[0..4] + [k[4]] + k[5..9] + [k[9]] + k[10..14] + [k[14]] + k[15..19];
    assert KeyFromChoices(c) == k;
  }

  /** `generate_random_key`: builds the four segments in a list, then joins
      them with dashes. */
  method GenerateKey(c: seq<int>) returns (key: string)
    requires ValidChoices(c)
    ensures key == KeyFromChoices(c)
    ensures IsLicenseKey(key)
  {
    var segments: seq<string> := [];
    for s := 0 to 4
      invariant |segments| == s
      invariant forall t :: 0 <= t < s ==> segments[t] == Segment(c, t)
    {
      var segment := "";
      for j := 0 to 4
        invariant segment == Segment(c, s)[..j]
      {
        segment := segment + [Chars[c[4 * s + j]]];
      }
      segments := segments + [segment];
    }
    assert segments == [Segment(c, 0), Segment(c, 1), Segment(c, 2), Segment(c, 3)];
    key := Join("-", segments);
    assert Join("-", segments[2..]) == segments[2] + "-" + Join("-", segments[3..]);
    assert Join("-", segments[1..]) == segments[1] + "-" + Join("-", segments[2..]);
    KeyFormat(c);
  }
}
