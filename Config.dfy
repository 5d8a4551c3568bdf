/** The authorized-author list, read once at start-up from a comma-separated
    string of numeric ids. */
module Config {
  import opened Json
  import opened Strings

  /** `int(uid.strip())` for one piece of the list. */
  function ParseId(piece: string): Option<int> {
    ParseInt(Strip(piece))
  }

  /** All the values, in order, or None as soon as one is missing. */
  function Collect<T>(os: seq<Option<T>>): (r: Option<seq<T>>)
    ensures r.Some? <==> forall i :: 0 <= i < |os| ==> os[i].Some?
    ensures r.Some? ==> |r.value| == |os| && forall i :: 0 <= i < |os| ==> os[i] == Some(r.value[i])
  {
    if os == [] then Some([])
    else if os[0].None? then None
    else
      match Collect(os[1..])
      case None => None
      case Some(vs) => Some([os[0].value] + vs)
  }

  /** `[int(uid.strip()) for uid in pieces]`, or None when one of the pieces
      is not an integer (the ValueError that stops the process). */
  function ParseAll(pieces: seq<string>): (r: Option<seq<int>>)
    ensures r.Some? <==> forall i :: 0 <= i < |pieces| ==> ParseId(pieces[i]).Some?
    ensures r.Some? ==> |r.value| == |pieces| && forall i :: 0 <= i < |pieces| ==> ParseId(pieces[i]) == Some(r.value[i])
  {
    var os := seq(|pieces|, i requires 0 <= i < |pieces| => ParseId(pieces[i]));
    assert forall i :: 0 <= i < |pieces| ==> os[i] == ParseId(pieces[i]);
    Collect(os)
  }

  /** The id list as parsed from the configuration string. */
  function ParseAuthorizedIds(s: string): (r: Option<seq<int>>)
    ensures var pieces := SplitOn(s, ',');
      r.None? <==> exists i :: 0 <= i < |pieces| && ParseInt(Strip(pieces[i])).None?
    ensures var pieces := SplitOn(s, ',');
      r.Some? ==> |r.value| == |pieces| && forall i :: 0 <= i < |pieces| ==> ParseInt(Strip(pieces[i])) == Some(r.value[i])
    ensures r.Some? ==> r.value != []
  {
    ParseAll(SplitOn(s, ','))
  }

  /** The decimal text of each id. */
  function ShowIds(ids: seq<int>): (r: seq<string>)
    ensures |r| == |ids| && forall i :: 0 <= i < |ids| ==> r[i] == ShowInt(ids[i])
  {
    seq(|ids|, i requires 0 <= i < |ids| => ShowInt(ids[i]))
  }

  lemma ShowIntPlain(n: int)
    ensures ',' !in ShowInt(n) && NoSpace(ShowInt(n))
  {
    var m := if n < 0 then -n else n;
    ShowNatDigits(m);
    var t := ShowInt(n);
    forall k | 0 <= k < |t| ensures t[k] != ',' && !IsSpace(t[k]) {
      if n < 0 && k > 0 {
        assert t[k] == ShowNat(m)[k - 1];
      }
    }
  }

  /** A list of ids written out with commas (any non-empty list) parses back
      to the same list. */
  lemma {:induction false} ParseShownIds(ids: seq<int>)
    requires |ids| >= 1
    ensures ParseAuthorizedIds(Join(",", ShowIds(ids))) == Some(ids)
  {
    var ps := ShowIds(ids);
    forall i | 0 <= i < |ps| ensures ',' !in ps[i] {
      ShowIntPlain(ids[i]);
    }
    assert [','] == ",";
    SplitOnJoin(ps, ',');
    ParseAllShown(ids);
  }

  /** One id written out reads back as itself. */
  lemma ParseIdShown(n: int)
    ensures ParseId(ShowInt(n)) == Some(n)
  {
    ShowIntPlain(n);
    StripPlain(ShowInt(n));
    ParseShowInt(n);
  }

  lemma ParseAllShown(ids: seq<int>)
    ensures ParseAll(ShowIds(ids)) == Some(ids)
  {
    var ps := ShowIds(ids);
    forall i | 0 <= i < |ps| ensures ParseId(ps[i]) == Some(ids[i]) {
      ParseIdShown(ids[i]);
    }
    var r := ParseAll(ps);
    assert r.value == ids;
  }
}
