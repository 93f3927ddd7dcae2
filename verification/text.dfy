/** Scanning of character sequences, shared by the URL parser and the `.env` loader. */
module Text {
  import opened Wrappers

  predicate All(s: string, ok: char -> bool) {
    forall i :: 0 <= i < |s| ==> ok(s[i])
  }

  /** The length of the longest prefix of `s` whose characters are all `ok`. */
  function Span(s: string, ok: char -> bool): (n: nat)
    ensures n <= |s| && All(s[..n], ok)
    ensures n < |s| ==> !ok(s[n])
  {
    if s == "" || !ok(s[0]) then 0
    else
      var n := Span(s[1..], ok);
      assert s[..n + 1] == [s[0]] + s[1..][..n];
      n + 1
  }

  lemma {:induction false} SpanOf(a: string, b: string, ok: char -> bool)
    requires All(a, ok)
    ensures Span(a + b, ok) == |a| + Span(b, ok)
  {
    if a == "" {
      assert a + b == b;
    } else {
      assert (a + b)[1..] == a[1..] + b;
      SpanOf(a[1..], b, ok);
    }
  }

  predicate StartsWith(s: string, prefix: string) {
    |prefix| <= |s| && s[..|prefix|] == prefix
  }

  /** `find_last_of`. */
  function FindLast(s: string, c: char): (r: Option<nat>)
    ensures r == None ==> forall j :: 0 <= j < |s| ==> s[j] != c
    ensures r.Some? ==> r.value < |s| && s[r.value] == c
    ensures r.Some? ==> forall j :: r.value < j < |s| ==> s[j] != c
  {
    if s == "" then None
    else if s[|s| - 1] == c then Some(|s| - 1)
    else FindLast(s[..|s| - 1], c)
  }

  lemma LastOfAppended(a: string, b: string, c: char)
    ensures c !in b ==> FindLast(a + b, c) == FindLast(a, c)
    ensures c in b ==> FindLast(a + b, c).Some? && FindLast(a + b, c).value >= |a|
  {
    var s := a + b;
    var r := FindLast(s, c);
    if c in b {
      var j :| 0 <= j < |b| && b[j] == c;
      assert s[|a| + j] == c;
    } else if r.Some? {
      assert r.value < |a|;
      assert a[r.value] == c;
      var ra := FindLast(a, c);
      assert s[ra.value] == c;
    } else {
      assert forall j :: 0 <= j < |a| ==> a[j] == s[j];
    }
  }

  /** Drops characters from the end as long as they are to be dropped. */
  function TrimRight(s: string, drop: char -> bool): (r: string)
    ensures |r| <= |s| && r == s[..|r|]
    ensures r == "" || !drop(r[|r| - 1])
    ensures forall i :: |r| <= i < |s| ==> drop(s[i])
  {
    if s != "" && drop(s[|s| - 1]) then TrimRight(s[..|s| - 1], drop) else s
  }

  /** What the loop that pops trailing characters leaves behind. */
  method PopTrailing(s: string, drop: char -> bool) returns (r: string)
    ensures r == TrimRight(s, drop)
  {
    r := s;
    while r != "" && drop(r[|r| - 1])
      invariant TrimRight(r, drop) == TrimRight(s, drop)
      decreases |r|
    {
      r := r[..|r| - 1];
    }
  }
}
