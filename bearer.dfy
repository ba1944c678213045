/**
 * Token extraction from the Authorization header:
 * `header.replace('Bearer ', '')`, which removes the FIRST occurrence of the
 * prefix wherever it stands, not only at the start.
 */
module Bearer {
  import opened Wrappers

  const Prefix: string := "Bearer "

  predicate OccursAt(s: string, pat: string, i: nat) {
    i + |pat| <= |s| && s[i..i + |pat|] == pat
  }

  /** `s.indexOf(pat, from)`: the first position at or after `from` where `pat` occurs. */
  function IndexOf(s: string, pat: string, from: nat): (r: Option<nat>)
    requires from <= |s|
    ensures r.Some? ==> from <= r.value && OccursAt(s, pat, r.value)
    ensures r.Some? ==> forall j: nat :: from <= j < r.value ==> !OccursAt(s, pat, j)
    ensures r.None? ==> forall j: nat :: from <= j ==> !OccursAt(s, pat, j)
    decreases |s| - from
  {
    if OccursAt(s, pat, from) then Some(from)
    else if from == |s| then None
    else IndexOf(s, pat, from + 1)
  }

  /** `s.replace(pat, '')` with a string pattern. */
  function RemoveFirst(s: string, pat: string): (r: string)
    ensures (forall j: nat :: !OccursAt(s, pat, j)) ==> r == s
    ensures forall i: nat :: OccursAt(s, pat, i) && (forall j: nat :: j < i ==> !OccursAt(s, pat, j)) ==>
              r == s[..i] + s[i + |pat|..]
  {
    match IndexOf(s, pat, 0)
    case None => s
    case Some(i) => s[..i] + s[i + |pat|..]
  }

  /** The token the gate verifies, taken from a present Authorization header. */
  function ExtractToken(header: string): string {
    RemoveFirst(header, Prefix)
  }

  /** A well-formed header `Bearer <t>` yields exactly `t`, whatever `t` holds. */
  lemma ExtractTokenOfBearer(t: string)
    ensures ExtractToken(Prefix + t) == t
  {
  }

  /** A header with no `Bearer ` anywhere is taken as the token itself. */
  lemma ExtractTokenWithoutPrefix(h: string)
    requires forall j: nat :: !OccursAt(h, Prefix, j)
    ensures ExtractToken(h) == h
  {
  }

  /** The extracted token is empty exactly for the empty header and for the bare prefix. */
  lemma EmptyTokenIff(h: string)
    ensures ExtractToken(h) == "" <==> h == "" || h == Prefix
  {
  }

  /** The prefix is removed from the middle of a header too: `xBearer y` yields `xy`. */
  lemma ExtractTokenRemovesInnerPrefix()
    ensures ExtractToken("xBearer y") == "xy"
  {
    var h := "xBearer y";
    assert !OccursAt(h, Prefix, 0) by { assert h[0] != Prefix[0]; }
    assert h[1..8] == Prefix;
    assert OccursAt(h, Prefix, 1);
    assert h[..1] + h[8..] == "xy";
  }
}
