/**
 * PHP's `trim()` with its default character list " \t\n\r\0\x0B".
 *
 * PHP strings are byte strings. Every character trim strips is a single
 * ASCII byte, and no byte of a multi-byte UTF-8 sequence is one of them, so
 * trimming a sequence of characters gives the same text as trimming its bytes.
 */
module PhpTrim {

  /** The characters `trim()` strips when no character list is given. */
  const TrimChars: set<char> := {' ', '\t', '\n', '\r', '\0', '\U{B}'}

  predicate IsTrimSpace(c: char) {
    c in TrimChars
  }

  predicate AllTrimSpace(s: string) {
    forall i :: 0 <= i < |s| ==> IsTrimSpace(s[i])
  }

  /** Neither end of `s` is a trim character (vacuously true of ""). */
  predicate Trimmed(s: string) {
    s == [] || (!IsTrimSpace(s[0]) && !IsTrimSpace(s[|s| - 1]))
  }

  /** Number of trim characters at the front of `s`. */
  function LeadingCount(s: string): (n: nat)
    ensures n <= |s|
    ensures forall k :: 0 <= k < n ==> IsTrimSpace(s[k])
    ensures n == |s| || !IsTrimSpace(s[n])
  {
    if s == [] || !IsTrimSpace(s[0]) then 0
    else
      var n := 1 + LeadingCount(s[1..]);
      assert forall k :: 1 <= k < n ==> s[k] == s[1..][k - 1];
      n
  }

  /** Number of trim characters at the back of `s`. */
  function TrailingCount(s: string): (n: nat)
    ensures n <= |s|
    ensures forall k :: |s| - n <= k < |s| ==> IsTrimSpace(s[k])
    ensures n == |s| || !IsTrimSpace(s[|s| - 1 - n])
  {
    if s == [] || !IsTrimSpace(s[|s| - 1]) then 0
    else
      var n := 1 + TrailingCount(s[..|s| - 1]);
      assert forall k :: |s| - n <= k < |s| - 1 ==> s[k] == s[..|s| - 1][k];
      n
  }

  /**
   * `trim(s)`: scan forward past the leading trim characters and backward
   * past the trailing ones, and keep what lies between. So `s` splits into
   * an all-space prefix, the result, and an all-space suffix, and the result
   * neither starts nor ends with a trim character.
   */
  function Trim(s: string): (r: string)
    ensures Trimmed(r)
    ensures LeadingCount(s) + |r| <= |s|
    ensures r == s[LeadingCount(s)..LeadingCount(s) + |r|]
    ensures forall k :: LeadingCount(s) + |r| <= k < |s| ==> IsTrimSpace(s[k])
  {
    var i := LeadingCount(s);
    if i == |s| then []
    else
      var j := TrailingCount(s);
      assert j < |s| - i;
      s[i..|s| - j]
  }

  /** The trim characters `trim` cuts off the front of `s`. */
  function LeftMargin(s: string): string {
    s[..LeadingCount(s)]
  }

  /** The trim characters `trim` cuts off the back of `s`. */
  function RightMargin(s: string): string {
    s[LeadingCount(s) + |Trim(s)|..]
  }

  /** The front scan stops at the first character that is not a trim character. */
  lemma LeadingCountAt(s: string, p: nat)
    requires p <= |s|
    requires forall k :: 0 <= k < p ==> IsTrimSpace(s[k])
    requires p == |s| || !IsTrimSpace(s[p])
    ensures LeadingCount(s) == p
  {
  }

  /**
   * `Trim` is the unique cut: if `s[p..q]` has only trim characters before and
   * after it and is itself trimmed, then it is what `trim` keeps.
   */
  lemma TrimAt(s: string, p: nat, q: nat)
    requires p <= q <= |s|
    requires forall k :: 0 <= k < p ==> IsTrimSpace(s[k])
    requires forall k :: q <= k < |s| ==> IsTrimSpace(s[k])
    requires p == q || (!IsTrimSpace(s[p]) && !IsTrimSpace(s[q - 1]))
    ensures Trim(s) == s[p..q]
  {
    if p == q {
      LeadingCountAt(s, |s|);
    } else {
      LeadingCountAt(s, p);
      var r := Trim(s);
      assert |r| > 0 ==> r[|r| - 1] == s[p + |r| - 1];
    }
  }

  /** Trimming all-space margins `u` and `v` off a trimmed `m` gives `m` back. */
  lemma TrimOfPadded(u: string, m: string, v: string)
    requires AllTrimSpace(u) && AllTrimSpace(v) && Trimmed(m)
    ensures Trim(u + m + v) == m
  {
    var s := u + m + v;
    assert forall k :: 0 <= k < |u| ==> s[k] == u[k];
    assert forall k :: |u| + |m| <= k < |s| ==> s[k] == v[k - |u| - |m|];
    assert m != [] ==> s[|u|] == m[0] && s[|u| + |m| - 1] == m[|m| - 1];
    TrimAt(s, |u|, |u| + |m|);
    assert s[|u|..|u| + |m|] == m;
  }

  /** Trimming twice is trimming once. */
  lemma TrimIdempotent(s: string)
    ensures Trim(Trim(s)) == Trim(s)
  {
    TrimAt(Trim(s), 0, |Trim(s)|);
  }

  /** `trim` returns "" exactly for the strings made only of trim characters. */
  lemma TrimEmptyIff(s: string)
    ensures Trim(s) == [] <==> AllTrimSpace(s)
  {
    if AllTrimSpace(s) {
      TrimAt(s, |s|, |s|);
    }
  }

  /** `s` is the trimmed text between its two all-space margins. */
  lemma TrimSplit(s: string)
    ensures s == LeftMargin(s) + Trim(s) + RightMargin(s)
    ensures AllTrimSpace(LeftMargin(s)) && AllTrimSpace(RightMargin(s))
  {
    var p := LeadingCount(s);
    var q := p + |Trim(s)|;
    var u, m, v := s[..p], s[p..q], s[q..];
    assert AllTrimSpace(u) by {
      forall k | 0 <= k < p ensures IsTrimSpace(u[k]) { assert u[k] == s[k]; }
    }
    assert AllTrimSpace(v) by {
      forall k | 0 <= k < |v| ensures IsTrimSpace(v[k]) { assert v[k] == s[q + k]; }
    }
    assert s[..q] == u + m;
    assert s == s[..q] + v;
  }

  lemma ConcatAllTrimSpace(a: string, b: string)
    requires AllTrimSpace(a) && AllTrimSpace(b)
    ensures AllTrimSpace(a + b)
  {
    assert forall k :: 0 <= k < |a| ==> (a + b)[k] == a[k];
    assert forall k :: |a| <= k < |a + b| ==> (a + b)[k] == b[k - |a|];
  }

  /** Moves an outer addition onto the adjacent margin of `u + m + v`. */
  lemma RegroupMargins(u: string, m: string, v: string, w: string)
    ensures (u + m + v) + w == u + m + (v + w)
    ensures w + (u + m + v) == (w + u) + m + v
  {
  }

  /** Trim characters appended to `s` never survive trimming. */
  lemma TrimAppendSpace(s: string, w: string)
    requires AllTrimSpace(w)
    ensures Trim(s + w) == Trim(s)
  {
    TrimSplit(s);
    var u, m, v := LeftMargin(s), Trim(s), RightMargin(s);
    ConcatAllTrimSpace(v, w);
    RegroupMargins(u, m, v, w);
    TrimOfPadded(u, m, v + w);
  }

  /** Trim characters prepended to `s` never survive trimming. */
  lemma TrimPrependSpace(w: string, s: string)
    requires AllTrimSpace(w)
    ensures Trim(w + s) == Trim(s)
  {
    TrimSplit(s);
    var u, m, v := LeftMargin(s), Trim(s), RightMargin(s);
    ConcatAllTrimSpace(w, u);
    RegroupMargins(u, m, v, w);
    TrimOfPadded(w + u, m, v);
  }

  /** Putting anything between two non-empty trimmed texts gives a trimmed text. */
  lemma TrimmedAround(x: string, y: string, z: string)
    requires Trimmed(x) && x != [] && Trimmed(z) && z != []
    ensures Trimmed(x + y + z)
  {
    assert (x + y + z)[0] == x[0];
    assert (x + y + z)[|x + y + z| - 1] == z[|z| - 1];
  }

  /** Regroups the join of two split texts as outer left margin, core, outer right margin. */
  lemma RegroupJoin(ua: string, ma: string, va: string, sep: string, ub: string, mb: string, vb: string)
    ensures (ua + ma + va) + sep + (ub + mb + vb) == ua + (ma + (va + sep + ub) + mb) + vb
  {
  }

  /**
   * Joining two texts that are not blank and trimming the join strips only
   * the outer margins: the white space on both sides of the joint is kept.
   */
  lemma TrimJoin(a: string, sep: string, b: string)
    requires !AllTrimSpace(a) && !AllTrimSpace(b)
    ensures Trim(a + sep + b) == Trim(a) + (RightMargin(a) + sep + LeftMargin(b)) + Trim(b)
  {
    TrimSplit(a);
    TrimSplit(b);
    TrimEmptyIff(a);
    TrimEmptyIff(b);
    var mid := RightMargin(a) + sep + LeftMargin(b);
    TrimmedAround(Trim(a), mid, Trim(b));
    RegroupJoin(LeftMargin(a), Trim(a), RightMargin(a), sep, LeftMargin(b), Trim(b), RightMargin(b));
    TrimOfPadded(LeftMargin(a), Trim(a) + mid + Trim(b), RightMargin(b));
  }
}
