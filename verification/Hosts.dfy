/** The host normal form shared by the router, the configuration and the SOCKS layer. */
module Hosts {
  import opened Text

  /** strings.TrimSuffix(s, "."): at most one dot goes. */
  function TrimDot(s: string): string {
    if s != [] && s[|s| - 1] == '.' then s[..|s| - 1] else s
  }

  function NormalizeHost(s: string): string {
    TrimDot(TrimSpace(ToLower(s)))
  }

  predicate IsNormal(s: string) {
    NormalizeHost(s) == s
  }

  predicate CleanTail(s: string) {
    s == [] || (s[|s| - 1] != '.' && !IsSpace(s[|s| - 1]))
  }

  function StripTail(s: string): string {
    if CleanTail(s) then s else StripTail(s[..|s| - 1])
  }

  /** What repeated normalisation converges to: lower case, no outer white space, no run of final dots. */
  function Canonical(s: string): string {
    StripTail(TrimLeft(ToLower(s)))
  }

  function Iterate(s: string, k: nat): string
    decreases k
  {
    if k == 0 then s else Iterate(NormalizeHost(s), k - 1)
  }

  predicate Lowered(s: string) {
    forall i :: 0 <= i < |s| ==> LowerChar(s[i]) == s[i]
  }

  lemma LowerOfLowered(s: string)
    requires Lowered(s)
    ensures ToLower(s) == s
  {
  }

  lemma NormalizedShape(s: string)
    ensures Lowered(NormalizeHost(s)) && NoLeadingSpace(NormalizeHost(s))
    ensures |NormalizeHost(s)| <= |s|
  {
    var low := ToLower(s);
    TrimLeftResult(low);
    TrimRightResult(TrimLeft(low));
    TrimSpaceResult(low);
  }

  /** Normalising once is enough exactly when the outcome ends in neither a dot nor white space. */
  lemma NormalExactlyWhenTailClean(s: string)
    ensures IsNormal(NormalizeHost(s)) <==> CleanTail(NormalizeHost(s))
  {
    NormalizedShape(s);
    FixpointIffCleanTail(NormalizeHost(s));
  }

  /** Two more rounds undo nothing: they lead back to a normalised name exactly when one more round keeps it. */
  lemma TwoRoundsKeepIff(s: string)
    ensures NormalizeHost(NormalizeHost(NormalizeHost(s))) == NormalizeHost(s) <==> CleanTail(NormalizeHost(s))
  {
    NormalizedShape(s);
    NormalizedShape(NormalizeHost(NormalizeHost(s)));
    NormalizedShape(NormalizeHost(s));
    FixpointIffCleanTail(NormalizeHost(s));
  }

  lemma FixpointIffCleanTail(x: string)
    requires Lowered(x) && NoLeadingSpace(x)
    ensures IsNormal(x) <==> CleanTail(x)
    ensures !IsNormal(x) ==> |NormalizeHost(x)| < |x|
  {
    LowerOfLowered(x);
    TrimSpaceResult(x);
  }

  lemma {:induction false} StripTailOfPrefix(x: string, y: string)
    requires y <= x
    requires forall i :: |y| <= i < |x| ==> x[i] == '.' || IsSpace(x[i])
    ensures StripTail(x) == StripTail(y)
    decreases |x|
  {
    if |x| > |y| {
      StripTailOfPrefix(x[..|x| - 1], y);
    } else {
      assert x == y;
    }
  }

  lemma {:induction false} TrimRightDropsSpaces(s: string)
    ensures forall i :: |TrimRight(s)| <= i < |s| ==> IsSpace(s[i])
  {
    if s != [] && IsSpace(s[|s| - 1]) {
      TrimRightDropsSpaces(s[..|s| - 1]);
    }
  }

  lemma {:induction false} StripTailResult(s: string)
    ensures CleanTail(StripTail(s)) && StripTail(s) <= s
  {
    if !CleanTail(s) {
      StripTailResult(s[..|s| - 1]);
    }
  }

  /** Normalising never changes where the iteration ends up. */
  lemma CanonicalStep(s: string)
    ensures Canonical(NormalizeHost(s)) == Canonical(s)
  {
    var left := TrimLeft(ToLower(s));
    var n := NormalizeHost(s);
    NormalizedShape(s);
    LowerOfLowered(n);
    TrimRightDropsSpaces(left);
    StripTailOfPrefix(left, n);
  }

  lemma CanonicalOfNormal(s: string)
    requires IsNormal(s)
    ensures Canonical(s) == s
  {
    NormalizedShape(s);
    LowerOfLowered(s);
    FixpointIffCleanTail(s);
  }

  lemma LosslessMeansNormal(s: string)
    requires |NormalizeHost(s)| == |s|
    ensures IsNormal(NormalizeHost(s))
  {
    var low := ToLower(s);
    TrimLeftResult(low);
    TrimRightResult(TrimLeft(low));
    NormalExactlyWhenTailClean(s);
  }

  /** After |s| rounds normalisation has converged, to the canonical form, and it is a fixpoint. */
  lemma {:induction false} IterationConverges(s: string, k: nat)
    requires k >= |s|
    ensures Iterate(s, k) == Canonical(s) && IsNormal(Canonical(s))
    decreases k
  {
    if s != [] {
      var x := NormalizeHost(s);
      NormalizedShape(s);
      CanonicalStep(s);
      if |x| == |s| {
        LosslessMeansNormal(s);
        CanonicalOfNormal(x);
        IterateNormal(x, k - 1);
      } else {
        IterationConverges(x, k - 1);
      }
    } else {
      assert IsNormal(s);
      IterateNormal(s, k);
    }
  }

  lemma {:induction false} IterateNormal(x: string, k: nat)
    requires IsNormal(x)
    ensures Iterate(x, k) == x
  {
    if k > 0 {
      IterateNormal(x, k - 1);
    }
  }

  // ---------------------------------------------------------------- in characters

  /** Space, tab, line feed, vertical tab, form feed, carriage return. */
  predicate Blank(c: char) {
    c as int in {32, 9, 10, 11, 12, 13}
  }

  /** A letter 'A'..'Z'. */
  predicate Capital(c: char) {
    65 <= c as int <= 90
  }

  /** The same character, or a letter and its capital. */
  predicate CaseTwins(a: char, b: char) {
    || a == b
    || (Capital(a) && b as int == a as int + 32)
    || (Capital(b) && a as int == b as int + 32)
  }

  ghost predicate SameButForCase(s: string, t: string) {
    |s| == |t| && forall i :: 0 <= i < |s| ==> CaseTwins(s[i], t[i])
  }

  lemma FoldedChar(c: char)
    ensures LowerChar(c) as int == if Capital(c) then c as int + 32 else c as int
    ensures IsSpace(c) <==> Blank(c)
    ensures IsSpace(LowerChar(c)) <==> Blank(c)
    ensures LowerChar(c) == '.' <==> c == '.'
  {
  }

  /** No normalised host has a capital letter. */
  lemma NoCapitals(s: string)
    ensures forall k :: 0 <= k < |NormalizeHost(s)| ==> !Capital(NormalizeHost(s)[k])
  {
    var r := NormalizeHost(s);
    NormalizedShape(s);
    forall k | 0 <= k < |r|
      ensures !Capital(r[k])
    {
      FoldedChar(r[k]);
    }
  }

  /** Capital letters make no difference. */
  lemma CaseIsFolded(s: string, t: string)
    requires SameButForCase(s, t)
    ensures NormalizeHost(s) == NormalizeHost(t)
  {
    forall i | 0 <= i < |s|
      ensures ToLower(s)[i] == ToLower(t)[i]
    {
      FoldedChar(s[i]);
      FoldedChar(t[i]);
    }
    assert ToLower(s) == ToLower(t);
  }

  /** Where normalisation cuts, and where there is a final dot to drop. */
  ghost predicate Inside(s: string, i: int, j: int) {
    && 0 <= i <= j <= |s|
    && (forall k :: 0 <= k < i || j <= k < |s| ==> Blank(s[k]))
    && (i < j ==> !Blank(s[i]) && !Blank(s[j - 1]))
  }

  function WithoutDot(s: string, i: int, j: int): (end: int)
    requires 0 <= i <= j <= |s|
  {
    if i < j && s[j - 1] == '.' then j - 1 else j
  }

  /** A normalised host, character by character: what lies between the outer blanks, less one final dot, folded. */
  lemma NormalizedCharacters(s: string) returns (i: int, j: int)
    ensures Inside(s, i, j)
    ensures var r, end := NormalizeHost(s), WithoutDot(s, i, j);
            && |r| == end - i
            && forall k :: 0 <= k < |r| ==>
                 r[k] as int == if Capital(s[i + k]) then s[i + k] as int + 32 else s[i + k] as int
  {
    var low := ToLower(s);
    var lo, hi := TrimSpaceWindow(low);
    i, j := lo, hi;
    TrimSpaceResult(low);
    forall k | 0 <= k < |s|
      ensures IsSpace(low[k]) <==> Blank(s[k])
      ensures low[k] == '.' <==> s[k] == '.'
      ensures low[k] as int == if Capital(s[k]) then s[k] as int + 32 else s[k] as int
    {
      FoldedChar(s[k]);
    }
    var t := TrimSpace(low);
    if i < j {
      assert t[0] == low[i] && t[|t| - 1] == low[j - 1];
    }
  }
}
