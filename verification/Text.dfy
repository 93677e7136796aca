/** Small text toolkit: the parts of Go's `strings` package the proxy relies on, over ASCII text. */
module Text {

  datatype Option<+T> = None | Some(value: T)

  datatype Result<+T, +E> = Ok(value: T) | Err(error: E)

  predicate IsSpace(c: char) {
    c == ' ' || '\t' <= c <= '\r'
  }

  function LowerChar(c: char): char {
    if 'A' <= c <= 'Z' then c + ' ' else c
  }

  function ToLower(s: string): string {
    seq(|s|, i requires 0 <= i < |s| => LowerChar(s[i]))
  }

  function TrimLeft(s: string): string {
    if s != [] && IsSpace(s[0]) then TrimLeft(s[1..]) else s
  }

  function TrimRight(s: string): (r: string)
    ensures r <= s
  {
    if s != [] && IsSpace(s[|s| - 1]) then TrimRight(s[..|s| - 1]) else s
  }

  /** strings.TrimSpace */
  function TrimSpace(s: string): string {
    TrimRight(TrimLeft(s))
  }

  predicate NoLeadingSpace(s: string) {
    s == [] || !IsSpace(s[0])
  }

  predicate NoTrailingSpace(s: string) {
    s == [] || !IsSpace(s[|s| - 1])
  }

  lemma {:induction false} TrimLeftResult(s: string)
    ensures NoLeadingSpace(TrimLeft(s))
    ensures exists k :: 0 <= k <= |s| && TrimLeft(s) == s[k..]
  {
    if s != [] && IsSpace(s[0]) {
      TrimLeftResult(s[1..]);
      var k :| 0 <= k <= |s[1..]| && TrimLeft(s[1..]) == s[1..][k..];
      assert s[1..][k..] == s[k + 1..];
    } else {
      assert s == s[0..];
    }
  }

  lemma {:induction false} TrimRightResult(s: string)
    ensures NoTrailingSpace(TrimRight(s))
    ensures NoLeadingSpace(s) ==> NoLeadingSpace(TrimRight(s))
  {
    if s != [] && IsSpace(s[|s| - 1]) {
      TrimRightResult(s[..|s| - 1]);
    }
  }

  /** Trimming leaves no outer white space, and changes nothing exactly when there was none. */
  lemma TrimSpaceResult(s: string)
    ensures NoLeadingSpace(TrimSpace(s)) && NoTrailingSpace(TrimSpace(s))
    ensures TrimSpace(s) == s <==> NoLeadingSpace(s) && NoTrailingSpace(s)
    ensures |TrimSpace(s)| <= |s|
  {
    TrimLeftResult(s);
    TrimRightResult(TrimLeft(s));
  }

  lemma {:induction false} TrimLeftWindow(s: string) returns (i: nat)
    ensures i <= |s| && TrimLeft(s) == s[i..] && forall k :: 0 <= k < i ==> IsSpace(s[k])
  {
    if s != [] && IsSpace(s[0]) {
      var j := TrimLeftWindow(s[1..]);
      i := j + 1;
      assert s[1..][j..] == s[i..];
      forall k | 0 <= k < i
        ensures IsSpace(s[k])
      {
        if k > 0 {
          assert s[k] == s[1..][k - 1];
        }
      }
    } else {
      i := 0;
    }
  }

  lemma {:induction false} TrimRightWindow(s: string)
    ensures forall k :: |TrimRight(s)| <= k < |s| ==> IsSpace(s[k])
  {
    if s != [] && IsSpace(s[|s| - 1]) {
      TrimRightWindow(s[..|s| - 1]);
    }
  }

  /** Trimming cuts out a window with nothing but white space around it. */
  lemma TrimSpaceWindow(s: string) returns (i: nat, j: nat)
    ensures i <= j <= |s| && TrimSpace(s) == s[i..j]
    ensures forall k :: 0 <= k < i || j <= k < |s| ==> IsSpace(s[k])
  {
    i := TrimLeftWindow(s);
    TrimRightWindow(s[i..]);
    j := i + |TrimRight(s[i..])|;
    forall k | j <= k < |s|
      ensures IsSpace(s[k])
    {
      assert s[k] == s[i..][k - i];
    }
    assert s[i..j] == s[i..][..j - i];
  }

  /** strings.Split on a one-character separator: never empty. */
  function Split(s: string, sep: char): (parts: seq<string>)
    ensures parts != []
  {
    if s == [] then [[]]
    else
      var rest := Split(s[1..], sep);
      if s[0] == sep then [[]] + rest
      else [[s[0]] + rest[0]] + rest[1..]
  }

  /** Splitting just after a separator-free head peels that head off. */
  lemma {:induction false} SplitHead(a: string, sep: char, b: string)
    requires sep !in a
    ensures Split(a + [sep] + b, sep) == [a] + Split(b, sep)
    ensures Split(a, sep) == [a]
  {
    var whole := a + [sep] + b;
    if a == [] {
      assert whole[1..] == b;
    } else {
      SplitHead(a[1..], sep, b);
      assert whole[1..] == a[1..] + [sep] + b;
      assert a == [a[0]] + a[1..];
    }
  }

  /** No part of a split contains the separator. */
  lemma {:induction false} SplitPartsClean(s: string, sep: char)
    ensures forall i :: 0 <= i < |Split(s, sep)| ==> sep !in Split(s, sep)[i]
  {
    if s != [] {
      SplitPartsClean(s[1..], sep);
    }
  }

  /** strings.SplitN(s, sep, 2): the text before and after the first separator, if any. */
  function Cut(s: string, sep: char): Option<(string, string)> {
    if s == [] then None
    else if s[0] == sep then Some(([], s[1..]))
    else match Cut(s[1..], sep)
      case None => None
      case Some(kv) => Some(([s[0]] + kv.0, kv.1))
  }

  lemma {:induction false} CutAtFirst(k: string, sep: char, v: string)
    requires sep !in k
    ensures Cut(k + [sep] + v, sep) == Some((k, v))
  {
    var whole := k + [sep] + v;
    if k == [] {
      assert whole[1..] == v;
    } else {
      assert whole[1..] == k[1..] + [sep] + v;
      CutAtFirst(k[1..], sep, v);
      assert k == [k[0]] + k[1..];
    }
  }

  /** A separator that occurs in neither left part splits a text in one way only. */
  lemma UniqueFirst(a: string, b: string, sep: char, x: string, y: string)
    requires sep !in a && sep !in b
    requires a + [sep] + x == b + [sep] + y
    ensures a == b && x == y
  {
    CutAtFirst(a, sep, x);
    CutAtFirst(b, sep, y);
  }

  lemma SeparatorInside(a: string, b: string, sep: char, x: string, y: string)
    requires a + [sep] + x == b + [sep] + y && |a| < |b|
    ensures sep in x
  {
    var s := a + [sep] + x;
    assert s[|b|] == (b + [sep] + y)[|b|] == sep;
    assert x[|b| - |a| - 1] == s[|b|];
  }

  /** The same for a separator that occurs in neither right part. */
  lemma UniqueLast(a: string, b: string, sep: char, x: string, y: string)
    requires sep !in x && sep !in y
    requires a + [sep] + x == b + [sep] + y
    ensures a == b && x == y
  {
    if |a| < |b| {
      SeparatorInside(a, b, sep, x, y);
    } else if |b| < |a| {
      SeparatorInside(b, a, sep, y, x);
    } else {
      var s := a + [sep] + x;
      assert s[..|a|] == a && s[..|b|] == b;
      assert s[|a| + 1..] == x && s[|b| + 1..] == y;
    }
  }
}
