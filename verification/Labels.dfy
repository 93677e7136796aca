/** The text keys under which labelled counters are kept, and the parser that turns them back into labels. */
module Labels {
  import opened Text

  datatype Label = Label(name: string, value: string)

  function LabelText(l: Label): string {
    l.name + ['='] + l.value
  }

  /** fmt.Sprintf("a=%s,b=%s,...") */
  function Key(labels: seq<Label>): string
    requires labels != []
  {
    if |labels| == 1 then LabelText(labels[0])
    else LabelText(labels[0]) + [','] + Key(labels[1..])
  }

  function HostBackendResult(host: string, backend: string, result: string): string {
    Key([Label("host", host), Label("backend", backend), Label("result", result)])
  }

  function HostReason(host: string, reason: string): string {
    Key([Label("host", host), Label("reason", reason)])
  }

  /** One part of a key: trimmed, then cut at its first '='; parts without one are dropped. */
  function AddPart(m: map<string, string>, part: string): map<string, string> {
    match Cut(TrimSpace(part), '=')
    case None => m
    case Some(kv) => m[kv.0 := kv.1]
  }

  function AddParts(m: map<string, string>, parts: seq<string>): map<string, string>
    decreases parts
  {
    if parts == [] then m else AddParts(AddPart(m, parts[0]), parts[1..])
  }

  /** parseKVLabels */
  method ParseKVLabels(s: string) returns (labels: map<string, string>)
    ensures labels == AddParts(map[], Split(s, ','))
  {
    labels := map[];
    var parts := Split(s, ',');
    for i := 0 to |parts|
      invariant AddParts(labels, parts[i..]) == AddParts(map[], parts)
    {
      var kv := Cut(TrimSpace(parts[i]), '=');
      if kv.Some? {
        labels := labels[kv.value.0 := kv.value.1];
      }
    }
  }

  function LabelMap(m: map<string, string>, labels: seq<Label>): map<string, string>
    decreases labels
  {
    if labels == [] then m else LabelMap(m[labels[0].name := labels[0].value], labels[1..])
  }

  /** Label names as the collector writes them. */
  predicate GoodName(name: string) {
    name != [] && !IsSpace(name[0]) && '=' !in name && ',' !in name
  }

  ghost predicate GoodNames(labels: seq<Label>) {
    && (forall i :: 0 <= i < |labels| ==> GoodName(labels[i].name))
    && (forall i, j :: 0 <= i < j < |labels| ==> labels[i].name != labels[j].name)
  }

  predicate Clean(value: string) {
    ',' !in value && NoTrailingSpace(value)
  }

  ghost predicate AllClean(labels: seq<Label>) {
    forall i :: 0 <= i < |labels| ==> Clean(labels[i].value)
  }

  function Texts(labels: seq<Label>): seq<string> {
    if labels == [] then [] else [LabelText(labels[0])] + Texts(labels[1..])
  }

  function Trimmed(labels: seq<Label>): seq<Label> {
    if labels == [] then []
    else [Label(labels[0].name, TrimRight(labels[0].value))] + Trimmed(labels[1..])
  }

  lemma {:induction false} KeySplits(labels: seq<Label>)
    requires labels != [] && GoodNames(labels)
    requires forall i :: 0 <= i < |labels| ==> ',' !in labels[i].value
    ensures Split(Key(labels), ',') == Texts(labels)
  {
    var head := LabelText(labels[0]);
    assert ',' !in head;
    if |labels| == 1 {
      SplitHead(head, ',', []);
      assert Texts(labels[1..]) == [];
    } else {
      KeySplits(labels[1..]);
      SplitHead(head, ',', Key(labels[1..]));
    }
  }

  lemma {:induction false} TrimRightOfText(name: string, v: string)
    requires name != [] && !IsSpace(name[0])
    ensures TrimRight(name + ['='] + v) == name + ['='] + TrimRight(v)
  {
    var whole := name + ['='] + v;
    if v != [] && IsSpace(v[|v| - 1]) {
      assert whole[..|whole| - 1] == name + ['='] + v[..|v| - 1];
      TrimRightOfText(name, v[..|v| - 1]);
    }
  }

  lemma PartParses(m: map<string, string>, l: Label)
    requires GoodName(l.name)
    ensures AddPart(m, LabelText(l)) == m[l.name := TrimRight(l.value)]
  {
    assert TrimLeft(LabelText(l)) == LabelText(l);
    TrimRightOfText(l.name, l.value);
    CutAtFirst(l.name, '=', TrimRight(l.value));
  }

  lemma {:induction false} TextsParse(m: map<string, string>, labels: seq<Label>)
    requires GoodNames(labels)
    ensures AddParts(m, Texts(labels)) == LabelMap(m, Trimmed(labels))
    decreases labels
  {
    if labels != [] {
      var l := labels[0];
      PartParses(m, l);
      TextsParse(m[l.name := TrimRight(l.value)], labels[1..]);
    }
  }

  lemma {:induction false} LabelMapAt(m: map<string, string>, labels: seq<Label>)
    requires GoodNames(labels)
    ensures forall k :: k in LabelMap(m, labels) <==> k in m || exists i :: 0 <= i < |labels| && labels[i].name == k
    ensures forall i :: 0 <= i < |labels| ==> LabelMap(m, labels)[labels[i].name] == labels[i].value
    ensures forall k :: k in m && (forall i :: 0 <= i < |labels| ==> labels[i].name != k) ==>
              LabelMap(m, labels)[k] == m[k]
    decreases labels
  {
    if labels != [] {
      var l, rest := labels[0], labels[1..];
      LabelMapAt(m[l.name := l.value], rest);
      assert forall i :: 0 < i < |labels| ==> labels[i] == rest[i - 1];
    }
  }

  lemma {:induction false} TrimmedAt(labels: seq<Label>)
    ensures |Trimmed(labels)| == |labels|
    ensures forall i :: 0 <= i < |labels| ==>
              Trimmed(labels)[i] == Label(labels[i].name, TrimRight(labels[i].value))
  {
    if labels != [] {
      TrimmedAt(labels[1..]);
    }
  }

  lemma {:induction false} TrimRightIdentity(s: string)
    ensures TrimRight(s) == s <==> NoTrailingSpace(s)
  {
    TrimRightResult(s);
  }

  lemma {:induction false} PartsCommaFree(m: map<string, string>, parts: seq<string>)
    requires forall i :: 0 <= i < |parts| ==> ',' !in parts[i]
    requires forall k :: k in m ==> ',' !in m[k]
    ensures forall k :: k in AddParts(m, parts) ==> ',' !in AddParts(m, parts)[k]
    decreases parts
  {
    if parts != [] {
      PartCommaFree(m, parts[0]);
      PartsCommaFree(AddPart(m, parts[0]), parts[1..]);
    }
  }

  lemma PartCommaFree(m: map<string, string>, part: string)
    requires ',' !in part
    requires forall k :: k in m ==> ',' !in m[k]
    ensures forall k :: k in AddPart(m, part) ==> ',' !in AddPart(m, part)[k]
  {
    TrimLeftResult(part);
    assert ',' !in TrimSpace(part);
    CutCommaFree(TrimSpace(part));
  }

  lemma {:induction false} CutCommaFree(s: string)
    requires ',' !in s
    ensures Cut(s, '=').Some? ==> ',' !in Cut(s, '=').value.1
  {
    if s != [] && s[0] != '=' {
      CutCommaFree(s[1..]);
    }
  }

  lemma CommaBreaks(labels: seq<Label>, i: nat)
    requires labels != [] && GoodNames(labels) && i < |labels| && ',' in labels[i].value
    ensures AddParts(map[], Split(Key(labels), ',')) != LabelMap(map[], labels)
  {
    hide AddParts, Split, Key, LabelMap;
    LabelMapAt(map[], labels);
    SplitPartsClean(Key(labels), ',');
    PartsCommaFree(map[], Split(Key(labels), ','));
    assert LabelMap(map[], labels)[labels[i].name] == labels[i].value;
  }

  lemma CommaFreeParses(labels: seq<Label>)
    requires labels != [] && GoodNames(labels)
    requires forall i :: 0 <= i < |labels| ==> ',' !in labels[i].value
    ensures AddParts(map[], Split(Key(labels), ',')) == LabelMap(map[], Trimmed(labels))
  {
    KeySplits(labels);
    TextsParse(map[], labels);
    hide Key, Split, AddParts, LabelMap;
  }

  lemma SpaceBreaks(labels: seq<Label>, i: nat)
    requires labels != [] && GoodNames(labels) && i < |labels| && TrimRight(labels[i].value) != labels[i].value
    ensures LabelMap(map[], Trimmed(labels)) != LabelMap(map[], labels)
  {
    hide LabelMap, Trimmed, TrimRight;
    TrimmedAt(labels);
    LabelMapAt(map[], labels);
    LabelMapAt(map[], Trimmed(labels));
    assert LabelMap(map[], Trimmed(labels))[Trimmed(labels)[i].name] == TrimRight(labels[i].value);
  }

  lemma CleanIsTrimmed(labels: seq<Label>)
    requires AllClean(labels)
    ensures Trimmed(labels) == labels
  {
    hide Trimmed, TrimRight;
    TrimmedAt(labels);
    forall i | 0 <= i < |labels|
      ensures Trimmed(labels)[i] == labels[i]
    {
      TrimRightIdentity(labels[i].value);
    }
  }

  /**
   * Parsing a counter's key gives back its labels exactly when no value holds a comma or ends in white
   * space; an '=' inside a value does no harm.
   */
  lemma CodecIff(labels: seq<Label>)
    requires labels != [] && GoodNames(labels)
    ensures AddParts(map[], Split(Key(labels), ',')) == LabelMap(map[], labels) <==> AllClean(labels)
  {
    hide AddParts, Split, Key, LabelMap, Trimmed, GoodNames, TrimRight;
    if i :| 0 <= i < |labels| && ',' in labels[i].value {
      CommaBreaks(labels, i);
    } else {
      CommaFreeParses(labels);
      if AllClean(labels) {
        CleanIsTrimmed(labels);
      } else {
        var i :| 0 <= i < |labels| && !Clean(labels[i].value);
        TrimRightIdentity(labels[i].value);
        SpaceBreaks(labels, i);
      }
    }
  }

  lemma {:induction false} KeyLast(labels: seq<Label>)
    requires |labels| >= 2
    ensures var n := |labels| - 1;
            Key(labels) == Key(labels[..n]) + [','] + LabelText(labels[n])
  {
    var n := |labels| - 1;
    if n > 1 {
      KeyLast(labels[1..]);
      assert labels[1..][..n - 1] == labels[..n][1..];
    }
  }

  ghost predicate SameNames(x: seq<Label>, y: seq<Label>) {
    |x| == |y| && forall i :: 0 <= i < |x| ==> x[i].name == y[i].name
  }

  /** Only the first value may hold commas. */
  ghost predicate TailCommaFree(labels: seq<Label>) {
    forall i :: 0 < i < |labels| ==> ',' !in labels[i].name && ',' !in labels[i].value
  }

  /**
   * Distinct label tuples never share a counter, whatever the first label - the client's host text - holds:
   * the later values, which the proxy chooses, have no comma.
   */
  lemma {:induction false} KeysInjective(x: seq<Label>, y: seq<Label>)
    requires x != [] && SameNames(x, y) && TailCommaFree(x) && TailCommaFree(y)
    requires Key(x) == Key(y)
    ensures x == y
    decreases |x|
  {
    var n := |x| - 1;
    if n == 0 {
      assert Key(x)[|x[0].name| + 1..] == x[0].value && Key(y)[|y[0].name| + 1..] == y[0].value;
    } else {
      KeyLast(x);
      KeyLast(y);
      UniqueLast(Key(x[..n]), Key(y[..n]), ',', LabelText(x[n]), LabelText(y[n]));
      assert LabelText(x[n])[|x[n].name| + 1..] == x[n].value && LabelText(y[n])[|y[n].name| + 1..] == y[n].value;
      KeysInjective(x[..n], y[..n]);
      assert x == x[..n] + [x[n]] && y == y[..n] + [y[n]];
    }
  }
}
