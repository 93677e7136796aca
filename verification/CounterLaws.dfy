/** Where a collector call lands: the key it is counted under, as text and read back, and what else it touches. */
module CounterLaws {
  import opened Text
  import opened Labels
  import opened Metrics

  // ---------------------------------------------------------------- keys as texts

  /** The key of an outcome, with the texts that stand in for empty values. */
  lemma ServedText(h: string, b: string, r: string)
    ensures var host := if h == "" then "unknown" else h;
            var backend := if b == "" then "none" else b;
            var result := if r == "" then "unknown" else r;
            ServedKey(h, b, r) == "host=" + host + ",backend=" + backend + ",result=" + result
  {
    ThreeLabels(Or(h, "unknown"), Or(b, "none"), Or(r, "unknown"));
  }

  lemma ThreeLabels(h: string, b: string, r: string)
    ensures HostBackendResult(h, b, r) == "host=" + h + ",backend=" + b + ",result=" + r
  {
    hide Key, LabelText;
    KeyOfThree(Label("host", h), Label("backend", b), Label("result", r));
    var tail := ",result=" + r;
    assert "," + ("result" + "=" + r) == tail;
    assert "," + ("backend" + "=" + b + tail) == ",backend=" + b + tail;
  }

  lemma KeyOfThree(x: Label, y: Label, z: Label)
    ensures Key([x, y, z]) ==
            x.name + "=" + x.value + ("," + (y.name + "=" + y.value + ("," + (z.name + "=" + z.value))))
  {
    assert [x, y, z][1..] == [y, z] && [y, z][1..] == [z];
    assert Key([y, z]) == LabelText(y) + "," + Key([z]);
    assert Key([x, y, z]) == LabelText(x) + "," + Key([y, z]);
  }

  lemma FailureText(h: string, reason: string)
    ensures HostReason(h, reason) == "host=" + h + ",reason=" + reason
  {
    var l0, l1 := Label("host", h), Label("reason", reason);
    assert [l0, l1][1..] == [l1];
    assert Key([l0, l1]) == LabelText(l0) + "," + LabelText(l1);
  }

  // ---------------------------------------------------------------- keys read back

  /** Reading an outcome's key gives host, backend and result back under their own names. */
  lemma ServedKeyReads(h: string, b: string, r: string)
    requires h != "" && b != "" && r != "" && Clean(h) && Clean(b) && Clean(r)
    ensures AddParts(map[], Split(ServedKey(h, b, r), ',')) == map["host" := h, "backend" := b, "result" := r]
  {
    hide AddParts, Split, Key;
    var labels := [Label("host", h), Label("backend", b), Label("result", r)];
    CodecIff(labels);
    MapOf(labels);
  }

  /** The labels of a key, as a map. */
  lemma MapOf(labels: seq<Label>)
    requires 2 <= |labels| <= 3
    ensures var l, m := labels, map[labels[0].name := labels[0].value];
            LabelMap(map[], l) ==
              if |l| == 2 then m[l[1].name := l[1].value] else m[l[1].name := l[1].value][l[2].name := l[2].value]
  {
    var m0 := map[labels[0].name := labels[0].value];
    var m1 := m0[labels[1].name := labels[1].value];
    assert map[][labels[0].name := labels[0].value] == m0;
    assert LabelMap(map[], labels) == LabelMap(m0, labels[1..]) == LabelMap(m1, labels[1..][1..]);
    assert labels[1..][1..] == labels[2..];
    if |labels| == 2 {
      assert LabelMap(m1, []) == m1;
    } else {
      var m2 := m1[labels[2].name := labels[2].value];
      assert LabelMap(m1, labels[2..]) == LabelMap(m2, labels[2..][1..]);
      assert LabelMap(m2, []) == m2;
    }
  }

  /** Reading a failure's key gives host and reason back under their own names. */
  lemma FailureKeyReads(h: string, reason: string)
    requires Clean(h) && Clean(reason)
    ensures AddParts(map[], Split(HostReason(h, reason), ',')) == map["host" := h, "reason" := reason]
  {
    hide AddParts, Split, Key;
    var labels := [Label("host", h), Label("reason", reason)];
    CodecIff(labels);
    MapOf(labels);
  }

  // ---------------------------------------------------------------- what a call touches

  /**
   * A collector call adds one to the counter of its own kind and labels (a closed connection takes one off the
   * gauge), and nothing to any other counter of any label.
   */
  lemma CallLands(c: Counters, e: Metric)
    ensures var d := Record(c, e);
            && d.total == c.total + One(e.Accepted?)
            && d.active == c.active + One(e.Opened?) - One(e.Closed?)
            && d.handshakes == c.handshakes + One(e.Greeted?)
            && d.dials == c.dials + One(e.Dialled?)
            && d.sessions == c.sessions + One(e.SessionOver?)
            && (forall s :: Get(d.tcp, s) == Get(c.tcp, s) + One(e == TcpState(s)))
            && (forall s :: Get(d.errors, s) == Get(c.errors, s) + One(e == ConnError(s)))
            && (forall a :: Get(d.requests, a) == Get(c.requests, a) + One(e == RequestSeen(a)))
            && (forall k :: Get(d.byBackend, k) ==
                 Get(c.byBackend, k) + One(e.Served? && k == ServedKey(e.host, e.backend, e.result)))
            && (forall k :: Get(d.routeFailures, k) ==
                 Get(c.routeFailures, k) + One(e.RouteFailure? && k == HostReason(e.host, e.reason)))
            && (forall k :: Get(d.dialFailures, k) ==
                 Get(c.dialFailures, k) + One(e.DialFailure? && k == HostReason(e.host, e.reason)))
  {
    hide ServedKey, HostReason;
  }
}
