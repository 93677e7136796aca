/** What each step of a reload changes, field by field, and which error a reload fails with. */
module ReloadDecisions {
  import opened Text
  import opened Hosts
  import opened Addresses
  import opened Router
  import opened RouterLaws
  import opened Config
  import opened ConfigLaws
  import opened Health
  import opened Reload
  import opened ReloadLaws

  // ---------------------------------------------------------------- fields

  /** What a reload leaves of the running configuration, and what it takes over. */
  lemma AppliedFields(current: RuntimeConfig, next: RuntimeConfig)
    ensures var rc := Merge(Fixed(current), Changeable(next));
            && rc.listenAddr == current.listenAddr && rc.metricsListenAddr == current.metricsListenAddr
            && rc.metricsEnabled == current.metricsEnabled
            && rc.maxConnections == current.maxConnections && rc.maxInflightDials == current.maxInflightDials
            && rc.dialTimeout == current.dialTimeout && rc.readTimeout == current.readTimeout
            && rc.writeTimeout == current.writeTimeout && rc.idleTimeout == current.idleTimeout
            && rc.tcpKeepAlive == current.tcpKeepAlive
            && rc.autoDiscoveryEnabled == next.autoDiscoveryEnabled && rc.shutdownGrace == next.shutdownGrace
            && rc.routes == next.routes && rc.backendGroups == next.backendGroups && rc.hostToGroup == next.hostToGroup
  {
  }

  /** Nothing is held back silently: the applied value of a restart-only field is the new one unless it is warned of. */
  lemma WarnedOrApplied(warnings: seq<Field>, current: RuntimeConfig, next: RuntimeConfig)
    requires WarnsOf(warnings, 10, current, next)
    ensures Merge(Fixed(current), Changeable(next)) == next <==> warnings == []
    ensures && (ListenAddr in warnings <==> current.listenAddr != next.listenAddr)
            && (MetricsListenAddr in warnings <==> current.metricsListenAddr != next.metricsListenAddr)
            && (Field.MetricsEnabled in warnings <==> current.metricsEnabled != next.metricsEnabled)
            && (MaxConnections in warnings <==> current.maxConnections != next.maxConnections)
            && (MaxInflightDials in warnings <==> current.maxInflightDials != next.maxInflightDials)
            && (DialTimeout in warnings <==> current.dialTimeout != next.dialTimeout)
            && (ReadTimeout in warnings <==> current.readTimeout != next.readTimeout)
            && (WriteTimeout in warnings <==> current.writeTimeout != next.writeTimeout)
            && (IdleTimeout in warnings <==> current.idleTimeout != next.idleTimeout)
            && (TCPKeepAlive in warnings <==> current.tcpKeepAlive != next.tcpKeepAlive)
  {
    hide Merge, Fixed, Changeable;
    if warnings != [] {
      assert warnings[0] in warnings;
      SomeFieldDiffers(warnings[0], current, next);
    } else {
      assert forall f :: Rank(f) < 10;
      assert forall f :: !Differs(f, current, next);
      NoFieldDiffers(current, next);
    }
  }

  lemma NoFieldDiffers(current: RuntimeConfig, next: RuntimeConfig)
    requires forall f :: !Differs(f, current, next)
    ensures Merge(Fixed(current), Changeable(next)) == next
  {
    assert !Differs(ListenAddr, current, next) && !Differs(MetricsListenAddr, current, next);
    assert !Differs(Field.MetricsEnabled, current, next) && !Differs(MaxConnections, current, next);
    assert !Differs(MaxInflightDials, current, next) && !Differs(DialTimeout, current, next);
    assert !Differs(ReadTimeout, current, next) && !Differs(WriteTimeout, current, next);
    assert !Differs(IdleTimeout, current, next) && !Differs(TCPKeepAlive, current, next);
  }

  lemma SomeFieldDiffers(f: Field, current: RuntimeConfig, next: RuntimeConfig)
    ensures Differs(f, current, next) ==> Merge(Fixed(current), Changeable(next)) != next
  {
    AppliedFields(current, next);
    hide Merge;
  }

  // ---------------------------------------------------------------- errors

  /** Which error a reload fails with. */
  lemma ReloadFailsWith(resolve: Resolver, read: Option<ConfigV>, v: Visits)
    requires AllFair(v)
    ensures var r := TargetSpec(resolve, read, v);
            && (r == Err(Unreadable) <==> read.None?)
            && (r.Err? && r.error.ConfigError? <==> read.Some? && !Loadable(resolve, read.value))
            && (r == Err(RouterInit) <==>
                  && read.Some? && Loadable(resolve, read.value)
                  && exists h :: h in read.value.routes && NormalizeHost(NormalizeHost(h)) == [])
  {
    if read.Some? {
      ReloadSucceedsIff(resolve, read.value, v);
      FileFailsWith(resolve, read.value, v);
    }
    hide Loadable, NormalizeHost, TargetSpec;
  }

  lemma FileFailsWith(resolve: Resolver, file: ConfigV, v: Visits)
    requires AllFair(v)
    ensures var r := TargetSpec(resolve, Some(file), v);
            r.Err? ==> if Loadable(resolve, file) then r.error == RouterInit else r.error.ConfigError?
  {
    hide Fair, Loadable, Compile, Enumerates, Build, Acceptable, Inverse, WorkersOf;
    FairEnumerates(v.groups, file.backends);
    FairEnumerates(v.routes, file.routes);
    LoadsIff(resolve, file, v.groups(file.backends.Keys), v.routes(file.routes.Keys));
  }

  // ---------------------------------------------------------------- steps

  /** A probe's report for one host reaches the router of its own checker, and nothing else changes. */
  lemma ProbeDecides(t0: Target, states: seq<Process>, moves: seq<Move>, k: nat)
    requires IsRun(t0, states, moves) && k < |moves| && moves[k].Probe?
    ensures |states| == |moves| + 1 && Reported(states[k], moves[k], states[k + 1])
  {
    hide *;
    MoveTaken(t0, states, moves, k);
    ProbeStep(states[k], moves[k]);
  }

  ghost predicate Reported(s: Process, m: Move, u: Process)
    requires m.Probe?
  {
    && m.c < |s.checkers| && m.w in s.checkers[m.c].workers && m.host in m.w.hosts
    && var r := s.checkers[m.c].router;
       && r < |s.routers| && RouterOk(s.routers[r])
       && u == s.(routers := s.routers[r := SetAliveSpec(s.routers[r], m.host, m.w.address, m.alive).0])
  }

  lemma ProbeStep(s: Process, m: Move)
    requires WellFormed(s) && Can(s, m) && m.Probe?
    ensures Reported(s, m, Next(s, m))
  {
    hide SetAliveSpec, RouterOk;
  }

  /** A pick reaches the router it was made on, and nothing else changes. */
  lemma ServeDecides(t0: Target, states: seq<Process>, moves: seq<Move>, k: nat)
    requires IsRun(t0, states, moves) && k < |moves| && moves[k].Serve?
    ensures |states| == |moves| + 1 && TookPick(states[k], moves[k], states[k + 1])
  {
    hide *;
    MoveTaken(t0, states, moves, k);
    ServeStep(states[k], moves[k]);
  }

  ghost predicate TookPick(s: Process, m: Move, u: Process)
    requires m.Serve?
  {
    && m.r < |s.routers| && RouterOk(s.routers[m.r])
    && u == s.(routers := s.routers[m.r := PickSpec(s.routers[m.r], m.host).0])
  }

  lemma ServeStep(s: Process, m: Move)
    requires WellFormed(s) && Can(s, m) && m.Serve?
    ensures TookPick(s, m, Next(s, m))
  {
    hide PickSpec, RouterOk;
  }

  /**
   * The event loop's own steps touch no router that exists. Only a successful build adds one, only a swap changes
   * which is installed, only the record changes the configuration, only a launch adds a checker, and a failed build
   * changes nothing.
   */
  lemma LoopDecides(t0: Target, states: seq<Process>, moves: seq<Move>, k: nat)
    requires IsRun(t0, states, moves) && k < |moves| && !moves[k].Probe? && !moves[k].Serve?
    ensures |states| == |moves| + 1 && Looped(states[k], moves[k], states[k + 1])
  {
    hide *;
    MoveTaken(t0, states, moves, k);
    LoopStep(states[k], moves[k]);
  }

  ghost predicate Looped(s: Process, m: Move, u: Process) {
    && |s.routers| <= |u.routers| && u.routers[..|s.routers|] == s.routers
    && (|u.routers| > |s.routers| <==> m.Begin? && m.outcome.Ok?)
    && (u.installed != s.installed ==> m.Swap?)
    && (u.cfg != s.cfg ==> m.Record?)
    && (|u.checkers| > |s.checkers| <==> m.Launch?)
    && (m.Begin? && m.outcome.Err? ==> u == s)
  }

  lemma LoopStep(s: Process, m: Move)
    requires WellFormed(s) && Can(s, m) && !m.Probe? && !m.Serve?
    ensures Looped(s, m, Next(s, m))
  {
    hide RouterOk, Merge, Changeable, Fixed;
  }
}
