/** The order in which the controller drives the services of one phase,
    and the pure parts of its other steps: host enrollment and the
    host-inspection poll. */
module Plan {
  import opened Outcomes
  import opened Names
  import opened Topology
  import opened ControlPlane
  import Retry
  import Services

  /** The services started first, before the rest are configured. */
  const BaseServices: seq<string> := ["Zookeeper", "Hdfs", "Yarn"]

  /** The services configured once the base services run. */
  const AdditionalServices: seq<string> := ["Spark_On_Yarn", "Hbase", "Hive", "Impala", "Flume", "Oozie", "Sqoop"]

  /** The names of the listed services that have an entry, under their
      upper-cased name, in the description, in list order. */
  function Configured(services: seq<string>, cfg: map<string, ServiceConfig>): (c: seq<string>)
    ensures |c| <= |services|
    decreases |services|
  {
    if services == [] then [] else
      var last := services[|services| - 1];
      Configured(services[..|services| - 1], cfg) + (if Upper(last) in cfg then [Upper(last)] else [])
  }

  /** A name is configured exactly when the description has an entry
      under it and some listed service upper-cases to it. */
  lemma {:induction false} ConfiguredMembers(services: seq<string>, cfg: map<string, ServiceConfig>)
    ensures forall n :: n in Configured(services, cfg) <==> n in cfg && exists s :: s in services && Upper(s) == n
    decreases |services|
  {
    if services != [] {
      var prefix, last := services[..|services| - 1], services[|services| - 1];
      ConfiguredMembers(prefix, cfg);
      assert services == prefix + [last];
    }
  }

  /** Scanning one more entry of the list. */
  lemma ConfiguredStep(services: seq<string>, i: nat, cfg: map<string, ServiceConfig>)
    requires i < |services|
    ensures Configured(services[..i + 1], cfg) ==
      Configured(services[..i], cfg) + (if Upper(services[i]) in cfg then [Upper(services[i])] else [])
  {
    assert services[..i + 1][..i] == services[..i];
  }

  /** Deploy and pre-start of each service, in order. */
  function DeployPart(names: seq<string>): (d: seq<Event>)
    ensures |d| == 2 * |names|
    decreases |names|
  {
    if names == [] then []
    else DeployPart(names[..|names| - 1]) + [Deployed(names[|names| - 1]), PreStarted(names[|names| - 1])]
  }

  /** Post-start of each service, in order. */
  function PostPart(names: seq<string>): (p: seq<Event>)
    ensures |p| == |names|
    decreases |names|
  {
    if names == [] then [] else PostPart(names[..|names| - 1]) + [PostStarted(names[|names| - 1])]
  }

  function StopPart(stop: bool): seq<Event> {
    if stop then [ClusterStopped] else []
  }

  lemma StopMarkers(stop: bool)
    ensures Markers(StopPart(stop)) == StopPart(stop)
  {
    if stop {
      MarkersOne(ClusterStopped);
    } else {
      assert StopPart(stop) == [];
    }
  }

  /** The protocol steps of `service_orchestrate(services, stop)` for the
      configured services `names`. */
  function PhasePlan(names: seq<string>, stop: bool): seq<Event> {
    DeployPart(names) + StopPart(stop) + [ClusterStarted] + PostPart(names)
  }

  lemma {:induction false} DeployPartLayout(names: seq<string>)
    ensures |DeployPart(names)| == 2 * |names|
    ensures forall i :: 0 <= i < |names| ==>
      DeployPart(names)[2 * i] == Deployed(names[i]) && DeployPart(names)[2 * i + 1] == PreStarted(names[i])
    decreases |names|
  {
    if names != [] {
      DeployPartLayout(names[..|names| - 1]);
    }
  }

  lemma {:induction false} PostPartLayout(names: seq<string>)
    ensures |PostPart(names)| == |names|
    ensures forall i :: 0 <= i < |names| ==> PostPart(names)[i] == PostStarted(names[i])
    decreases |names|
  {
    if names != [] {
      PostPartLayout(names[..|names| - 1]);
    }
  }

  /** Where each part of a phase sits: the deploys and pre-starts first
      (`DeployPartLayout` places them), then the stop when asked for, then
      the start, then the post-starts (`PostPartLayout`). */
  lemma PhasePlanLayout(names: seq<string>, stop: bool)
    ensures var s := |StopPart(stop)|; var p := PhasePlan(names, stop);
      |p| == 3 * |names| + s + 1 &&
      p[..2 * |names|] == DeployPart(names) &&
      p[2 * |names|..2 * |names| + s] == StopPart(stop) &&
      p[2 * |names| + s] == ClusterStarted &&
      p[2 * |names| + s + 1..] == PostPart(names)
  {
    var d := DeployPart(names);
    var sp := StopPart(stop);
    var p := PhasePlan(names, stop);
    assert (d + sp + [ClusterStarted])[..|d|] == d;
  }

  /** A phase stops the cluster exactly when asked to, and always starts
      it. */
  lemma PhasePlanStops(names: seq<string>, stop: bool)
    ensures ClusterStopped in PhasePlan(names, stop) <==> stop
    ensures ClusterStarted in PhasePlan(names, stop)
  {
    DeployPartSteps(names);
    PostPartSteps(names);
    var p := PhasePlan(names, stop);
    assert p == DeployPart(names) + StopPart(stop) + [ClusterStarted] + PostPart(names);
    assert ClusterStarted in [ClusterStarted];
  }

  lemma {:induction false} DeployPartSteps(names: seq<string>)
    ensures forall e :: e in DeployPart(names) ==> e.Deployed? || e.PreStarted?
    decreases |names|
  {
    if names != [] {
      DeployPartSteps(names[..|names| - 1]);
    }
  }

  lemma {:induction false} PostPartSteps(names: seq<string>)
    ensures forall e :: e in PostPart(names) ==> e.PostStarted?
    decreases |names|
  {
    if names != [] {
      PostPartSteps(names[..|names| - 1]);
    }
  }

  /** The two phases of `setup` keep apart: the base phase's plan, which
      stops the cluster, is complete before the first step of the additional
      phase, which does not stop it. */
  lemma PhasesSeparate(base: seq<string>, additional: seq<string>)
    ensures var run := PhasePlan(base, true) + PhasePlan(additional, false);
      var b := 3 * |base| + 2;
      |run| == b + 3 * |additional| + 1 &&
      run[..b] == PhasePlan(base, true) && ClusterStopped in run[..b] &&
      run[b..] == PhasePlan(additional, false) && ClusterStopped !in run[b..]
  {
    PhasePlanLayout(base, true);
    PhasePlanLayout(additional, false);
    PhasePlanStops(base, true);
    PhasePlanStops(additional, false);
    var run := PhasePlan(base, true) + PhasePlan(additional, false);
    assert run[..|PhasePlan(base, true)|] == PhasePlan(base, true);
    assert run[|PhasePlan(base, true)|..] == PhasePlan(additional, false);
  }

  /** What deploying and pre-starting a service of kind `k` appends to the
      log: the deploy, the pre-start commands, the pre-start. */
  function DeployTrace(k: Services.Kind, succeeded: string -> bool): seq<Event> {
    var n := Services.ServiceName(k);
    [Deployed(n)] + Services.CommandEvents(n, Services.PreStartCommands(k, n), succeeded) + [PreStarted(n)]
  }

  /** What post-starting a service of kind `k` appends to the log. */
  function PostTrace(k: Services.Kind, succeeded: string -> bool): seq<Event> {
    var n := Services.ServiceName(k);
    Services.CommandEvents(n, Services.PostStartCommands(k), succeeded) + [PostStarted(n)]
  }

  function DeployTraces(kinds: seq<Services.Kind>, succeeded: string -> bool): seq<Event>
    decreases |kinds|
  {
    if kinds == [] then [] else DeployTraces(kinds[..|kinds| - 1], succeeded) + DeployTrace(kinds[|kinds| - 1], succeeded)
  }

  function PostTraces(kinds: seq<Services.Kind>, succeeded: string -> bool): seq<Event>
    decreases |kinds|
  {
    if kinds == [] then [] else PostTraces(kinds[..|kinds| - 1], succeeded) + PostTrace(kinds[|kinds| - 1], succeeded)
  }

  /** What `service_orchestrate` appends to the log for services of
      `kinds`. */
  function PhaseTrace(kinds: seq<Services.Kind>, stop: bool, succeeded: string -> bool): seq<Event> {
    DeployTraces(kinds, succeeded) + StopPart(stop) + [ClusterStarted] + PostTraces(kinds, succeeded)
  }

  /** What a successful `deploy_mgmt_services` appends to the log: the
      start of the management service unless it was running already. */
  function MgmtTrace(mgmtRunning: bool): seq<Event> {
    if mgmtRunning then [] else [MgmtStarted]
  }

  /** What a successful `setup` appends to the log after the parcel and
      inspection steps (which log nothing). */
  function SetupTrace(mgmtRunning: bool, base: seq<Services.Kind>, additional: seq<Services.Kind>,
                      succeeded: string -> bool): seq<Event> {
    MgmtTrace(mgmtRunning) +
    PhaseTrace(base, true, succeeded) + PhaseTrace(additional, false, succeeded) + [ClientConfigDeployed]
  }

  function ServiceNames(kinds: seq<Services.Kind>): (names: seq<string>)
    ensures |names| == |kinds| && forall i :: 0 <= i < |kinds| ==> names[i] == Services.ServiceName(kinds[i])
  {
    seq(|kinds|, i requires 0 <= i < |kinds| => Services.ServiceName(kinds[i]))
  }

  /** The kinds of the listed services the description configures, in list
      order (names without a service class are skipped). */
  function ConfiguredKinds(services: seq<string>, cfg: map<string, ServiceConfig>): seq<Services.Kind>
    decreases |services|
  {
    if services == [] then [] else
      var last := services[|services| - 1];
      ConfiguredKinds(services[..|services| - 1], cfg) +
        (if Upper(last) in cfg && Services.KindNamed(last).Some? then [Services.KindNamed(last).value] else [])
  }

  /** Every configured entry of the list names a service class. */
  predicate ClassesKnown(services: seq<string>, cfg: map<string, ServiceConfig>) {
    forall s :: s in services && Upper(s) in cfg ==> Services.KindNamed(s).Some?
  }

  lemma ConfiguredKindsStep(services: seq<string>, i: nat, cfg: map<string, ServiceConfig>)
    requires i < |services|
    ensures ConfiguredKinds(services[..i + 1], cfg) == ConfiguredKinds(services[..i], cfg) +
      (if Upper(services[i]) in cfg && Services.KindNamed(services[i]).Some? then [Services.KindNamed(services[i]).value] else [])
  {
    assert services[..i + 1][..i] == services[..i];
  }

  /** When every configured entry names a class, the kinds found are
      exactly the configured services, by name and in order. */
  lemma {:induction false} ConfiguredNames(services: seq<string>, cfg: map<string, ServiceConfig>)
    requires ClassesKnown(services, cfg)
    ensures ServiceNames(ConfiguredKinds(services, cfg)) == Configured(services, cfg)
    decreases |services|
  {
    if services != [] {
      var prefix := services[..|services| - 1];
      var last := services[|services| - 1];
      assert ClassesKnown(prefix, cfg);
      ConfiguredNames(prefix, cfg);
      if Upper(last) in cfg {
        assert last in services;
        assert Services.ServiceName(Services.KindNamed(last).value) == Upper(last);
        assert ServiceNames(ConfiguredKinds(prefix, cfg) + [Services.KindNamed(last).value]) ==
          ServiceNames(ConfiguredKinds(prefix, cfg)) + [Upper(last)];
      }
    }
  }

  /** Deploying and pre-starting a service of kind `k` extends a log by
      its deploy trace. */
  lemma DeployTraceAppended(log: seq<Event>, k: Services.Kind, succeeded: string -> bool)
    ensures var n := Services.ServiceName(k);
      log + [Deployed(n)] + Services.CommandEvents(n, Services.PreStartCommands(k, n), succeeded) + [PreStarted(n)] ==
      log + DeployTrace(k, succeeded)
  {
    var n := Services.ServiceName(k);
    var ce := Services.CommandEvents(n, Services.PreStartCommands(k, n), succeeded);
    LogGrows(log, log + [Deployed(n)], log + [Deployed(n)] + ce, [Deployed(n)], ce);
    LogGrows(log, log + [Deployed(n)] + ce, log + [Deployed(n)] + ce + [PreStarted(n)], [Deployed(n)] + ce, [PreStarted(n)]);
  }

  /** Post-starting a service of kind `k` extends a log by its post-start
      trace. */
  lemma PostTraceAppended(log: seq<Event>, k: Services.Kind, succeeded: string -> bool)
    ensures var n := Services.ServiceName(k);
      log + Services.CommandEvents(n, Services.PostStartCommands(k), succeeded) + [PostStarted(n)] ==
      log + PostTrace(k, succeeded)
  {
    var n := Services.ServiceName(k);
    var ce := Services.CommandEvents(n, Services.PostStartCommands(k), succeeded);
    LogGrows(log, log + ce, log + ce + [PostStarted(n)], ce, [PostStarted(n)]);
  }

  /** Configured entries known so far, and the next one if configured, make
      the longer prefix's entries known. */
  lemma ClassesKnownStep(services: seq<string>, i: nat, cfg: map<string, ServiceConfig>)
    requires i < |services| && ClassesKnown(services[..i], cfg)
    requires Upper(services[i]) in cfg ==> Services.KindNamed(services[i]).Some?
    ensures ClassesKnown(services[..i + 1], cfg)
  {
    assert services[..i + 1] == services[..i] + [services[i]];
  }

  lemma DeployTracesSnoc(kinds: seq<Services.Kind>, k: Services.Kind, succeeded: string -> bool)
    ensures DeployTraces(kinds + [k], succeeded) == DeployTraces(kinds, succeeded) + DeployTrace(k, succeeded)
  {
    assert (kinds + [k])[..|kinds|] == kinds;
  }

  lemma PostTracesSnoc(kinds: seq<Services.Kind>, k: Services.Kind, succeeded: string -> bool)
    ensures PostTraces(kinds + [k], succeeded) == PostTraces(kinds, succeeded) + PostTrace(k, succeeded)
  {
    assert (kinds + [k])[..|kinds|] == kinds;
  }

  /** One more post-start pass extends the phase's log by that service's
      trace. */
  lemma PostLogStep(start: seq<Event>, mid: seq<Event>, end: seq<Event>, kinds: seq<Services.Kind>, k: nat,
                    succeeded: string -> bool)
    requires k < |kinds|
    requires mid == start + PostTraces(kinds[..k], succeeded) && end == mid + PostTrace(kinds[k], succeeded)
    ensures end == start + PostTraces(kinds[..k + 1], succeeded)
  {
    PrefixSnoc(kinds, k);
    PostTracesSnoc(kinds[..k], kinds[k], succeeded);
    LogGrows(start, mid, end, PostTraces(kinds[..k], succeeded), PostTrace(kinds[k], succeeded));
  }

  /** Bootstrap commands are not protocol steps: a deploy trace shows just
      the deploy and the pre-start. */
  lemma DeployTraceMarkers(k: Services.Kind, succeeded: string -> bool)
    ensures Markers(DeployTrace(k, succeeded)) == [Deployed(Services.ServiceName(k)), PreStarted(Services.ServiceName(k))]
  {
    var n := Services.ServiceName(k);
    BracketedMarkers(n, Services.PreStartCommands(k, n), succeeded);
  }

  lemma BracketedMarkers(n: string, cmds: seq<Services.Command>, succeeded: string -> bool)
    ensures Markers([Deployed(n)] + Services.CommandEvents(n, cmds, succeeded) + [PreStarted(n)]) == [Deployed(n), PreStarted(n)]
  {
    var events := Services.CommandEvents(n, cmds, succeeded);
    Services.CommandEventsHaveNoMarkers(n, cmds, succeeded);
    MarkersAppend([Deployed(n)] + events, [PreStarted(n)]);
    MarkersAppend([Deployed(n)], events);
    MarkersOne(Deployed(n));
    MarkersOne(PreStarted(n));
  }

  lemma PostTraceMarkers(k: Services.Kind, succeeded: string -> bool)
    ensures Markers(PostTrace(k, succeeded)) == [PostStarted(Services.ServiceName(k))]
  {
    var n := Services.ServiceName(k);
    TrailedMarkers(n, Services.PostStartCommands(k), succeeded);
  }

  lemma TrailedMarkers(n: string, cmds: seq<Services.Command>, succeeded: string -> bool)
    ensures Markers(Services.CommandEvents(n, cmds, succeeded) + [PostStarted(n)]) == [PostStarted(n)]
  {
    var events := Services.CommandEvents(n, cmds, succeeded);
    Services.CommandEventsHaveNoMarkers(n, cmds, succeeded);
    MarkersAppend(events, [PostStarted(n)]);
    MarkersOne(PostStarted(n));
  }

  lemma {:induction false} DeployTracesMarkers(kinds: seq<Services.Kind>, succeeded: string -> bool)
    ensures Markers(DeployTraces(kinds, succeeded)) == DeployPart(ServiceNames(kinds))
    decreases |kinds|
  {
    if kinds != [] {
      var prefix := kinds[..|kinds| - 1];
      var k := kinds[|kinds| - 1];
      DeployTracesMarkers(prefix, succeeded);
      MarkersAppend(DeployTraces(prefix, succeeded), DeployTrace(k, succeeded));
      DeployTraceMarkers(k, succeeded);
      assert ServiceNames(kinds)[..|kinds| - 1] == ServiceNames(prefix);
    }
  }

  lemma {:induction false} PostTracesMarkers(kinds: seq<Services.Kind>, succeeded: string -> bool)
    ensures Markers(PostTraces(kinds, succeeded)) == PostPart(ServiceNames(kinds))
    decreases |kinds|
  {
    if kinds != [] {
      var prefix := kinds[..|kinds| - 1];
      var k := kinds[|kinds| - 1];
      PostTracesMarkers(prefix, succeeded);
      MarkersAppend(PostTraces(prefix, succeeded), PostTrace(k, succeeded));
      PostTraceMarkers(k, succeeded);
      assert ServiceNames(kinds)[..|kinds| - 1] == ServiceNames(prefix);
    }
  }

  /** The protocol steps of a phase's log are the phase plan: bootstrap
      commands aside, the log of `service_orchestrate` follows it. */
  lemma PhaseTraceMarkers(kinds: seq<Services.Kind>, stop: bool, succeeded: string -> bool)
    ensures Markers(PhaseTrace(kinds, stop, succeeded)) == PhasePlan(ServiceNames(kinds), stop)
  {
    var d := DeployTraces(kinds, succeeded);
    var p := PostTraces(kinds, succeeded);
    var sp := StopPart(stop);
    DeployTracesMarkers(kinds, succeeded);
    PostTracesMarkers(kinds, succeeded);
    StopMarkers(stop);
    MarkersOne(ClusterStarted);
    MarkersAppend(d + sp + [ClusterStarted], p);
    MarkersAppend(d + sp, [ClusterStarted]);
    MarkersAppend(d, sp);
  }

  /** Markers of a log made of four pieces, the outer two without any. */
  lemma MarkersFour(m: seq<Event>, b: seq<Event>, a: seq<Event>, e: seq<Event>)
    requires Markers(m) == [] && Markers(e) == []
    ensures Markers(m + b + a + e) == Markers(b) + Markers(a)
  {
    MarkersAppend(m + b + a, e);
    MarkersAppend(m + b, a);
    MarkersAppend(m, b);
    assert Markers(m + b) == Markers(b);
    assert Markers(m + b + a + e) == Markers(m + b + a);
  }

  /** The protocol steps of a whole `setup`: the base phase's plan, then
      the additional phase's. */
  lemma SetupTraceMarkers(mgmtRunning: bool, base: seq<Services.Kind>, additional: seq<Services.Kind>,
                          succeeded: string -> bool)
    ensures Markers(SetupTrace(mgmtRunning, base, additional, succeeded)) ==
      PhasePlan(ServiceNames(base), true) + PhasePlan(ServiceNames(additional), false)
  {
    var m := MgmtTrace(mgmtRunning);
    var e: seq<Event> := [ClientConfigDeployed];
    var b := PhaseTrace(base, true, succeeded);
    var a := PhaseTrace(additional, false, succeeded);
    MarkersOne(ClientConfigDeployed);
    if !mgmtRunning {
      MarkersOne(MgmtStarted);
    }
    MarkersFour(m, b, a, e);
    PhaseTraceMarkers(base, true, succeeded);
    PhaseTraceMarkers(additional, false, succeeded);
  }

  /** The protocol steps of a successful `setup` are the base plan over
      the configured base services with the cluster stopped, then the
      additional plan without the stop: both lists name service classes
      only, so every configured entry is deployed. */
  lemma SetupPlan(mgmtRunning: bool, cfg: map<string, ServiceConfig>, succeeded: string -> bool)
    ensures Markers(SetupTrace(mgmtRunning, ConfiguredKinds(BaseServices, cfg), ConfiguredKinds(AdditionalServices, cfg), succeeded)) ==
      PhasePlan(Configured(BaseServices, cfg), true) + PhasePlan(Configured(AdditionalServices, cfg), false)
  {
    assert ClassesKnown(BaseServices, cfg);
    assert ClassesKnown(AdditionalServices, cfg);
    ConfiguredNames(BaseServices, cfg);
    ConfiguredNames(AdditionalServices, cfg);
    SetupTraceMarkers(mgmtRunning, ConfiguredKinds(BaseServices, cfg), ConfiguredKinds(AdditionalServices, cfg), succeeded);
  }

  /** A log that a successful `setup` extends, read as protocol steps: the
      steps before it, then the two phase plans. */
  lemma SetupLogPlan(start: seq<Event>, log: seq<Event>, mgmtRunning: bool, cfg: map<string, ServiceConfig>,
                     succeeded: string -> bool)
    requires log == start +
      SetupTrace(mgmtRunning, ConfiguredKinds(BaseServices, cfg), ConfiguredKinds(AdditionalServices, cfg), succeeded)
    ensures Markers(log) == Markers(start) +
      PhasePlan(Configured(BaseServices, cfg), true) + PhasePlan(Configured(AdditionalServices, cfg), false)
  {
    SetupPlan(mgmtRunning, cfg, succeeded);
    MarkersExtend(start, log,
      SetupTrace(mgmtRunning, ConfiguredKinds(BaseServices, cfg), ConfiguredKinds(AdditionalServices, cfg), succeeded),
      PhasePlan(Configured(BaseServices, cfg), true), PhasePlan(Configured(AdditionalServices, cfg), false));
  }

  /** A log extended by a trace whose steps are `p` then `q` shows its
      earlier steps, then `p`, then `q`. */
  lemma MarkersExtend(start: seq<Event>, log: seq<Event>, trace: seq<Event>, p: seq<Event>, q: seq<Event>)
    requires log == start + trace && Markers(trace) == p + q
    ensures Markers(log) == Markers(start) + p + q
  {
    MarkersAppend(start, trace);
    assert Markers(start) + (p + q) == Markers(start) + p + q;
  }

  /** The hosts of the description not yet enrolled, in description order. */
  function Missing(wanted: seq<string>, enrolled: seq<string>): (m: seq<string>)
    ensures |m| <= |wanted|
    ensures forall h :: h in m ==> h in wanted && h !in enrolled
    decreases |wanted|
  {
    if wanted == [] then [] else
      var last := wanted[|wanted| - 1];
      Missing(wanted[..|wanted| - 1], enrolled) + (if last in enrolled then [] else [last])
  }

  /** A host is added exactly when the description lists it and it is not
      enrolled yet. */
  lemma {:induction false} MissingMembers(wanted: seq<string>, enrolled: seq<string>)
    ensures forall h :: h in Missing(wanted, enrolled) <==> h in wanted && h !in enrolled
    decreases |wanted|
  {
    if wanted != [] {
      MissingMembers(wanted[..|wanted| - 1], enrolled);
      assert wanted == wanted[..|wanted| - 1] + [wanted[|wanted| - 1]];
    }
  }

  /** The difference keeps the description's order: the hosts of a prefix
      of the list come before those of the rest. */
  lemma {:induction false} MissingSplits(a: seq<string>, b: seq<string>, enrolled: seq<string>)
    ensures Missing(a + b, enrolled) == Missing(a, enrolled) + Missing(b, enrolled)
    decreases |b|
  {
    if b == [] {
      assert a + b == a;
    } else {
      assert (a + b)[..|a + b| - 1] == a + b[..|b| - 1];
      MissingSplits(a, b[..|b| - 1], enrolled);
    }
  }

  /** After the add every listed host is enrolled, and a second enrollment
      from the same description adds nothing. */
  lemma EnrollmentIdempotent(wanted: seq<string>, enrolled: seq<string>)
    ensures forall h :: h in wanted ==> h in enrolled + Missing(wanted, enrolled)
    ensures Missing(wanted, enrolled + Missing(wanted, enrolled)) == []
  {
    MissingMembers(wanted, enrolled);
    var after := enrolled + Missing(wanted, enrolled);
    MissingMembers(wanted, after);
    if Missing(wanted, after) != [] {
      var h := Missing(wanted, after)[0];
      assert h in wanted && h !in after;
    }
  }

  /** One fetch of the host-inspection command in `wait_inspect_hosts`: no
      outcome yet is `ApiException` (wait and poll again), a failed check
      ends the run, a passed one completes. */
  function InspectStep(fetched: Outcome<Option<bool>>): (o: Outcome<()>)
    ensures fetched == Ok(None) ==> Retry.Transient(o)
    ensures fetched == Ok(Some(false)) ==> o == Raise(Fatal(["Host inspection failed"]))
    ensures fetched == Ok(Some(true)) ==> o == Ok(())
    ensures fetched.Raise? ==> o == Raise(fetched.exc)
  {
    match fetched
    case Raise(e) => Raise(e)
    case Ok(None) => Raise(ApiError("Waiting on command to finish"))
    case Ok(Some(success)) => if success then Ok(()) else Raise(Fatal(["Host inspection failed"]))
  }

  /** `wait_inspect_hosts` with its `retry(attempts=20, delay=5)`: at least
      one and at most twenty fetches, a sleep between two of them, and
      always an outcome. */
  function WaitInspect(fetches: nat -> Outcome<Option<bool>>): (run: Retry.Run<()>)
    ensures 1 <= run.calls <= 20 && run.sleeps == run.calls - 1
    ensures !run.result.NoneReturned?
  {
    Retry.RetryBounds(InspectCall(fetches), 20);
    Retry.Retry(InspectCall(fetches), 20)
  }

  /** The call that `wait_inspect_hosts` retries, on its `i`-th attempt. */
  function InspectCall(fetches: nat -> Outcome<Option<bool>>): nat -> Outcome<()> {
    (i: nat) => InspectStep(fetches(i))
  }

  /** The first definite outcome decides: a pass completes and a failure is
      fatal, after as many polls as it took to appear. */
  lemma InspectionSettles(fetches: nat -> Outcome<Option<bool>>, j: nat, success: bool)
    requires j < 20
    requires forall i :: 0 <= i < j ==> fetches(i) == Ok(None)
    requires fetches(j) == Ok(Some(success))
    ensures WaitInspect(fetches).calls == j + 1 && WaitInspect(fetches).sleeps == j
    ensures success ==> WaitInspect(fetches).result == Retry.Returned(())
    ensures !success ==> WaitInspect(fetches).result == Retry.Raised(Fatal(["Host inspection failed"]))
  {
    var call := InspectCall(fetches);
    forall i | 0 <= i < j ensures Retry.Transient(call(i)) {
    }
    Retry.RetrySettles(call, 20, j);
  }

  /** A check still running after twenty polls ends the run with the
      waiting `ApiException`. */
  lemma InspectionTimesOut(fetches: nat -> Outcome<Option<bool>>)
    requires forall i :: 0 <= i < 20 ==> fetches(i) == Ok(None)
    ensures WaitInspect(fetches) == Retry.Run(Retry.Raised(ApiError("Waiting on command to finish")), 20, 19)
  {
    var call := InspectCall(fetches);
    forall i | 0 <= i < 20 ensures Retry.Transient(call(i)) {
    }
    Retry.RetryExhausted(call, 20);
  }
}
