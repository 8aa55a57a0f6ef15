/** The cluster controller: `ClouderaManager` creates the cluster and
    enrolls its hosts, installs the parcel, waits for host inspection,
    deploys the management services, then configures and starts the
    services in two phases and deploys the client configuration. */
module Manager {
  import opened Outcomes
  import opened Names
  import opened Topology
  import opened ControlPlane
  import opened Plan
  import Retry
  import Parcels
  import Services

  /** The messages the steps of the controller raise. */
  const MissingMgmt := "KeyError: 'MGMT'"
  const MgmtRolesNone := "TypeError: 'NoneType' object is not iterable"
  const MgmtDown := "[MGMT] Cloudera Management services didn't start up properly"
  const NoCluster := "AttributeError: 'NoneType' object has no attribute 'get_service'"

  function RoleExists(role: string): string {
    "Role " + role + " already exists"
  }

  function NoServiceClass(name: string): string {
    "AttributeError: module has no attribute '" + name + "'"
  }

  /** The groups once `deploy_mgmt_services` has the management service: a
      service it creates comes with its base groups. */
  function ProvisionedGroups(groups: map<string, Config>, mgmt: Option<ServiceInfo>, types: set<string>): map<string, Config> {
    if mgmt.None? then WithGroups(groups, MgmtBaseGroups(types)) else groups
  }

  /** What `create_cluster` does to the clusters: the named cluster is the
      one found, with the listed hosts it lacks added in order, or a new
      one with the description's versions and the listed hosts; no other
      cluster changes. */
  predicate ClusterEnrolled(before: map<string, ClusterInfo>, after: map<string, ClusterInfo>, spec: ClusterSpec) {
    var n := spec.name;
    n in after &&
    (n in before ==> after[n] == before[n].(hosts := before[n].hosts + Missing(spec.hosts, before[n].hosts))) &&
    (n !in before ==> after[n] == ClusterInfo(spec.version, spec.fullVersion, Missing(spec.hosts, []))) &&
    (forall k :: k in before ==> k in after) &&
    (forall k :: k in after && k != n ==> k in before && after[k] == before[k])
  }

  /** The invariant of the second loop of `deploy_mgmt_services` after
      `j` specs, from the groups `groups0`: the first `j` configs are
      merged in order, no setting is lost, only groups of listed types
      change, and each of the first `j` types has its group. */
  ghost predicate MgmtGroupsMerged(specs: seq<RoleSpec>, j: nat, groups0: map<string, Config>, groups: map<string, Config>)
    requires j <= |specs|
  {
    groups == MergedGroups(groups0, "mgmt", specs[..j]) && groups.Keys == groups0.Keys &&
    (forall g :: g in groups0 ==> groups0[g].Keys <= groups[g].Keys) &&
    (forall g :: g in groups0 && groups[g] != groups0[g] ==>
      exists spec :: spec in specs && spec.group.Some? && g == MgmtGroupName(spec.group.value)) &&
    (forall t :: 0 <= t < j ==>
      specs[t].group.Some? && MgmtGroupName(specs[t].group.value) in groups &&
      specs[t].config.GetOr(map[]).Keys <= groups[MgmtGroupName(specs[t].group.value)].Keys)
  }

  /** A spec merged without raising extends the invariant by one. */
  lemma MgmtGroupsMergedStep(specs: seq<RoleSpec>, j: nat, groups0: map<string, Config>,
                             groups: map<string, Config>, groups': map<string, Config>)
    requires j < |specs| && MgmtGroupsMerged(specs, j, groups0, groups)
    requires specs[j].group.Some? && MgmtGroupName(specs[j].group.value) in groups
    requires groups' == MergeSpec(groups, "mgmt", specs[j])
    ensures MgmtGroupsMerged(specs, j + 1, groups0, groups')
  {
    MergedGroupsSnoc(groups0, "mgmt", specs, j);
    assert specs[j] in specs;
  }

  /** Whether some management role already has role type `t`
      (`get_roles_by_type` returning a non-empty list). */
  predicate HasRoleOfType(roles: map<string, Role>, t: string) {
    exists k :: k in roles && roles[k].roleType == t
  }

  /** Every role of `a` is in `b` with the same role type. */
  predicate RolesKept(a: map<string, Role>, b: map<string, Role>) {
    forall k :: k in a ==> k in b && b[k].roleType == a[k].roleType
  }

  /** Keeping roles keeps every role type present. */
  lemma RolesKeptHasType(a: map<string, Role>, b: map<string, Role>, t: string)
    requires RolesKept(a, b)
    ensures HasRoleOfType(a, t) ==> HasRoleOfType(b, t)
  {
    if HasRoleOfType(a, t) {
      var k :| k in a && a[k].roleType == t;
      assert k in b && b[k].roleType == t;
    }
  }

  /** Role specs `0 .. n - 1` name a role type, and a role of each type
      exists. */
  predicate TypesCovered(specs: seq<RoleSpec>, n: nat, roles: map<string, Role>)
    requires n <= |specs|
  {
    forall t :: 0 <= t < n ==> specs[t].group.Some? && HasRoleOfType(roles, specs[t].group.value)
  }

  /** What one pass of the role loop does to the roles: nothing, or adds
      `<type>-1` for a type without a role, on the first listed host. */
  predicate MgmtRoleAdded(spec: RoleSpec, before: map<string, Role>, after: map<string, Role>) {
    after == before ||
    (spec.group.Some? && !HasRoleOfType(before, spec.group.value) && NonEmpty(spec.hosts) &&
     MgmtRoleName(spec.group.value) !in before &&
     after == before[MgmtRoleName(spec.group.value) := Role(spec.group.value, spec.hosts.value[0], map[])])
  }

  /** The roles keep every earlier role and add only roles the specs call
      for. */
  ghost predicate MgmtRolesGrown(start: map<string, Role>, specs: seq<RoleSpec>, roles: map<string, Role>) {
    (forall k :: k in start ==> k in roles && roles[k] == start[k]) &&
    (forall k :: k in roles && k !in start ==> NewMgmtRole(start, specs, k, roles[k]))
  }

  /** A pass that succeeds keeps the loop's invariants. */
  lemma MgmtRoleStep(start: map<string, Role>, before: map<string, Role>, after: map<string, Role>,
                     specs: seq<RoleSpec>, j: nat)
    requires j < |specs| && MgmtRolesGrown(start, specs, before) && TypesCovered(specs, j, before)
    requires specs[j].group.Some? && HasRoleOfType(after, specs[j].group.value)
    requires MgmtRoleAdded(specs[j], before, after)
    ensures MgmtRolesGrown(start, specs, after) && TypesCovered(specs, j + 1, after)
  {
    var g := specs[j].group.value;
    assert RolesKept(before, after);
    forall t | 0 <= t < j
      ensures HasRoleOfType(after, specs[t].group.value)
    {
      RolesKeptHasType(before, after, specs[t].group.value);
    }
    if after != before {
      assert RolesKept(start, before);
      RolesKeptHasType(start, before, g);
      var n := MgmtRoleName(g);
      assert NewMgmtRole(start, specs, n, after[n]) by {
        assert specs[j].group == Some(g);
      }
    }
  }

  /** A pass that raises names the spec that caused it. */
  lemma MgmtRoleRaises(start: map<string, Role>, before: map<string, Role>, specs: seq<RoleSpec>, j: nat)
    requires j < |specs| && MgmtRolesGrown(start, specs, before)
    requires specs[j].group.None? ||
      (!HasRoleOfType(before, specs[j].group.value) &&
       (!NonEmpty(specs[j].hosts) || MgmtRoleName(specs[j].group.value) in before))
    ensures specs[j].group.None? ||
      (!HasRoleOfType(start, specs[j].group.value) && !NonEmpty(specs[j].hosts)) ||
      MgmtRoleName(specs[j].group.value) in start
  {
    if specs[j].group.Some? {
      var g := specs[j].group.value;
      assert RolesKept(start, before);
      RolesKeptHasType(start, before, g);
      var n := MgmtRoleName(g);
      if n in before && n !in start {
        MgmtRoleNameInjective(before[n].roleType, g);
        assert false;
      }
    }
  }

  /** A management role created by the run: the first of its type, named
      `<type>-1`, on the first host listed for its type. */
  ghost predicate NewMgmtRole(before: map<string, Role>, specs: seq<RoleSpec>, k: string, role: Role) {
    !HasRoleOfType(before, role.roleType) && k == MgmtRoleName(role.roleType) && role.config == map[] &&
    exists t :: 0 <= t < |specs| && specs[t].group == Some(role.roleType) &&
      specs[t].hosts.Some? && |specs[t].hosts.value| > 0 && role.host == specs[t].hosts.value[0]
  }

  /** What the run observes of the remote, asynchronous steps of `setup`:
      the parcel read by `validate` and its `retry()` re-reads, each phase's
      trigger and `check_state` polls, the host-inspection fetches, whether
      the management services come up, and which bootstrap commands
      succeed. */
  datatype Observations = Observations(
    parcelLookup: Outcome<Parcels.ParcelStatus>,
    parcelWaits: nat -> Outcome<Parcels.ParcelStatus>,
    triggers: Parcels.Phase -> Outcome<Parcels.ParcelStatus>,
    polls: Parcels.Phase -> nat -> Outcome<Parcels.ParcelStatus>,
    inspections: nat -> Outcome<Option<bool>>,
    mgmtStarts: bool,
    succeeded: string -> bool)

  /** The parcel reaches every phase's target: each trigger is accepted and
      each `check_state` returns. */
  predicate ParcelPhasesPass(obs: Observations) {
    forall ph: Parcels.Phase ::
      obs.triggers(ph).Ok? && Parcels.CheckState(obs.polls(ph), Parcels.Targets(ph)).result.Returned?
  }

  /** Deployed service objects whose names are entities have kinds whose
      service names are entities. */
  lemma KindsDeployed(started: seq<Services.Service>, keys: set<string>)
    requires forall svc :: svc in started ==> svc.name in keys && svc.name == Services.ServiceName(svc.kind)
    ensures forall k :: k in ClouderaManager.KindsOf(started) ==> Services.ServiceName(k) in keys
  {
    var kinds := ClouderaManager.KindsOf(started);
    forall k | k in kinds
      ensures Services.ServiceName(k) in keys
    {
      var j :| 0 <= j < |kinds| && kinds[j] == k;
      assert started[j] in started;
    }
  }

  class ClouderaManager {
    /** The cluster description. */
    const config: SetupConfig
    /** The control plane the API session talks to. */
    const remote: Remote
    /** The name of the cluster entity, once `create_cluster` has run. */
    var cluster: Option<string>

    constructor (config: SetupConfig, remote: Remote)
      ensures this.config == config && this.remote == remote && cluster == None
    {
      this.config := config;
      this.remote := remote;
      cluster := None;
    }

    /** The description lists the management role specs. */
    predicate MgmtListed() {
      "MGMT" in config.services && config.services["MGMT"].roles.Some?
    }

    function MgmtSpecs(): seq<RoleSpec>
      requires MgmtListed()
    {
      config.services["MGMT"].roles.value
    }

    /** The groups `deploy_mgmt_services` leaves when it configures the
        management service, from the groups and the management service it
        found: each listed role type's config merged into its
        `mgmt-<type>-BASE` group, in list order. */
    function MgmtGroupsAfter(groups0: map<string, Config>, mgmt0: Option<ServiceInfo>, types: set<string>): map<string, Config>
      requires MgmtListed()
    {
      MergedGroups(ProvisionedGroups(groups0, mgmt0, types), "mgmt", MgmtSpecs())
    }

    /** Every service runs, and every service of either list that the
        description configures exists. */
    ghost predicate ServicesUp(base: seq<string>, additional: seq<string>, services: map<string, ServiceInfo>) {
      (forall k :: k in services ==> services[k].state == Started) &&
      (forall k :: k in ConfiguredKinds(base, config.services) ==> Services.ServiceName(k) in services) &&
      (forall k :: k in ConfiguredKinds(additional, config.services) ==> Services.ServiceName(k) in services)
    }

    /** What the run leaves of the management roles and groups, from the
        service `mgmt0`, roles `roles0` and groups `groups0` it found:
        earlier roles are kept and each new role is the first of a listed
        type. After a success (`ok`) every listed type has a role and the
        management groups are those `deploy_mgmt_services` configured, or,
        when the service already ran, those found. */
    ghost predicate MgmtOutcome(ok: bool, mgmt0: Option<ServiceInfo>, roles0: map<string, Role>, groups0: map<string, Config>,
                                types: set<string>, roles: map<string, Role>, groups: map<string, Config>) {
      var running := mgmt0.Some? && mgmt0.value.state == Started;
      (forall k :: k in roles0 ==> k in roles && roles[k] == roles0[k]) &&
      (forall k :: k in roles && k !in roles0 ==> MgmtListed() && NewMgmtRole(roles0, MgmtSpecs(), k, roles[k])) &&
      (ok && !running ==>
        MgmtListed() && TypesCovered(MgmtSpecs(), |MgmtSpecs()|, roles) &&
        MgmtGroupsKept(MgmtGroupsAfter(groups0, mgmt0, types), groups)) &&
      (ok && running ==> MgmtGroupsKept(groups0, groups))
    }

    /** The management outcome survives later steps that keep the
        management groups and leave the management roles alone, and a
        success that later steps turn into a failure. */
    lemma MgmtOutcomeKept(ok: bool, ok': bool, mgmt0: Option<ServiceInfo>, roles0: map<string, Role>,
                          groups0: map<string, Config>, types: set<string>, roles: map<string, Role>,
                          groups: map<string, Config>, groups': map<string, Config>)
      requires MgmtOutcome(ok, mgmt0, roles0, groups0, types, roles, groups)
      requires (ok' ==> ok) && MgmtGroupsKept(groups, groups')
      ensures MgmtOutcome(ok', mgmt0, roles0, groups0, types, roles, groups')
    {
      if ok' {
        if mgmt0.Some? && mgmt0.value.state == Started {
          MgmtGroupsKeptTrans(groups0, groups, groups');
        } else {
          MgmtGroupsKeptTrans(MgmtGroupsAfter(groups0, mgmt0, types), groups, groups');
        }
      }
    }

    /** The steps of `setup` before the management services pass: the
        parcel is found, reaches every phase, and host inspection passes. */
    predicate Prepared(obs: Observations) {
      Parcels.ParcelResolved(obs.parcelLookup, config.parcel.repo, obs.parcelWaits) &&
      ParcelPhasesPass(obs) && WaitInspect(obs.inspections).result == Retry.Returned(())
    }

    /** `create_cluster`: get the cluster by name or create it with the
        description's versions, then add the listed hosts it lacks. */
    method CreateCluster()
      modifies this`cluster, remote`clusters
      ensures cluster == Some(config.cluster.name) && ClusterEnrolled(old(remote.clusters), remote.clusters, config.cluster)
      ensures forall h :: h in config.cluster.hosts ==> h in remote.clusters[config.cluster.name].hosts
    {
      var spec := config.cluster;
      var entity: ClusterInfo;
      if spec.name in remote.clusters {
        entity := remote.clusters[spec.name];
      } else {
        entity := ClusterInfo(spec.version, spec.fullVersion, []);
        remote.clusters := remote.clusters[spec.name := entity];
      }
      cluster := Some(spec.name);
      var hosts := HostsToAdd(spec.hosts, entity.hosts);
      remote.clusters := remote.clusters[spec.name := entity.(hosts := entity.hosts + hosts)];
      EnrollmentIdempotent(spec.hosts, entity.hosts);
    }

    /** The host list `create_cluster` builds: every listed host that the
        cluster does not have yet, in the description's order. */
    static method HostsToAdd(wanted: seq<string>, enrolled: seq<string>) returns (hosts: seq<string>)
      ensures hosts == Missing(wanted, enrolled)
      ensures forall h :: h in hosts <==> h in wanted && h !in enrolled
    {
      hosts := [];
      var i := 0;
      while i < |wanted|
        invariant 0 <= i <= |wanted|
        invariant hosts == Missing(wanted[..i], enrolled)
      {
        assert wanted[..i + 1][..i] == wanted[..i];
        if wanted[i] !in enrolled {
          hosts := hosts + [wanted[i]];
        }
        i := i + 1;
      }
      assert wanted[..i] == wanted;
      MissingMembers(wanted, enrolled);
    }

    /** `wait_inspect_hosts` under its `retry(attempts=20, delay=5)`. */
    method WaitInspectHosts(fetches: nat -> Outcome<Option<bool>>) returns (r: Outcome<()>, polls: nat)
      ensures polls == WaitInspect(fetches).calls && 1 <= polls <= 20
      ensures r.Ok? <==> WaitInspect(fetches).result == Retry.Returned(())
      ensures r.Raise? ==> WaitInspect(fetches).result == Retry.Raised(r.exc)
    {
      var result, calls, _ := Retry.RetryLoop(InspectCall(fetches), 20);
      Retry.RetryBounds(InspectCall(fetches), 20);
      polls := calls;
      if result.Raised? {
        r := Raise(result.exc);
      } else {
        assert !result.NoneReturned?;
        assert result.value == ();
        r := Ok(());
      }
    }

    /** The first loop of `deploy_mgmt_services`: for each listed role
        type without a role yet, create `<type>-1` on the type's first
        host. */
    method CreateMgmtRoles(specs: seq<RoleSpec>) returns (r: Outcome<()>)
      modifies remote`mgmtRoles
      ensures forall k :: k in old(remote.mgmtRoles) ==>
        k in remote.mgmtRoles && remote.mgmtRoles[k] == old(remote.mgmtRoles)[k]
      ensures forall k :: k in remote.mgmtRoles && k !in old(remote.mgmtRoles) ==>
        NewMgmtRole(old(remote.mgmtRoles), specs, k, remote.mgmtRoles[k])
      ensures r.Ok? ==> TypesCovered(specs, |specs|, remote.mgmtRoles)
      ensures r.Raise? ==>
        exists t :: 0 <= t < |specs| &&
          (specs[t].group.None? ||
           (!HasRoleOfType(old(remote.mgmtRoles), specs[t].group.value) && !NonEmpty(specs[t].hosts)) ||
           MgmtRoleName(specs[t].group.value) in old(remote.mgmtRoles))
    {
      var j := 0;
      while j < |specs|
        invariant 0 <= j <= |specs|
        invariant MgmtRolesGrown(old(remote.mgmtRoles), specs, remote.mgmtRoles)
        invariant TypesCovered(specs, j, remote.mgmtRoles)
      {
        ghost var before := remote.mgmtRoles;
        r := CreateMgmtRole(specs[j]);
        if r.Raise? {
          MgmtRoleRaises(old(remote.mgmtRoles), before, specs, j);
          return;
        }
        MgmtRoleStep(old(remote.mgmtRoles), before, remote.mgmtRoles, specs, j);
        j := j + 1;
      }
      return Ok(());
    }

    /** One pass of the first loop of `deploy_mgmt_services`: when no role
        has the spec's role type, create `<type>-1` on the first host listed
        for it. */
    method CreateMgmtRole(spec: RoleSpec) returns (r: Outcome<()>)
      modifies remote`mgmtRoles
      ensures r.Ok? ==> spec.group.Some? && HasRoleOfType(remote.mgmtRoles, spec.group.value)
      ensures r.Ok? ==> MgmtRoleAdded(spec, old(remote.mgmtRoles), remote.mgmtRoles)
      ensures r.Raise? ==> remote.mgmtRoles == old(remote.mgmtRoles)
      ensures r.Raise? ==>
        (spec.group.None? ||
         (!HasRoleOfType(old(remote.mgmtRoles), spec.group.value) &&
          (!NonEmpty(spec.hosts) || MgmtRoleName(spec.group.value) in old(remote.mgmtRoles))))
    {
      if spec.group.None? {
        return Raise(Error(MissingGroup));
      }
      var g := spec.group.value;
      if !HasRoleOfType(remote.mgmtRoles, g) {
        if spec.hosts.None? {
          return Raise(Error(MissingHosts));
        }
        if spec.hosts.value == [] {
          return Raise(Error(IndexOutOfRange));
        }
        var n := MgmtRoleName(g);
        if n in remote.mgmtRoles {
          return Raise(ApiError(RoleExists(n)));
        }
        remote.mgmtRoles := remote.mgmtRoles[n := Role(g, spec.hosts.value[0], map[])];
        assert remote.mgmtRoles[n].roleType == g;
      }
      r := Ok(());
    }

    /** The second loop of `deploy_mgmt_services`: merge each listed role
        type's `config` (absent: empty) into its `mgmt-<type>-BASE` group. */
    method ConfigureMgmtGroups(specs: seq<RoleSpec>) returns (r: Outcome<()>)
      modifies remote`groupConfigs
      ensures remote.groupConfigs.Keys == old(remote.groupConfigs).Keys
      ensures forall g :: g in old(remote.groupConfigs) ==>
        old(remote.groupConfigs)[g].Keys <= remote.groupConfigs[g].Keys
      ensures forall g :: g in old(remote.groupConfigs) && remote.groupConfigs[g] != old(remote.groupConfigs)[g] ==>
        exists spec :: spec in specs && spec.group.Some? && g == MgmtGroupName(spec.group.value)
      ensures r.Ok? ==> forall t :: 0 <= t < |specs| ==>
        specs[t].group.Some? && MgmtGroupName(specs[t].group.value) in remote.groupConfigs &&
        specs[t].config.GetOr(map[]).Keys <= remote.groupConfigs[MgmtGroupName(specs[t].group.value)].Keys
      ensures r.Ok? ==> remote.groupConfigs == MergedGroups(old(remote.groupConfigs), "mgmt", specs)
      ensures r.Raise? ==>
        exists t :: 0 <= t < |specs| &&
          (specs[t].group.None? || MgmtGroupName(specs[t].group.value) !in old(remote.groupConfigs))
    {
      var j := 0;
      while j < |specs|
        invariant 0 <= j <= |specs|
        invariant MgmtGroupsMerged(specs, j, old(remote.groupConfigs), remote.groupConfigs)
      {
        ghost var groups := remote.groupConfigs;
        r := ConfigureMgmtGroup(specs[j]);
        if r.Raise? {
          return;
        }
        MgmtGroupsMergedStep(specs, j, old(remote.groupConfigs), groups, remote.groupConfigs);
        j := j + 1;
      }
      assert specs[..j] == specs;
      return Ok(());
    }

    /** One pass of the second loop of `deploy_mgmt_services`: merge the
        spec's `config` into the base group of its role type. */
    method ConfigureMgmtGroup(spec: RoleSpec) returns (r: Outcome<()>)
      modifies remote`groupConfigs
      ensures r.Ok? ==> spec.group.Some? && MgmtGroupName(spec.group.value) in old(remote.groupConfigs)
      ensures r.Ok? ==> remote.groupConfigs == MergeSpec(old(remote.groupConfigs), "mgmt", spec)
      ensures r.Raise? ==> remote.groupConfigs == old(remote.groupConfigs)
      ensures r.Raise? ==> spec.group.None? || MgmtGroupName(spec.group.value) !in old(remote.groupConfigs)
    {
      if spec.group.None? {
        return Raise(Error(MissingGroup));
      }
      var groupName := MgmtGroupName(spec.group.value);
      if groupName !in remote.groupConfigs {
        return Raise(ApiError(GroupNotFound(groupName)));
      }
      remote.groupConfigs := remote.groupConfigs[groupName := remote.groupConfigs[groupName] + spec.config.GetOr(map[])];
      r := Ok(());
    }

    /** The body of `deploy_mgmt_services` before the start: get or create
        the management service, create its missing roles and configure
        its role groups from the description's `MGMT` entry. */
    method ProvisionMgmt() returns (r: Outcome<()>)
      modifies remote`mgmt, remote`mgmtRoles, remote`groupConfigs
      ensures old(remote.mgmt).None? ==> remote.mgmt == Some(ServiceInfo("MGMT", Stopped, map[]))
      ensures old(remote.mgmt).Some? ==> remote.mgmt == old(remote.mgmt)
      ensures remote.groupConfigs.Keys <= old(remote.groupConfigs).Keys + MgmtBaseGroups(remote.TypesOf("MGMT"))
      ensures forall g :: g in old(remote.groupConfigs) ==> g in remote.groupConfigs
      ensures forall k :: k in old(remote.mgmtRoles) ==>
        k in remote.mgmtRoles && remote.mgmtRoles[k] == old(remote.mgmtRoles)[k]
      ensures forall k :: k in remote.mgmtRoles && k !in old(remote.mgmtRoles) ==>
        "MGMT" in config.services && config.services["MGMT"].roles.Some? &&
        NewMgmtRole(old(remote.mgmtRoles), config.services["MGMT"].roles.value, k, remote.mgmtRoles[k])
      ensures r.Ok? ==>
        "MGMT" in config.services && config.services["MGMT"].roles.Some? &&
        var specs := config.services["MGMT"].roles.value;
        forall t :: 0 <= t < |specs| ==>
          specs[t].group.Some? && HasRoleOfType(remote.mgmtRoles, specs[t].group.value) &&
          MgmtGroupName(specs[t].group.value) in remote.groupConfigs
      ensures r.Ok? ==> (MgmtListed() &&
        remote.groupConfigs == MgmtGroupsAfter(old(remote.groupConfigs), old(remote.mgmt), remote.TypesOf("MGMT")))
    {
      if remote.mgmt.None? {
        remote.mgmt := Some(ServiceInfo("MGMT", Stopped, map[]));
        remote.groupConfigs := WithGroups(remote.groupConfigs, MgmtBaseGroups(remote.TypesOf("MGMT")));
      }
      if "MGMT" !in config.services {
        return Raise(Error(MissingMgmt));
      }
      if config.services["MGMT"].roles.None? {
        return Raise(Error(MgmtRolesNone));
      }
      var specs := config.services["MGMT"].roles.value;
      r := CreateMgmtRoles(specs);
      if r.Raise? {
        return;
      }
      r := ConfigureMgmtGroups(specs);
    }

    /** `deploy_mgmt_services`: nothing to do when the management service
        already runs; otherwise get or create it, create its missing roles,
        configure its role groups, start it, and fail unless it runs. */
    method DeployMgmtServices(starts: bool) returns (r: Outcome<()>)
      modifies remote`mgmt, remote`mgmtRoles, remote`groupConfigs, remote`log
      ensures old(remote.mgmt).Some? && old(remote.mgmt).value.state == Started ==>
        r == Ok(()) && remote.mgmt == old(remote.mgmt) && remote.mgmtRoles == old(remote.mgmtRoles) &&
        remote.groupConfigs == old(remote.groupConfigs) && remote.log == old(remote.log)
      ensures old(remote.mgmt).None? ==>
        remote.mgmt.Some? && remote.mgmt.value.serviceType == "MGMT"
      ensures remote.groupConfigs.Keys <= old(remote.groupConfigs).Keys + MgmtBaseGroups(remote.TypesOf("MGMT"))
      ensures forall g :: g in old(remote.groupConfigs) ==> g in remote.groupConfigs
      ensures forall k :: k in old(remote.mgmtRoles) ==>
        k in remote.mgmtRoles && remote.mgmtRoles[k] == old(remote.mgmtRoles)[k]
      ensures forall k :: k in remote.mgmtRoles && k !in old(remote.mgmtRoles) ==>
        "MGMT" in config.services && config.services["MGMT"].roles.Some? &&
        NewMgmtRole(old(remote.mgmtRoles), config.services["MGMT"].roles.value, k, remote.mgmtRoles[k])
      ensures r.Ok? ==> remote.mgmt.Some? && remote.mgmt.value.state == Started
      ensures r.Ok? ==>
        remote.log == old(remote.log) + MgmtTrace(old(remote.mgmt).Some? && old(remote.mgmt).value.state == Started)
      ensures r.Ok? && !(old(remote.mgmt).Some? && old(remote.mgmt).value.state == Started) ==>
        starts && "MGMT" in config.services && config.services["MGMT"].roles.Some? &&
        var specs := config.services["MGMT"].roles.value;
        forall t :: 0 <= t < |specs| ==>
          specs[t].group.Some? && HasRoleOfType(remote.mgmtRoles, specs[t].group.value) &&
          MgmtGroupName(specs[t].group.value) in remote.groupConfigs
      ensures r.Ok? && !(old(remote.mgmt).Some? && old(remote.mgmt).value.state == Started) ==> (MgmtListed() &&
        remote.groupConfigs == MgmtGroupsAfter(old(remote.groupConfigs), old(remote.mgmt), remote.TypesOf("MGMT")))
      ensures MgmtOutcome(r.Ok?, old(remote.mgmt), old(remote.mgmtRoles), old(remote.groupConfigs), remote.TypesOf("MGMT"),
        remote.mgmtRoles, remote.groupConfigs)
      ensures r.Raise? ==> remote.log == old(remote.log)
    {
      if remote.mgmt.Some? && remote.mgmt.value.state == Started {
        return Ok(());
      }
      r := ProvisionMgmt();
      if r.Raise? {
        return;
      }
      if !starts {
        return Raise(Fatal([MgmtDown]));
      }
      remote.mgmt := Some(remote.mgmt.value.(state := Started));
      remote.log := remote.log + [MgmtStarted];
    }

    /** The kinds of the service objects in `started`, in order. */
    static function KindsOf(started: seq<Services.Service>): (kinds: seq<Services.Kind>)
      ensures |kinds| == |started| && forall k :: 0 <= k < |started| ==> kinds[k] == started[k].kind
    {
      seq(|started|, k requires 0 <= k < |started| => started[k].kind)
    }

    /** A new service object of `kind` and its `deploy()`. */
    method NewDeployed(kind: Services.Kind, entry: ServiceConfig) returns (r: Outcome<()>, svc: Services.Service)
      modifies remote`services, remote`groupConfigs, remote`roles
      ensures fresh(svc) && svc.kind == kind && svc.config == entry && svc.name == Services.ServiceName(kind)
      ensures svc.handle.Some? && svc.name in remote.services
      ensures old(remote.services).Keys <= remote.services.Keys
      ensures RolesPlaced(old(remote.roles), remote.roles)
      ensures svc.DeployedFrom(r.Ok?, remote.TypesOf(svc.serviceType), old(remote.services), old(remote.groupConfigs),
        old(remote.roles), remote.services, remote.groupConfigs, remote.roles)
      ensures MgmtGroupsKept(old(remote.groupConfigs), remote.groupConfigs)
    {
      svc := new Services.Service(kind, entry);
      r := svc.Deploy(remote);
      forall g | g in old(remote.groupConfigs) && IsMgmtGroup(g)
        ensures g in remote.groupConfigs && remote.groupConfigs[g] == old(remote.groupConfigs)[g]
      {
        if remote.groupConfigs[g] != old(remote.groupConfigs)[g] {
          var spec :| spec in entry.roles.value && spec.group.Some? && g == GroupName(svc.name, spec.group.value);
          ServiceGroupNotMgmt(svc.name, spec.group.value);
        }
      }
    }

    /** One iteration of the first loop of `service_orchestrate`: a new
        service object of `kind`, `deploy()`, then `pre_start()`. */
    method DeployOne(kind: Services.Kind, entry: ServiceConfig, succeeded: string -> bool)
      returns (r: Outcome<()>, svc: Services.Service)
      modifies remote`services, remote`groupConfigs, remote`roles, remote`log
      ensures fresh(svc) && svc.kind == kind && svc.config == entry && svc.name == Services.ServiceName(kind)
      ensures r.Ok? ==> svc.handle.Some? && svc.name in remote.services
      ensures r.Ok? ==> remote.log == old(remote.log) + DeployTrace(kind, succeeded)
      ensures r.Raise? ==> remote.log == old(remote.log)
      ensures old(remote.services).Keys <= remote.services.Keys
      ensures RolesPlaced(old(remote.roles), remote.roles)
      ensures MgmtGroupsKept(old(remote.groupConfigs), remote.groupConfigs)
    {
      r, svc := NewDeployed(kind, entry);
      if r.Raise? {
        return;
      }
      PreOne(svc, succeeded);
    }

    /** The rest of one pass of the first loop of `service_orchestrate`
        once `deploy()` succeeded: log the deploy, then `pre_start()`. */
    method PreOne(svc: Services.Service, succeeded: string -> bool)
      requires svc.handle.Some? && svc.name == Services.ServiceName(svc.kind)
      modifies svc`handle, remote`services, remote`groupConfigs, remote`log
      ensures svc.handle == old(svc.handle)
      ensures remote.services == old(remote.services) && remote.groupConfigs == old(remote.groupConfigs)
      ensures remote.log == old(remote.log) + DeployTrace(svc.kind, succeeded)
    {
      remote.log := remote.log + [Deployed(svc.name)];
      svc.PreStart(remote, succeeded);
      remote.log := remote.log + [PreStarted(svc.name)];
      DeployTraceAppended(old(remote.log), svc.kind, succeeded);
    }

    /** One pass of the first loop of `service_orchestrate` over entry
        `i` of `services`: skipped when the description has no entry for
        it, raises `AttributeError` when it names no service class, else
        deployed and pre-started. `base` is the log before the loop. */
    method DeployEntry(services: seq<string>, i: nat, succeeded: string -> bool, started: seq<Services.Service>,
                       ghost base: seq<Event>)
      returns (r: Outcome<()>, next: seq<Services.Service>)
      requires i < |services| && ClassesKnown(services[..i], config.services)
      requires KindsOf(started) == ConfiguredKinds(services[..i], config.services)
      requires remote.log == base + DeployTraces(ConfiguredKinds(services[..i], config.services), succeeded)
      modifies remote`services, remote`groupConfigs, remote`roles, remote`log
      ensures forall svc :: svc in next ==>
        svc in started || (fresh(svc) && svc.handle.Some? && svc.name in remote.services && svc.name == Services.ServiceName(svc.kind))
      ensures r.Ok? ==> ClassesKnown(services[..i + 1], config.services)
      ensures r.Ok? ==> KindsOf(next) == ConfiguredKinds(services[..i + 1], config.services)
      ensures r.Ok? ==> remote.log == base + DeployTraces(ConfiguredKinds(services[..i + 1], config.services), succeeded)
      ensures r.Raise? ==> remote.log == old(remote.log)
      ensures old(remote.services).Keys <= remote.services.Keys
      ensures RolesPlaced(old(remote.roles), remote.roles)
      ensures MgmtGroupsKept(old(remote.groupConfigs), remote.groupConfigs)
    {
      var cfg := config.services;
      ConfiguredKindsStep(services, i, cfg);
      next := started;
      var name := Upper(services[i]);
      if name in cfg {
        var kind := Services.KindNamed(services[i]);
        if kind.None? {
          return Raise(Error(NoServiceClass(services[i]))), next;
        }
        ghost var kinds := ConfiguredKinds(services[..i], cfg);
        ghost var log0 := remote.log;
        var svc;
        r, svc := DeployOne(kind.value, cfg[name], succeeded);
        if r.Raise? {
          return;
        }
        DeployTracesSnoc(kinds, kind.value, succeeded);
        LogGrows(base, log0, remote.log, DeployTraces(kinds, succeeded), DeployTrace(kind.value, succeeded));
        next := started + [svc];
        assert KindsOf(next) == KindsOf(started) + [kind.value];
      }
      ClassesKnownStep(services, i, cfg);
      r := Ok(());
    }

    /** The first loop of `service_orchestrate`: every listed service with
        an entry in the description, in list order; a name without a
        service class raises `AttributeError`. */
    method DeployPhase(services: seq<string>, succeeded: string -> bool)
      returns (r: Outcome<()>, started: seq<Services.Service>)
      modifies remote`services, remote`groupConfigs, remote`roles, remote`log
      ensures forall svc :: svc in started ==>
        fresh(svc) && svc.handle.Some? && svc.name in remote.services && svc.name == Services.ServiceName(svc.kind)
      ensures r.Ok? ==> ClassesKnown(services, config.services)
      ensures r.Ok? ==> KindsOf(started) == ConfiguredKinds(services, config.services)
      ensures r.Ok? ==> remote.log == old(remote.log) + DeployTraces(ConfiguredKinds(services, config.services), succeeded)
      ensures r.Raise? ==>
        exists i :: 0 <= i <= |services| &&
          remote.log == old(remote.log) + DeployTraces(ConfiguredKinds(services[..i], config.services), succeeded)
      ensures old(remote.services).Keys <= remote.services.Keys
      ensures RolesPlaced(old(remote.roles), remote.roles)
      ensures MgmtGroupsKept(old(remote.groupConfigs), remote.groupConfigs)
    {
      started := [];
      var i := 0;
      assert services[..0] == [];
      while i < |services|
        invariant 0 <= i <= |services|
        invariant ClassesKnown(services[..i], config.services)
        invariant KindsOf(started) == ConfiguredKinds(services[..i], config.services)
        invariant forall svc :: svc in started ==>
          fresh(svc) && svc.handle.Some? && svc.name in remote.services && svc.name == Services.ServiceName(svc.kind)
        invariant remote.log == old(remote.log) + DeployTraces(ConfiguredKinds(services[..i], config.services), succeeded)
        invariant old(remote.services).Keys <= remote.services.Keys
        invariant RolesPlaced(old(remote.roles), remote.roles)
        invariant MgmtGroupsKept(old(remote.groupConfigs), remote.groupConfigs)
      {
        ghost var groups := remote.groupConfigs;
        r, started := DeployEntry(services, i, succeeded, started, old(remote.log));
        MgmtGroupsKeptTrans(old(remote.groupConfigs), groups, remote.groupConfigs);
        if r.Raise? {
          assert remote.log == old(remote.log) + DeployTraces(ConfiguredKinds(services[..i], config.services), succeeded);
          return;
        }
        i := i + 1;
      }
      assert services[..i] == services;
      r := Ok(());
    }

    /** One pass of the last loop of `service_orchestrate`: `post_start()`
        on a deployed service object. */
    method PostOne(svc: Services.Service, succeeded: string -> bool)
      requires svc.handle.Some? && svc.name == Services.ServiceName(svc.kind)
      modifies svc`handle, remote`services, remote`groupConfigs, remote`log
      ensures svc.handle == old(svc.handle)
      ensures remote.services == old(remote.services) && remote.groupConfigs == old(remote.groupConfigs)
      ensures remote.log == old(remote.log) + PostTrace(svc.kind, succeeded)
    {
      svc.PostStart(remote, succeeded);
      remote.log := remote.log + [PostStarted(svc.name)];
      PostTraceAppended(old(remote.log), svc.kind, succeeded);
    }

    /** The last loop of `service_orchestrate`: `post_start()` on each
        deployed service object, in deployment order. */
    method PostStartPhase(started: seq<Services.Service>, succeeded: string -> bool)
      requires forall svc :: svc in started ==> svc.handle.Some? && svc.name == Services.ServiceName(svc.kind)
      modifies started`handle, remote`services, remote`groupConfigs, remote`log
      ensures remote.services == old(remote.services) && remote.groupConfigs == old(remote.groupConfigs)
      ensures forall svc :: svc in started ==> svc.handle == old(svc.handle)
      ensures remote.log == old(remote.log) + PostTraces(KindsOf(started), succeeded)
    {
      var kinds := KindsOf(started);
      var k := 0;
      while k < |started|
        invariant 0 <= k <= |started|
        invariant forall svc :: svc in started ==> svc.handle == old(svc.handle)
        invariant remote.services == old(remote.services) && remote.groupConfigs == old(remote.groupConfigs)
        invariant remote.log == old(remote.log) + PostTraces(kinds[..k], succeeded)
      {
        var svc := started[k];
        ghost var log0 := remote.log;
        PostOne(svc, succeeded);
        PostLogStep(old(remote.log), log0, remote.log, kinds, k, succeeded);
        k := k + 1;
      }
      assert kinds[..k] == kinds;
    }

    /** `service_orchestrate(services, stop)`: deploy and pre-start every
        listed service the description configures, in list order; stop the
        cluster when asked; start it; post-start the same services in the
        same order. Without a cluster entity the first call on it raises. */
    method ServiceOrchestrate(services: seq<string>, stop: bool, succeeded: string -> bool) returns (r: Outcome<()>)
      modifies remote`services, remote`groupConfigs, remote`roles, remote`log
      ensures cluster.None? ==>
        r.Raise? && remote.log == old(remote.log) && remote.services == old(remote.services) && remote.roles == old(remote.roles)
      ensures r.Ok? ==> ClassesKnown(services, config.services)
      ensures r.Ok? ==> remote.log == old(remote.log) + PhaseTrace(ConfiguredKinds(services, config.services), stop, succeeded)
      ensures r.Raise? ==>
        exists i :: 0 <= i <= |services| &&
          remote.log == old(remote.log) + DeployTraces(ConfiguredKinds(services[..i], config.services), succeeded)
      ensures r.Ok? ==> forall k :: k in ConfiguredKinds(services, config.services) ==> Services.ServiceName(k) in remote.services
      ensures r.Ok? ==> forall k :: k in remote.services ==> remote.services[k].state == Started
      ensures old(remote.services).Keys <= remote.services.Keys
      ensures RolesPlaced(old(remote.roles), remote.roles)
      ensures MgmtGroupsKept(old(remote.groupConfigs), remote.groupConfigs)
    {
      if cluster.None? {
        assert services[..0] == [];
        assert remote.log == old(remote.log) + DeployTraces(ConfiguredKinds(services[..0], config.services), succeeded);
        return Raise(Error(NoCluster));
      }
      var started;
      r, started := DeployPhase(services, succeeded);
      if r.Raise? {
        return;
      }
      ghost var kinds := KindsOf(started);
      KindsDeployed(started, remote.services.Keys);
      ghost var deployed := remote.log;
      StartAndPost(started, stop, succeeded);
      LogGrows(old(remote.log), deployed, remote.log, DeployTraces(kinds, succeeded),
        StopPart(stop) + [ClusterStarted] + PostTraces(kinds, succeeded));
      AppendThree(DeployTraces(kinds, succeeded), StopPart(stop), [ClusterStarted], PostTraces(kinds, succeeded));
    }

    /** The rest of `service_orchestrate` once its services are deployed:
        stop the cluster when asked, start it, then post-start the deployed
        services in order. Every service runs afterwards. */
    method StartAndPost(started: seq<Services.Service>, stop: bool, succeeded: string -> bool)
      requires forall svc :: svc in started ==> svc.handle.Some? && svc.name == Services.ServiceName(svc.kind)
      modifies started`handle, remote`services, remote`groupConfigs, remote`log
      ensures remote.services.Keys == old(remote.services).Keys
      ensures forall k :: k in remote.services ==> remote.services[k].state == Started
      ensures remote.groupConfigs == old(remote.groupConfigs)
      ensures remote.log == old(remote.log) + (StopPart(stop) + [ClusterStarted] + PostTraces(KindsOf(started), succeeded))
    {
      if stop {
        remote.services := AllIn(remote.services, Stopped);
      }
      remote.services := AllIn(remote.services, Started);
      remote.log := remote.log + StopPart(stop);
      ghost var stopped := remote.log;
      remote.log := remote.log + [ClusterStarted];
      ghost var restarted := remote.log;
      PostStartPhase(started, succeeded);
      LogGrows(old(remote.log), stopped, restarted, StopPart(stop), [ClusterStarted]);
      LogGrows(old(remote.log), restarted, remote.log, StopPart(stop) + [ClusterStarted], PostTraces(KindsOf(started), succeeded));
    }

    /** The two `service_orchestrate` calls of `setup`: the base services
        with the cluster stopped first, then the additional services. */
    method OrchestrateBoth(base: seq<string>, additional: seq<string>, succeeded: string -> bool) returns (r: Outcome<()>)
      modifies remote`services, remote`groupConfigs, remote`roles, remote`log
      ensures r.Ok? ==>
        remote.log == old(remote.log) + PhaseTrace(ConfiguredKinds(base, config.services), true, succeeded) +
          PhaseTrace(ConfiguredKinds(additional, config.services), false, succeeded)
      ensures r.Ok? ==> ServicesUp(base, additional, remote.services)
      ensures MgmtGroupsKept(old(remote.groupConfigs), remote.groupConfigs)
    {
      r := ServiceOrchestrate(base, true, succeeded);
      if r.Raise? {
        return;
      }
      ghost var groups := remote.groupConfigs;
      r := ServiceOrchestrate(additional, false, succeeded);
      MgmtGroupsKeptTrans(old(remote.groupConfigs), groups, remote.groupConfigs);
    }

    /** The second half of `setup`: deploy the management services, run
        the base phase with the cluster stopped and the additional phase
        without, then deploy the client configuration. */
    method Launch(base: seq<string>, additional: seq<string>, mgmtStarts: bool, succeeded: string -> bool)
      returns (r: Outcome<()>)
      modifies remote`services, remote`groupConfigs, remote`roles, remote`mgmt, remote`mgmtRoles, remote`log
      ensures r.Ok? ==> remote.mgmt.Some? && remote.mgmt.value.state == Started
      ensures r.Ok? ==> ServicesUp(base, additional, remote.services)
      ensures r.Ok? ==>
        remote.log == old(remote.log) + SetupTrace(old(remote.mgmt).Some? && old(remote.mgmt).value.state == Started,
          ConfiguredKinds(base, config.services), ConfiguredKinds(additional, config.services), succeeded)
      ensures MgmtOutcome(r.Ok?, old(remote.mgmt), old(remote.mgmtRoles), old(remote.groupConfigs), remote.TypesOf("MGMT"),
        remote.mgmtRoles, remote.groupConfigs)
    {
      ghost var running := remote.mgmt.Some? && remote.mgmt.value.state == Started;
      r := DeployMgmtServices(mgmtStarts);
      if r.Raise? {
        return;
      }
      ghost var m := MgmtTrace(running);
      ghost var groups := remote.groupConfigs;
      ghost var mgmt := remote.mgmt;
      ghost var mgmtRoles := remote.mgmtRoles;
      ghost var log := remote.log;
      assert mgmt.Some? && mgmt.value.state == Started;
      r := OrchestrateBoth(base, additional, succeeded);
      assert remote.mgmt == mgmt && remote.mgmtRoles == mgmtRoles;
      MgmtOutcomeKept(true, r.Ok?, old(remote.mgmt), old(remote.mgmtRoles), old(remote.groupConfigs), remote.TypesOf("MGMT"),
        mgmtRoles, groups, remote.groupConfigs);
      if r.Raise? {
        return;
      }
      remote.log := remote.log + [ClientConfigDeployed];
      AppendFour(old(remote.log), m, PhaseTrace(ConfiguredKinds(base, config.services), true, succeeded),
        PhaseTrace(ConfiguredKinds(additional, config.services), false, succeeded), [ClientConfigDeployed]);
    }

    /** The first half of `setup`: create the cluster and enroll its
        hosts; validate, download, distribute and activate the parcel; wait
        for host inspection. */
    method Prepare(obs: Observations) returns (r: Outcome<()>)
      modifies this`cluster, remote`clusters, remote`repoUrls
      ensures cluster == Some(config.cluster.name) && ClusterEnrolled(old(remote.clusters), remote.clusters, config.cluster)
      ensures forall h :: h in config.cluster.hosts ==> h in remote.clusters[config.cluster.name].hosts
      ensures remote.repoUrls ==
        Parcels.RemediatedUrls(old(remote.repoUrls), remote.repoUrlsDefault, obs.parcelLookup, config.parcel.repo)
      ensures r.Ok? ==> Prepared(obs)
    {
      CreateCluster();
      var polls: nat;
      r := Parcels.Validate(remote, config.parcel.repo, obs.parcelLookup, obs.parcelWaits);
      if r.Raise? {
        return;
      }
      r, polls := Parcels.RunPhase(Parcels.Download, obs.triggers(Parcels.Download), obs.polls(Parcels.Download));
      if r.Raise? {
        return;
      }
      r, polls := Parcels.RunPhase(Parcels.Distribute, obs.triggers(Parcels.Distribute), obs.polls(Parcels.Distribute));
      if r.Raise? {
        return;
      }
      r, polls := Parcels.RunPhase(Parcels.Activate, obs.triggers(Parcels.Activate), obs.polls(Parcels.Activate));
      if r.Raise? {
        return;
      }
      assert ParcelPhasesPass(obs) by {
        forall ph: Parcels.Phase
          ensures obs.triggers(ph).Ok? && Parcels.CheckState(obs.polls(ph), Parcels.Targets(ph)).result.Returned?
        {
          match ph
          case Download =>
          case Distribute =>
          case Activate =>
        }
      }
      r, polls := WaitInspectHosts(obs.inspections);
    }

    /** `setup`: `Prepare`, then deploy the management services; configure
        and start the base services after stopping the cluster, then the
        additional services; deploy the client configuration. The first
        step that raises ends the run. */
    method Setup(obs: Observations) returns (r: Outcome<()>)
      modifies this`cluster, remote`clusters, remote`repoUrls, remote`services, remote`groupConfigs,
        remote`roles, remote`mgmt, remote`mgmtRoles, remote`log
      ensures cluster == Some(config.cluster.name) && ClusterEnrolled(old(remote.clusters), remote.clusters, config.cluster)
      ensures forall h :: h in config.cluster.hosts ==> h in remote.clusters[config.cluster.name].hosts
      ensures remote.repoUrls ==
        Parcels.RemediatedUrls(old(remote.repoUrls), remote.repoUrlsDefault, obs.parcelLookup, config.parcel.repo)
      ensures remote.services != old(remote.services) || remote.mgmt != old(remote.mgmt) || remote.log != old(remote.log) ==>
        Prepared(obs)
      ensures r.Ok? ==> Prepared(obs)
      ensures r.Ok? ==> remote.mgmt.Some? && remote.mgmt.value.state == Started
      ensures r.Ok? ==> ServicesUp(BaseServices, AdditionalServices, remote.services)
      ensures MgmtOutcome(r.Ok?, old(remote.mgmt), old(remote.mgmtRoles), old(remote.groupConfigs), remote.TypesOf("MGMT"),
        remote.mgmtRoles, remote.groupConfigs)
      ensures r.Ok? ==>
        remote.log == old(remote.log) + SetupTrace(old(remote.mgmt).Some? && old(remote.mgmt).value.state == Started,
          ConfiguredKinds(BaseServices, config.services), ConfiguredKinds(AdditionalServices, config.services), obs.succeeded)
      ensures r.Ok? ==>
        Markers(remote.log) == Markers(old(remote.log)) +
          PhasePlan(Configured(BaseServices, config.services), true) +
          PhasePlan(Configured(AdditionalServices, config.services), false)
    {
      r := Prepare(obs);
      if r.Raise? {
        return;
      }
      ghost var running := remote.mgmt.Some? && remote.mgmt.value.state == Started;
      r := Launch(BaseServices, AdditionalServices, obs.mgmtStarts, obs.succeeded);
      if r.Ok? {
        SetupLogPlan(old(remote.log), remote.log, running, config.services, obs.succeeded);
      }
    }
  }
}
