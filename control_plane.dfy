/** The management control plane, seen as the state the orchestration reads
    and changes through the client library. The remote side's own
    behaviour (asynchronous progress, command outcomes) is not here: it
    enters the model as observations passed to the operations. */
module ControlPlane {
  import opened Outcomes
  import opened Topology
  import opened Names

  datatype ServiceState = Started | Starting | Stopping | Stopped | Unknown

  /** A service entity: its type, its run state and its service-level config. */
  datatype ServiceInfo = ServiceInfo(serviceType: string, state: ServiceState, config: Config)

  /** A role instance: its role type, the host it runs on, its own config. */
  datatype Role = Role(roleType: string, host: string, config: Config)

  /** A cluster entity and the hostnames enrolled in it. */
  datatype ClusterInfo = ClusterInfo(version: string, fullVersion: string, hosts: seq<string>)

  /** What the run asked of the control plane, in order: protocol steps of
      the services, bootstrap commands and cluster-wide commands. */
  datatype Event =
    | Deployed(service: string)
    | PreStarted(service: string)
    | PostStarted(service: string)
    | Issued(service: string, command: string)
    | CommandFailed(service: string, command: string)
    | ClusterStopped
    | ClusterStarted
    | MgmtStarted
    | ClientConfigDeployed

  /** The control plane's state. `services`, `groupConfigs` and `roles`
      belong to the cluster the run works on; the management service and
      its roles are kept apart, as the control plane keeps them. */
  class Remote {
    var clusters: map<string, ClusterInfo>
    var services: map<string, ServiceInfo>
    var groupConfigs: map<string, Config>
    var roles: map<string, Role>
    var mgmt: Option<ServiceInfo>
    var mgmtRoles: map<string, Role>
    /** The value of the `REMOTE_PARCEL_REPO_URLS` setting; unset is `None`. */
    var repoUrls: Option<string>
    /** Its default, used while the value is unset or empty. */
    const repoUrlsDefault: string
    /** The role types the control plane offers for each service type; a
        new service gets one base role-config group per role type. */
    const roleTypes: map<string, set<string>>
    var log: seq<Event>

    constructor (repoUrlsDefault: string, roleTypes: map<string, set<string>>)
      ensures this.repoUrlsDefault == repoUrlsDefault && this.roleTypes == roleTypes
      ensures clusters == map[] && services == map[] && groupConfigs == map[] && roles == map[]
      ensures mgmt == None && mgmtRoles == map[] && repoUrls == None && log == []
    {
      this.repoUrlsDefault := repoUrlsDefault;
      this.roleTypes := roleTypes;
      clusters, services, groupConfigs, roles := map[], map[], map[], map[];
      mgmt, mgmtRoles, repoUrls, log := None, map[], None, [];
    }

    function TypesOf(serviceType: string): set<string> {
      if serviceType in roleTypes then roleTypes[serviceType] else {}
    }
  }

  /** The base role-config groups a new service named `service` comes with. */
  function BaseGroups(service: string, types: set<string>): set<string> {
    set t | t in types :: GroupName(service, t)
  }

  /** The base role-config groups the management service comes with. */
  function MgmtBaseGroups(types: set<string>): set<string> {
    set t | t in types :: MgmtGroupName(t)
  }

  /** Adds empty configs for `names`, keeping any group that already exists. */
  function WithGroups(groups: map<string, Config>, names: set<string>): (r: map<string, Config>)
    ensures r.Keys == groups.Keys + names
    ensures forall g :: g in groups ==> r[g] == groups[g]
    ensures forall g :: g in names && g !in groups ==> r[g] == map[]
  {
    (map g | g in names :: map[]) + groups
  }

  /** Whether `spec` names the base group `g` of `service`. */
  predicate MergesInto(service: string, spec: RoleSpec, g: string) {
    spec.group.Some? && GroupName(service, spec.group.value) == g
  }

  /** What a role spec's `get_role_config_group(...).update_config(...)`
      does when it succeeds: the spec's config (absent: empty) is merged
      into the service's base group for the spec, the spec's value winning
      on a shared key. */
  function MergeSpec(groups: map<string, Config>, service: string, spec: RoleSpec): map<string, Config> {
    if spec.group.Some? && GroupName(service, spec.group.value) in groups then
      var g := GroupName(service, spec.group.value);
      groups[g := groups[g] + spec.config.GetOr(map[])]
    else groups
  }

  /** The groups after the specs' merges, in list order. */
  function MergedGroups(groups: map<string, Config>, service: string, specs: seq<RoleSpec>): (r: map<string, Config>)
    ensures r.Keys == groups.Keys
    decreases |specs|
  {
    if specs == [] then groups
    else MergeSpec(MergedGroups(groups, service, specs[..|specs| - 1]), service, specs[|specs| - 1])
  }

  /** The configs of the specs that name group `g`, merged in list order. */
  function ConfigsFor(service: string, specs: seq<RoleSpec>, g: string): Config
    decreases |specs|
  {
    if specs == [] then map[]
    else
      var last := specs[|specs| - 1];
      ConfigsFor(service, specs[..|specs| - 1], g) + if MergesInto(service, last, g) then last.config.GetOr(map[]) else map[]
  }

  /** One more spec is one more merge. */
  lemma MergedGroupsSnoc(groups: map<string, Config>, service: string, specs: seq<RoleSpec>, j: nat)
    requires j < |specs|
    ensures MergedGroups(groups, service, specs[..j + 1]) == MergeSpec(MergedGroups(groups, service, specs[..j]), service, specs[j])
  {
    assert specs[..j + 1][..j] == specs[..j];
  }

  /** Group by group, the merges leave the group's earlier settings
      overridden by those of the specs naming it, later specs winning; a
      group no spec names keeps its config. */
  lemma {:induction false} MergedGroupsPerGroup(groups: map<string, Config>, service: string, specs: seq<RoleSpec>, g: string)
    requires g in groups
    ensures MergedGroups(groups, service, specs)[g] == groups[g] + ConfigsFor(service, specs, g)
    decreases |specs|
  {
    if specs == [] {
      UnionEmpty(groups[g]);
    } else {
      var front, last := specs[..|specs| - 1], specs[|specs| - 1];
      MergedGroupsPerGroup(groups, service, front, g);
      var before := ConfigsFor(service, front, g);
      if MergesInto(service, last, g) {
        UnionAssoc(groups[g], before, last.config.GetOr(map[]));
      } else {
        UnionEmpty(before);
      }
    }
  }

  lemma UnionEmpty(a: Config)
    ensures a + map[] == a
  {
  }

  lemma UnionAssoc(a: Config, b: Config, c: Config)
    ensures a + b + c == a + (b + c)
  {
  }

  /** `b` still has every management group of `a`, unchanged. */
  predicate MgmtGroupsKept(a: map<string, Config>, b: map<string, Config>) {
    forall g {:trigger IsMgmtGroup(g)} :: g in a && IsMgmtGroup(g) ==> g in b && b[g] == a[g]
  }

  lemma MgmtGroupsKeptTrans(a: map<string, Config>, b: map<string, Config>, c: map<string, Config>)
    requires MgmtGroupsKept(a, b) && MgmtGroupsKept(b, c)
    ensures MgmtGroupsKept(a, c)
  {
  }

  /** `after` still has every role of `before`, of the same type on the
      same host. */
  predicate RolesPlaced(before: map<string, Role>, after: map<string, Role>) {
    forall k :: k in before ==> k in after && after[k].roleType == before[k].roleType && after[k].host == before[k].host
  }

  lemma RolesPlacedTrans(a: map<string, Role>, b: map<string, Role>, c: map<string, Role>)
    requires RolesPlaced(a, b) && RolesPlaced(b, c)
    ensures RolesPlaced(a, c)
  {
  }

  /** Every service of the cluster in run state `st`, as a cluster-wide stop
      or start leaves them. */
  function AllIn(services: map<string, ServiceInfo>, st: ServiceState): (r: map<string, ServiceInfo>)
    ensures r.Keys == services.Keys
    ensures forall k :: k in r ==> r[k].state == st && r[k].config == services[k].config
  {
    map k | k in services :: services[k].(state := st)
  }

  /** The log with only the protocol steps and the cluster-wide stop and
      start kept: the order the orchestration promises. */
  function Markers(log: seq<Event>): seq<Event> {
    MarkersOf(log, |log|)
  }

  /** The markers among the first `n` events of `log`. */
  function MarkersOf(log: seq<Event>, n: nat): seq<Event>
    requires n <= |log|
    decreases n
  {
    if n == 0 then [] else MarkersOf(log, n - 1) + (if IsMarker(log[n - 1]) then [log[n - 1]] else [])
  }

  predicate IsMarker(e: Event) {
    e.Deployed? || e.PreStarted? || e.PostStarted? || e.ClusterStopped? || e.ClusterStarted?
  }

  /** Events appended after position `n` do not change the markers before
      it. */
  lemma {:induction false} MarkersOfPrefix(a: seq<Event>, b: seq<Event>, n: nat)
    requires n <= |a|
    ensures MarkersOf(a + b, n) == MarkersOf(a, n)
    decreases n
  {
    if n > 0 {
      MarkersOfPrefix(a, b, n - 1);
      assert (a + b)[n - 1] == a[n - 1];
    }
  }

  lemma {:induction false} MarkersOfAppend(a: seq<Event>, b: seq<Event>, m: nat)
    requires m <= |b|
    ensures MarkersOf(a + b, |a| + m) == Markers(a) + MarkersOf(b, m)
    decreases m
  {
    if m == 0 {
      MarkersOfPrefix(a, b, |a|);
    } else {
      MarkersOfAppend(a, b, m - 1);
      assert (a + b)[|a| + m - 1] == b[m - 1];
    }
  }

  /** A prefix one longer is the prefix and the next element. */
  lemma PrefixSnoc<T>(s: seq<T>, k: nat)
    requires k < |s|
    ensures s[..k + 1] == s[..k] + [s[k]]
  {
  }

  lemma AppendFour(start: seq<Event>, w: seq<Event>, x: seq<Event>, y: seq<Event>, z: seq<Event>)
    ensures start + w + x + y + z == start + (w + x + y + z)
  {
  }

  lemma AppendThree(start: seq<Event>, x: seq<Event>, y: seq<Event>, z: seq<Event>)
    ensures start + (x + y + z) == start + x + y + z
  {
  }

  /** A log that grows by `x` and then by `y` has grown by `x + y`. */
  lemma LogGrows(start: seq<Event>, mid: seq<Event>, end: seq<Event>, x: seq<Event>, y: seq<Event>)
    requires mid == start + x && end == mid + y
    ensures end == start + (x + y)
  {
  }

  lemma MarkersAppend(a: seq<Event>, b: seq<Event>)
    ensures Markers(a + b) == Markers(a) + Markers(b)
  {
    MarkersOfAppend(a, b, |b|);
  }

  lemma MarkersOne(e: Event)
    ensures Markers([e]) == if IsMarker(e) then [e] else []
  {
    assert MarkersOf([e], 0) == [];
  }
}
