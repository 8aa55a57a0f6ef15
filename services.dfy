/** The service deployment protocol: one `Service` object per service kind,
    which gets or creates its service entity, pushes configuration, creates
    the role instances the description asks for, and issues the kind's
    bootstrap commands before and after the cluster starts. */
module Services {
  import opened Outcomes
  import opened Names
  import opened Topology
  import opened ControlPlane

  /** The service kinds the module has a class for. */
  datatype Kind = Zookeeper | Hdfs | Yarn | SparkOnYarn | Hbase | Hive | Impala | Flume | Oozie | Sqoop

  /** The class name of each kind, as the service lists spell it. */
  function ClassName(k: Kind): string {
    match k
    case Zookeeper => "Zookeeper"
    case Hdfs => "Hdfs"
    case Yarn => "Yarn"
    case SparkOnYarn => "Spark_On_Yarn"
    case Hbase => "Hbase"
    case Hive => "Hive"
    case Impala => "Impala"
    case Flume => "Flume"
    case Oozie => "Oozie"
    case Sqoop => "Sqoop"
  }

  /** The class lookup by name (`getattr` on the module): it finds exactly
      the kind with that class name, and nothing when there is none. */
  function KindNamed(s: string): (k: Option<Kind>)
    ensures k.Some? ==> ClassName(k.value) == s
    ensures k.None? ==> forall kind: Kind :: ClassName(kind) != s
  {
    if s == "Zookeeper" then Some(Zookeeper)
    else if s == "Hdfs" then Some(Hdfs)
    else if s == "Yarn" then Some(Yarn)
    else if s == "Spark_On_Yarn" then Some(SparkOnYarn)
    else if s == "Hbase" then Some(Hbase)
    else if s == "Hive" then Some(Hive)
    else if s == "Impala" then Some(Impala)
    else if s == "Flume" then Some(Flume)
    else if s == "Oozie" then Some(Oozie)
    else if s == "Sqoop" then Some(Sqoop)
    else None
  }

  /** The messages `deploy` fails with for a role spec without group or
      hosts, and for a service without roles. */
  function RoleSpecMessage(service: string): string {
    "[" + service + "] group and hosts should be specified per role"
  }

  function NoRolesMessage(service: string): string {
    "[" + service + "] Atleast one role should be specified per service"
  }

  /** `Service.name`: the upper-cased class name. It starts with a capital
      letter and has no lower-case letter. */
  function ServiceName(k: Kind): (n: string)
    ensures |n| == |ClassName(k)| && |n| > 0 && 'A' <= n[0] <= 'Z'
    ensures forall j :: 0 <= j < |n| ==> !('a' <= n[j] <= 'z')
  {
    Upper(ClassName(k))
  }

  /** A bootstrap command; `timeout` is the seconds waited for it, `None`
      when the module does not wait. */
  datatype Command = Command(name: string, timeout: Option<nat>)

  /** The commands each kind's `pre_start` issues, in order. YARN and Flume
      issue none; ZooKeeper's one command is not waited for; Oozie and
      Sqoop wait 300 seconds for each command, the others 60. */
  function PreStartCommands(k: Kind, service: string): (cmds: seq<Command>)
    ensures cmds == [] <==> k == Yarn || k == Flume
    ensures forall c :: c in cmds ==>
      c.timeout == if k == Zookeeper then None else if k == Oozie || k == Sqoop then Some(300) else Some(60)
  {
    match k
    case Zookeeper => [Command("InitZookeeper", None)]
    case Hdfs => [Command("FormatHdfs " + RoleName(service, "NAMENODE", 1), Some(60))]
    case SparkOnYarn => [Command("CreateSparkUserDirCommand", Some(60)),
                         Command("CreateSparkHistoryDirCommand", Some(60)),
                         Command("SparkUploadJarServiceCommand", Some(60))]
    case Hbase => [Command("CreateHbaseRoot", Some(60))]
    case Hive => [Command("CreateHiveWarehouse", Some(60))]
    case Impala => [Command("CreateImpalaUserDir", Some(60))]
    case Oozie => [Command("CreateOozieDb", Some(300)), Command("InstallOozieSharelib", Some(300))]
    case Sqoop => [Command("CreateSqoopUserDir", Some(300)), Command("CreateSqoopDatabaseTables", Some(300))]
    case Yarn => []
    case Flume => []
  }

  /** The commands each kind's `post_start` issues, in order: only HDFS,
      whose command is not waited for, and Hive, which waits 60 seconds for
      each, issue any. */
  function PostStartCommands(k: Kind): (cmds: seq<Command>)
    ensures cmds != [] <==> k == Hdfs || k == Hive
    ensures forall c :: c in cmds ==> c.timeout == if k == Hdfs then None else Some(60)
  {
    match k
    case Hdfs => [Command("CreateHdfsTmp", None)]
    case Hive => [Command("CreateHiveMetastoreDatabase", Some(60)),
                  Command("CreateHiveMetastoreTables", Some(60))]
    case _ => []
  }

  /** The log a command sequence leaves: each command is issued, and a
      waited-for command that does not succeed is reported, after which
      the next command is issued all the same. */
  function CommandEvents(service: string, cmds: seq<Command>, succeeded: string -> bool): seq<Event>
    decreases |cmds|
  {
    if cmds == [] then []
    else CommandEvents(service, cmds[..|cmds| - 1], succeeded) + CommandStep(service, cmds[|cmds| - 1], succeeded)
  }

  function CommandStep(service: string, c: Command, succeeded: string -> bool): seq<Event> {
    [Issued(service, c.name)] + if c.timeout.Some? && !succeeded(c.name) then [CommandFailed(service, c.name)] else []
  }

  /** The names of the commands issued in a log, in order. */
  function IssuedCommands(log: seq<Event>): seq<string>
    decreases |log|
  {
    if log == [] then []
    else IssuedCommands(log[..|log| - 1]) + if log[|log| - 1].Issued? then [log[|log| - 1].command] else []
  }

  function CommandNames(cmds: seq<Command>): seq<string>
    decreases |cmds|
  {
    if cmds == [] then [] else CommandNames(cmds[..|cmds| - 1]) + [cmds[|cmds| - 1].name]
  }

  lemma {:induction false} IssuedAppend(a: seq<Event>, b: seq<Event>)
    ensures IssuedCommands(a + b) == IssuedCommands(a) + IssuedCommands(b)
    decreases |b|
  {
    if b == [] {
      assert a + b == a;
    } else {
      assert (a + b)[..|a + b| - 1] == a + b[..|b| - 1];
      IssuedAppend(a, b[..|b| - 1]);
    }
  }

  /** A failed bootstrap command does not stop the hook: every command is
      issued, in order, whatever the outcomes. */
  lemma {:induction false} AllCommandsIssued(service: string, cmds: seq<Command>, succeeded: string -> bool)
    ensures IssuedCommands(CommandEvents(service, cmds, succeeded)) == CommandNames(cmds)
    decreases |cmds|
  {
    if cmds != [] {
      var c := cmds[|cmds| - 1];
      AllCommandsIssued(service, cmds[..|cmds| - 1], succeeded);
      IssuedAppend(CommandEvents(service, cmds[..|cmds| - 1], succeeded), CommandStep(service, c, succeeded));
      var step := CommandStep(service, c, succeeded);
      if c.timeout.Some? && !succeeded(c.name) {
        assert step == [Issued(service, c.name), CommandFailed(service, c.name)];
        assert step[..1] == [Issued(service, c.name)] && step[..1][..0] == [];
        assert IssuedCommands(step[..1]) == [c.name];
        assert IssuedCommands(step) == IssuedCommands(step[..1]);
      } else {
        assert step == [Issued(service, c.name)];
        assert step[..0] == [];
      }
    }
  }

  /** Bootstrap commands leave no protocol step in the log. */
  lemma {:induction false} CommandEventsHaveNoMarkers(service: string, cmds: seq<Command>, succeeded: string -> bool)
    ensures Markers(CommandEvents(service, cmds, succeeded)) == []
    decreases |cmds|
  {
    if cmds != [] {
      var c := cmds[|cmds| - 1];
      var step := CommandStep(service, c, succeeded);
      CommandEventsHaveNoMarkers(service, cmds[..|cmds| - 1], succeeded);
      MarkersAppend(CommandEvents(service, cmds[..|cmds| - 1], succeeded), step);
      MarkersOne(step[0]);
      if |step| == 2 {
        MarkersAppend(step[..1], step[1..]);
        MarkersOne(step[1]);
        assert step == step[..1] + step[1..];
      }
    }
  }

  /** The groups once the entity `name` exists: an entity the lookup does
      not find is created with its base groups. */
  function GroupsWithEntity(groups: map<string, Config>, services: map<string, ServiceInfo>, name: string, types: set<string>): map<string, Config> {
    if name in services then groups else WithGroups(groups, BaseGroups(name, types))
  }

  /** The role instance `create_roles` finds or places for ordinal `i`: the
      one already named so, or a new one of type `group` on host `i`. */
  function Placed(before: map<string, Role>, service: string, group: string, hosts: seq<string>, i: nat): Role
    requires 1 <= i <= |hosts|
  {
    var n := RoleName(service, group, i);
    if n in before then before[n] else Role(group, hosts[i - 1], map[])
  }

  /** Zookeeper's override gives each role its ordinal as `serverId`. */
  function WithServerId(r: Role, i: nat): Role {
    r.(config := r.config["serverId" := Number(i)])
  }

  /** The role `create_roles` of `kind` leaves for ordinal `i`: ZooKeeper's
      roles also get their `serverId`. */
  function PlacedOfKind(kind: Kind, before: map<string, Role>, service: string, group: string, hosts: seq<string>, i: nat): Role
    requires 1 <= i <= |hosts|
  {
    var r := Placed(before, service, group, hosts, i);
    if kind == Zookeeper then WithServerId(r, i) else r
  }

  /** A role whose `serverId` is `i`. */
  predicate ServerIdIs(r: Role, i: nat) {
    "serverId" in r.config && r.config["serverId"] == Number(i)
  }

  /** Every role of the first `n` specs that name a group and hosts exists
      and carries its ordinal as `serverId`. */
  ghost predicate ServerIdsSet(service: string, specs: seq<RoleSpec>, n: nat, roles: map<string, Role>)
    requires n <= |specs|
  {
    forall t, i {:trigger RoleName(service, specs[t].group.value, i)} ::
      0 <= t < n && specs[t].group.Some? && specs[t].hosts.Some? && 1 <= i <= |specs[t].hosts.value| ==>
        RoleName(service, specs[t].group.value, i) in roles &&
        ServerIdIs(roles[RoleName(service, specs[t].group.value, i)], i)
  }

  /** The first `n` specs passed the guard, named a group whose base group
      exists, listed hosts, and have all their roles. */
  ghost predicate SpecsDeployed(service: string, specs: seq<RoleSpec>, n: nat, groups: map<string, Config>, roles: map<string, Role>)
    requires n <= |specs|
  {
    forall t :: 0 <= t < n ==>
      !RoleGuardRaises(specs[t]) && specs[t].group.Some? && specs[t].hosts.Some? &&
      GroupName(service, specs[t].group.value) in groups &&
      forall i :: 1 <= i <= |specs[t].hosts.value| ==> RoleName(service, specs[t].group.value, i) in roles
  }

  /** Deploying one more spec keeps the `serverId`s set before: a role it
      touches again has the same ordinal in both names. */
  lemma ServerIdsStep(service: string, specs: seq<RoleSpec>, j: nat, before: map<string, Role>, after: map<string, Role>)
    requires j < |specs| && ServerIdsSet(service, specs, j, before)
    requires specs[j].group.Some? && specs[j].hosts.Some?
    requires forall i :: 1 <= i <= |specs[j].hosts.value| ==>
      RoleName(service, specs[j].group.value, i) in after && ServerIdIs(after[RoleName(service, specs[j].group.value, i)], i)
    requires forall k :: k in before ==> k in after
    requires forall k :: k in before && after[k] != before[k] ==>
      exists i :: 1 <= i <= |specs[j].hosts.value| && k == RoleName(service, specs[j].group.value, i)
    ensures ServerIdsSet(service, specs, j + 1, after)
  {
    forall t, i | 0 <= t < j + 1 && specs[t].group.Some? && specs[t].hosts.Some? && 1 <= i <= |specs[t].hosts.value|
      ensures RoleName(service, specs[t].group.value, i) in after &&
        ServerIdIs(after[RoleName(service, specs[t].group.value, i)], i)
    {
      var k := RoleName(service, specs[t].group.value, i);
      if t < j && after[k] != before[k] {
        var i' :| 1 <= i' <= |specs[j].hosts.value| && k == RoleName(service, specs[j].group.value, i');
        RoleNameOrdinal(service, specs[t].group.value, i, service, specs[j].group.value, i');
      }
    }
  }

  /** One of the first `n` role specs accounts for role `k`: it is the
      `i`-th role of the spec's group, on the spec's `i`-th host. */
  ghost predicate AccountedBy(service: string, specs: seq<RoleSpec>, n: nat, k: string, r: Role) {
    exists j, i {:trigger RoleName(service, specs[j].group.value, i)} ::
      0 <= j < n && j < |specs| && specs[j].group.Some? && specs[j].hosts.Some? &&
      1 <= i <= |specs[j].hosts.value| &&
      k == RoleName(service, specs[j].group.value, i) &&
      r.roleType == specs[j].group.value && r.host == specs[j].hosts.value[i - 1]
  }

  /** The per-role guard as written: `not role.get('group') and
      role.get('hosts')`. Python binds `not` tighter than `and`, so it
      rejects only a spec that lists hosts but names no group. */
  predicate RoleGuardRaises(spec: RoleSpec) {
    !Given(spec.group) && NonEmpty(spec.hosts)
  }

  /** What the guard's message asks of every spec: a group and hosts. */
  predicate RoleSpecComplete(spec: RoleSpec) {
    Given(spec.group) && NonEmpty(spec.hosts)
  }

  /** The guard as written lets through exactly the incomplete specs that
      have no hosts: a spec with a group and an empty or missing host list
      is not rejected, although its message says it should be. */
  lemma RoleGuardGap(spec: RoleSpec)
    ensures (!RoleGuardRaises(spec) && !RoleSpecComplete(spec)) <==> !NonEmpty(spec.hosts)
    ensures RoleGuardRaises(spec) ==> !RoleSpecComplete(spec)
  {
  }

  class Service {
    const kind: Kind
    const name: string
    const serviceType: string
    const config: ServiceConfig
    /** `self._service`: the run state of the entity as it was when first
        fetched or created; `None` until then. */
    var handle: Option<ServiceState>

    /** `Service(cluster, config)`: the type defaults to the name. */
    constructor (kind: Kind, config: ServiceConfig)
      ensures this.kind == kind && this.config == config
      ensures name == ServiceName(kind) && serviceType == name && handle == None
    {
      this.kind := kind;
      this.config := config;
      name := ServiceName(kind);
      serviceType := ServiceName(kind);
      handle := None;
    }

    /** A cached entity exists on the control plane. */
    ghost predicate Bound(remote: Remote)
      reads this, remote
    {
      handle.Some? ==> name in remote.services
    }

    /** The run state `started()` sees: the cached one, else the control
        plane's, else that of the entity about to be created. */
    ghost function Seen(remote: Remote): ServiceState
      reads this, remote
    {
      if handle.Some? then handle.value
      else if name in remote.services then remote.services[name].state
      else Stopped
    }

    /** The `service` property: fetch the entity by name, create it when the
        lookup fails, and cache it. */
    method Entity(remote: Remote) returns (state: ServiceState)
      modifies this`handle, remote`services, remote`groupConfigs
      ensures handle == Some(state) && state == old(Seen(remote))
      ensures old(handle).Some? || name in old(remote.services) ==>
        remote.services == old(remote.services) && remote.groupConfigs == old(remote.groupConfigs)
      ensures old(handle).None? && name !in old(remote.services) ==>
        remote.services == old(remote.services)[name := ServiceInfo(serviceType, Stopped, map[])] &&
        remote.groupConfigs == WithGroups(old(remote.groupConfigs), BaseGroups(name, remote.TypesOf(serviceType)))
      ensures old(Bound(remote)) ==> Bound(remote)
    {
      if handle.Some? {
        return handle.value;
      }
      if name in remote.services {
        state := remote.services[name].state;
      } else {
        remote.services := remote.services[name := ServiceInfo(serviceType, Stopped, map[])];
        remote.groupConfigs := WithGroups(remote.groupConfigs, BaseGroups(name, remote.TypesOf(serviceType)));
        state := Stopped;
      }
      handle := Some(state);
    }

    /** `create_roles`: for the `i`-th host of the spec, the role
        `NAME-group-i` is looked up and created on that host only if it is
        missing. Nothing else changes. */
    method CreateRoles(remote: Remote, spec: RoleSpec, group: string) returns (r: Outcome<()>)
      modifies remote`roles
      ensures spec.hosts.None? ==> r.Raise? && r.exc.Error? && remote.roles == old(remote.roles)
      ensures spec.hosts.Some? ==> r == Ok(())
      ensures spec.hosts.Some? ==> forall i :: 1 <= i <= |spec.hosts.value| ==>
        RoleName(name, group, i) in remote.roles &&
        remote.roles[RoleName(name, group, i)] == Placed(old(remote.roles), name, group, spec.hosts.value, i)
      ensures forall k :: k in old(remote.roles) ==> k in remote.roles
      ensures forall k :: k in remote.roles ==>
        (k in old(remote.roles) && remote.roles[k] == old(remote.roles)[k]) ||
        (spec.hosts.Some? && exists i :: 1 <= i <= |spec.hosts.value| && k == RoleName(name, group, i))
    {
      if spec.hosts.None? {
        return Raise(Error(MissingHosts));
      }
      var hosts := spec.hosts.value;
      var roleId := 0;
      while roleId < |hosts|
        invariant 0 <= roleId <= |hosts|
        invariant forall i :: 1 <= i <= roleId ==>
          RoleName(name, group, i) in remote.roles &&
          remote.roles[RoleName(name, group, i)] == Placed(old(remote.roles), name, group, hosts, i)
        invariant forall k :: k in old(remote.roles) ==> k in remote.roles
        invariant forall k :: k in remote.roles ==>
          (k in old(remote.roles) && remote.roles[k] == old(remote.roles)[k]) ||
          exists i :: 1 <= i <= roleId && k == RoleName(name, group, i)
      {
        roleId := roleId + 1;
        var roleName := RoleName(name, group, roleId);
        forall i | 1 <= i < roleId && RoleName(name, group, i) == roleName ensures false {
          RoleNameOrdinal(name, group, i, name, group, roleId);
        }
        if roleName !in remote.roles {
          remote.roles := remote.roles[roleName := Role(group, hosts[roleId - 1], map[])];
        }
      }
      r := Ok(());
    }

    /** `Zookeeper.create_roles`: as `create_roles`, and every role of the
        spec, found or created, gets its ordinal as `serverId`. */
    method CreateZookeeperRoles(remote: Remote, spec: RoleSpec, group: string) returns (r: Outcome<()>)
      modifies remote`roles
      ensures spec.hosts.None? ==> r.Raise? && r.exc.Error? && remote.roles == old(remote.roles)
      ensures spec.hosts.Some? ==> r == Ok(())
      ensures spec.hosts.Some? ==> forall i :: 1 <= i <= |spec.hosts.value| ==>
        RoleName(name, group, i) in remote.roles &&
        remote.roles[RoleName(name, group, i)] == WithServerId(Placed(old(remote.roles), name, group, spec.hosts.value, i), i)
      ensures forall k :: k in old(remote.roles) ==> k in remote.roles
      ensures forall k :: k in remote.roles ==>
        (k in old(remote.roles) && remote.roles[k] == old(remote.roles)[k]) ||
        (spec.hosts.Some? && exists i :: 1 <= i <= |spec.hosts.value| && k == RoleName(name, group, i))
    {
      if spec.hosts.None? {
        return Raise(Error(MissingHosts));
      }
      var hosts := spec.hosts.value;
      var roleId := 0;
      while roleId < |hosts|
        invariant 0 <= roleId <= |hosts|
        invariant forall i :: 1 <= i <= roleId ==>
          RoleName(name, group, i) in remote.roles &&
          remote.roles[RoleName(name, group, i)] == WithServerId(Placed(old(remote.roles), name, group, hosts, i), i)
        invariant forall k :: k in old(remote.roles) ==> k in remote.roles
        invariant forall k :: k in remote.roles ==>
          (k in old(remote.roles) && remote.roles[k] == old(remote.roles)[k]) ||
          exists i :: 1 <= i <= roleId && k == RoleName(name, group, i)
      {
        roleId := roleId + 1;
        var roleName := RoleName(name, group, roleId);
        forall i | 1 <= i < roleId && RoleName(name, group, i) == roleName ensures false {
          RoleNameOrdinal(name, group, i, name, group, roleId);
        }
        var role;
        if roleName in remote.roles {
          role := remote.roles[roleName];
        } else {
          role := Role(group, hosts[roleId - 1], map[]);
        }
        remote.roles := remote.roles[roleName := WithServerId(role, roleId)];
      }
      r := Ok(());
    }

    /** The `create_roles` of this service's class. */
    method CreateRolesOfKind(remote: Remote, spec: RoleSpec, group: string) returns (r: Outcome<()>)
      modifies remote`roles
      ensures spec.hosts.None? ==> r.Raise? && remote.roles == old(remote.roles)
      ensures spec.hosts.Some? ==> r == Ok(())
      ensures spec.hosts.Some? ==> forall i :: 1 <= i <= |spec.hosts.value| ==>
        RoleName(name, group, i) in remote.roles &&
        remote.roles[RoleName(name, group, i)] == PlacedOfKind(kind, old(remote.roles), name, group, spec.hosts.value, i)
      ensures forall k :: k in old(remote.roles) ==> (k in remote.roles &&
        remote.roles[k].roleType == old(remote.roles)[k].roleType && remote.roles[k].host == old(remote.roles)[k].host)
      ensures kind != Zookeeper ==> forall k :: k in old(remote.roles) ==> remote.roles[k] == old(remote.roles)[k]
      ensures forall k :: k in remote.roles ==>
        (k in old(remote.roles) && remote.roles[k] == old(remote.roles)[k]) ||
        (spec.hosts.Some? && exists i :: 1 <= i <= |spec.hosts.value| && k == RoleName(name, group, i))
    {
      if kind == Zookeeper {
        r := CreateZookeeperRoles(remote, spec, group);
      } else {
        r := CreateRoles(remote, spec, group);
      }
      if spec.hosts.Some? {
        forall k | k in old(remote.roles)
          ensures remote.roles[k].roleType == old(remote.roles)[k].roleType && remote.roles[k].host == old(remote.roles)[k].host
        {
          if remote.roles[k] != old(remote.roles)[k] {
            var i :| 1 <= i <= |spec.hosts.value| && k == RoleName(name, group, i);
          }
        }
      }
    }

    /** The service-level config the entity has before `deploy` pushes. */
    ghost function SeenConfig(remote: Remote): Config
      reads remote
    {
      if name in remote.services then remote.services[name].config else map[]
    }

    /** The body of `deploy`'s loop for one role spec: the guard, the base
        role-config group `NAME-group-BASE` (which must exist) gets the
        spec's config, then the spec's role instances are created where
        missing. */
    method DeployRoleSpec(remote: Remote, spec: RoleSpec) returns (r: Outcome<()>)
      modifies remote`groupConfigs, remote`roles
      ensures RoleGuardRaises(spec) || spec.group.None? ==>
        r.Raise? && r.exc.Error? && remote.groupConfigs == old(remote.groupConfigs) && remote.roles == old(remote.roles)
      ensures SpecTouched(spec, old(remote.groupConfigs), old(remote.roles), remote.groupConfigs, remote.roles)
      ensures r.Ok? ==> SpecPlaced(spec, old(remote.groupConfigs), old(remote.roles), remote.groupConfigs, remote.roles)
    {
      if RoleGuardRaises(spec) {
        return Raise(Error(RoleSpecMessage(name)));
      }
      if spec.group.None? {
        return Raise(Error(MissingGroup));
      }
      var group := spec.group.value;
      var groupName := GroupName(name, group);
      if groupName !in remote.groupConfigs {
        return Raise(ApiError(GroupNotFound(groupName)));
      }
      remote.groupConfigs := remote.groupConfigs[groupName := remote.groupConfigs[groupName] + spec.config.GetOr(map[])];
      r := CreateRolesOfKind(remote, spec, group);
    }

    /** `deploy`'s loop over the role specs, in order, stopping at the first
        that raises. */
    method DeployRoleSpecs(remote: Remote, specs: seq<RoleSpec>) returns (r: Outcome<()>)
      modifies remote`groupConfigs, remote`roles
      ensures GroupsTouched(specs, old(remote.groupConfigs), remote.groupConfigs)
      ensures RolesGrown(specs, |specs|, old(remote.roles), remote.roles)
      ensures r.Ok? ==> DeployedThrough(specs, |specs|, old(remote.groupConfigs), remote.groupConfigs, remote.roles)
    {
      var j := 0;
      while j < |specs|
        invariant 0 <= j <= |specs|
        invariant GroupsTouched(specs, old(remote.groupConfigs), remote.groupConfigs)
        invariant RolesGrown(specs, j, old(remote.roles), remote.roles)
        invariant DeployedThrough(specs, j, old(remote.groupConfigs), remote.groupConfigs, remote.roles)
      {
        ghost var before, groupsBefore := remote.roles, remote.groupConfigs;
        r := DeployRoleSpec(remote, specs[j]);
        SpecsStep(specs, j, old(remote.groupConfigs), old(remote.roles), groupsBefore, before,
          remote.groupConfigs, remote.roles, r.Ok?);
        if r.Raise? {
          return;
        }
        j := j + 1;
      }
      assert specs[..j] == specs;
      r := Ok(());
    }

    /** The part of the loop's invariant that the specs `0 .. j - 1`
        establish, from the groups `groups0` the loop started from. */
    ghost predicate DeployedThrough(specs: seq<RoleSpec>, j: nat, groups0: map<string, Config>,
                                    groups: map<string, Config>, roles: map<string, Role>)
      requires j <= |specs|
    {
      groups == MergedGroups(groups0, name, specs[..j]) && SpecsDeployed(name, specs, j, groups, roles) &&
      (kind == Zookeeper ==> ServerIdsSet(name, specs, j, roles))
    }

    /** What deploying `spec` may do to the groups and roles, whether or
        not it raises: group names are kept and only the spec's base group
        changes; roles keep their type and host, only the spec's own roles
        change (ZooKeeper's `serverId`), and each new role is the spec's,
        on the host of its ordinal. */
    ghost predicate SpecTouched(spec: RoleSpec, groups: map<string, Config>, roles: map<string, Role>,
                                groups': map<string, Config>, roles': map<string, Role>)
    {
      groups'.Keys == groups.Keys &&
      (forall g :: g in groups && groups'[g] != groups[g] ==> spec.group.Some? && g == GroupName(name, spec.group.value)) &&
      RolesPlaced(roles, roles') &&
      (forall k :: k in roles && roles'[k] != roles[k] ==>
        spec.group.Some? && spec.hosts.Some? &&
        exists i :: 1 <= i <= |spec.hosts.value| && k == RoleName(name, spec.group.value, i)) &&
      (kind != Zookeeper ==> forall k :: k in roles ==> roles'[k] == roles[k]) &&
      (forall k :: k in roles' && k !in roles ==>
        spec.group.Some? && spec.hosts.Some? &&
        exists i ::
          1 <= i <= |spec.hosts.value| && k == RoleName(name, spec.group.value, i) &&
          roles'[k].roleType == spec.group.value && roles'[k].host == spec.hosts.value[i - 1])
    }

    /** What deploying `spec` without raising leaves: the spec passed the
        guard, its config is merged into its base group, which existed, and
        each of its hosts has the role of its ordinal. */
    ghost predicate SpecPlaced(spec: RoleSpec, groups: map<string, Config>, roles: map<string, Role>,
                               groups': map<string, Config>, roles': map<string, Role>)
    {
      !RoleGuardRaises(spec) && spec.group.Some? && spec.hosts.Some? &&
      GroupName(name, spec.group.value) in groups && groups' == MergeSpec(groups, name, spec) &&
      forall i :: 1 <= i <= |spec.hosts.value| ==>
        RoleName(name, spec.group.value, i) in roles' &&
        roles'[RoleName(name, spec.group.value, i)] == PlacedOfKind(kind, roles, name, spec.group.value, spec.hosts.value, i)
    }

    /** One more spec keeps the invariants of the loop of `deploy`: a
        success extends what is deployed by that spec, and the roles added
        so far are accounted for by the whole list. */
    lemma SpecsStep(specs: seq<RoleSpec>, j: nat, groups0: map<string, Config>, roles0: map<string, Role>,
                    groups: map<string, Config>, roles: map<string, Role>,
                    groups': map<string, Config>, roles': map<string, Role>, ok: bool)
      requires j < |specs| && GroupsTouched(specs, groups0, groups) && RolesGrown(specs, j, roles0, roles)
      requires DeployedThrough(specs, j, groups0, groups, roles)
      requires SpecTouched(specs[j], groups, roles, groups', roles')
      requires ok ==> SpecPlaced(specs[j], groups, roles, groups', roles')
      ensures GroupsTouched(specs, groups0, groups') && RolesGrown(specs, j + 1, roles0, roles')
      ensures RolesGrown(specs, |specs|, roles0, roles')
      ensures ok ==> DeployedThrough(specs, j + 1, groups0, groups', roles')
    {
      RolesGrownStep(specs, j, roles0, roles, roles');
      GroupsTouchedStep(specs, j, groups0, groups, groups');
      RolesGrownMonotone(specs, j + 1, |specs|, roles0, roles');
      if ok {
        DeployedStep(specs, j, groups0, groups, roles, groups', roles');
      }
    }

    /** A spec deployed without raising extends the invariant by one. */
    lemma DeployedStep(specs: seq<RoleSpec>, j: nat, groups0: map<string, Config>,
                       groups: map<string, Config>, roles: map<string, Role>,
                       groups': map<string, Config>, roles': map<string, Role>)
      requires j < |specs| && DeployedThrough(specs, j, groups0, groups, roles)
      requires !RoleGuardRaises(specs[j]) && specs[j].group.Some? && specs[j].hosts.Some?
      requires GroupName(name, specs[j].group.value) in groups && groups' == MergeSpec(groups, name, specs[j])
      requires forall i :: 1 <= i <= |specs[j].hosts.value| ==>
        RoleName(name, specs[j].group.value, i) in roles' &&
        roles'[RoleName(name, specs[j].group.value, i)] == PlacedOfKind(kind, roles, name, specs[j].group.value, specs[j].hosts.value, i)
      requires forall k :: k in roles ==> k in roles'
      requires forall k :: k in roles && roles'[k] != roles[k] ==>
        exists i :: 1 <= i <= |specs[j].hosts.value| && k == RoleName(name, specs[j].group.value, i)
      ensures DeployedThrough(specs, j + 1, groups0, groups', roles')
    {
      MergedGroupsSnoc(groups0, name, specs, j);
      if kind == Zookeeper {
        ServerIdsStep(name, specs, j, roles, roles');
      }
    }

    /** The groups keep their names, and only the base groups of the
        specs change. */
    ghost predicate GroupsTouched(specs: seq<RoleSpec>, groups0: map<string, Config>, groups: map<string, Config>) {
      groups.Keys == groups0.Keys &&
      forall g :: g in groups0 && groups[g] != groups0[g] ==>
        exists spec :: spec in specs && spec.group.Some? && g == GroupName(name, spec.group.value)
    }

    lemma GroupsTouchedStep(specs: seq<RoleSpec>, j: nat, groups0: map<string, Config>,
                            groups: map<string, Config>, groups': map<string, Config>)
      requires j < |specs| && GroupsTouched(specs, groups0, groups)
      requires groups'.Keys == groups.Keys
      requires forall g :: g in groups && groups'[g] != groups[g] ==>
        specs[j].group.Some? && g == GroupName(name, specs[j].group.value)
      ensures GroupsTouched(specs, groups0, groups')
    {
      forall g | g in groups0 && groups'[g] != groups0[g]
        ensures exists spec :: spec in specs && spec.group.Some? && g == GroupName(name, spec.group.value)
      {
        if groups'[g] != groups[g] {
          assert specs[j] in specs;
        }
      }
    }

    /** The roles `roles0` had keep their type and host (and, but for
        ZooKeeper's `serverId`, their config); every new role is one that
        the first `n` specs account for. */
    ghost predicate RolesGrown(specs: seq<RoleSpec>, n: nat, roles0: map<string, Role>, roles: map<string, Role>) {
      (forall k :: k in roles0 ==> k in roles && roles[k].roleType == roles0[k].roleType && roles[k].host == roles0[k].host) &&
      (kind != Zookeeper ==> forall k :: k in roles0 ==> roles[k] == roles0[k]) &&
      (forall k :: k in roles && k !in roles0 ==> AccountedBy(name, specs, n, k, roles[k]))
    }

    /** Accounting by fewer specs is accounting by more. */
    lemma RolesGrownMonotone(specs: seq<RoleSpec>, m: nat, n: nat, roles0: map<string, Role>, roles: map<string, Role>)
      requires m <= n && RolesGrown(specs, m, roles0, roles)
      ensures RolesGrown(specs, n, roles0, roles)
    {
      forall k | k in roles && k !in roles0
        ensures AccountedBy(name, specs, n, k, roles[k])
      {
        assert AccountedBy(name, specs, m, k, roles[k]);
      }
    }

    /** The roles one more spec adds are accounted for by that spec. */
    lemma RolesGrownStep(specs: seq<RoleSpec>, j: nat, start: map<string, Role>, before: map<string, Role>, after: map<string, Role>)
      requires j < |specs| && RolesGrown(specs, j, start, before)
      requires forall k :: k in before ==> (k in after && after[k].roleType == before[k].roleType && after[k].host == before[k].host)
      requires kind != Zookeeper ==> forall k :: k in before ==> after[k] == before[k]
      requires forall k :: k in after && k !in before ==>
        specs[j].group.Some? && specs[j].hosts.Some? &&
        exists i ::
          1 <= i <= |specs[j].hosts.value| && k == RoleName(name, specs[j].group.value, i) &&
          after[k].roleType == specs[j].group.value && after[k].host == specs[j].hosts.value[i - 1]
      ensures RolesGrown(specs, j + 1, start, after)
    {
      forall k | k in after && k !in start
        ensures AccountedBy(name, specs, j + 1, k, after[k])
      {
        if k in before {
          assert AccountedBy(name, specs, j, k, before[k]);
        } else {
          var i :| 1 <= i <= |specs[j].hosts.value| && k == RoleName(name, specs[j].group.value, i) &&
            after[k].roleType == specs[j].group.value && after[k].host == specs[j].hosts.value[i - 1];
        }
      }
    }

    /** `deploy`. A service already started is left alone. Otherwise the
        service config is pushed, the roles list must be non-empty, and the
        role specs are deployed in order. */
    method Deploy(remote: Remote) returns (r: Outcome<()>)
      requires Bound(remote)
      modifies this`handle, remote`services, remote`groupConfigs, remote`roles
      ensures handle.Some? && Bound(remote)
      ensures old(Seen(remote)) == Started ==>
        r == Ok(()) && remote.services == old(remote.services) &&
        remote.groupConfigs == old(remote.groupConfigs) && remote.roles == old(remote.roles)
      ensures old(Seen(remote)) != Started ==>
        name in remote.services &&
        remote.services[name].config == old(SeenConfig(remote)) + config.settings.GetOr(map[])
      ensures forall k :: k in old(remote.services) && k != name ==>
        k in remote.services && remote.services[k] == old(remote.services)[k]
      ensures remote.services.Keys <= old(remote.services).Keys + {name}
      ensures old(Seen(remote)) != Started && !NonEmpty(config.roles) ==> r.Raise? && r.exc.Error?
      ensures !NonEmpty(config.roles) ==> (remote.roles == old(remote.roles) &&
        forall g :: g in old(remote.groupConfigs) ==>
          g in remote.groupConfigs && remote.groupConfigs[g] == old(remote.groupConfigs)[g])
      ensures remote.groupConfigs.Keys <= old(remote.groupConfigs).Keys + BaseGroups(name, remote.TypesOf(serviceType))
      ensures forall g :: g in old(remote.groupConfigs) ==> g in remote.groupConfigs
      ensures forall g :: g in old(remote.groupConfigs) && remote.groupConfigs[g] != old(remote.groupConfigs)[g] ==>
        config.roles.Some? && exists spec :: spec in config.roles.value && spec.group.Some? && g == GroupName(name, spec.group.value)
      ensures forall k :: k in old(remote.roles) ==> (k in remote.roles &&
        remote.roles[k].roleType == old(remote.roles)[k].roleType && remote.roles[k].host == old(remote.roles)[k].host)
      ensures kind != Zookeeper ==> forall k :: k in old(remote.roles) ==> remote.roles[k] == old(remote.roles)[k]
      ensures forall k :: k in remote.roles && k !in old(remote.roles) ==>
        config.roles.Some? && AccountedBy(name, config.roles.value, |config.roles.value|, k, remote.roles[k])
      ensures r.Ok? && old(Seen(remote)) != Started ==>
        NonEmpty(config.roles) && Specified(old(EntityGroups(remote)), remote.groupConfigs, remote.roles)
    {
      var state := Entity(remote);
      if state == Started {
        return Ok(());
      }
      r := DeployStopped(remote);
    }

    /** The groups once the entity exists. */
    ghost function EntityGroups(remote: Remote): map<string, Config>
      reads this, remote
    {
      if handle.Some? then remote.groupConfigs
      else GroupsWithEntity(remote.groupConfigs, remote.services, name, remote.TypesOf(serviceType))
    }

    /** What a successful `deploy` leaves, from the groups `groups0` it
        started from: every spec's config merged into its group, in order;
        every spec passed the guard and has all its roles; ZooKeeper's
        roles carry their ordinals. */
    ghost predicate Specified(groups0: map<string, Config>, groups: map<string, Config>, roles: map<string, Role>)
      requires NonEmpty(config.roles)
    {
      var specs := config.roles.value;
      groups == MergedGroups(groups0, name, specs) && SpecsDeployed(name, specs, |specs|, groups, roles) &&
      (kind == Zookeeper ==> ServerIdsSet(name, specs, |specs|, roles))
    }

    /** What `deploy` does on a service object that has not fetched its
        entity yet, from the entities `services0`, groups `groups0` and
        roles `roles0` it finds (`types`: the role types of a new entity):
        an entity already started is left alone and the call succeeds;
        otherwise the service config is pushed and a success deploys every
        role spec. */
    ghost predicate DeployedFrom(ok: bool, types: set<string>, services0: map<string, ServiceInfo>, groups0: map<string, Config>,
                                 roles0: map<string, Role>, services: map<string, ServiceInfo>, groups: map<string, Config>,
                                 roles: map<string, Role>)
    {
      var started := name in services0 && services0[name].state == Started;
      (started ==> ok && services == services0 && groups == groups0 && roles == roles0) &&
      (!started ==> (name in services &&
        services[name].config == (if name in services0 then services0[name].config else map[]) + config.settings.GetOr(map[]))) &&
      (ok && !started ==> NonEmpty(config.roles) && Specified(GroupsWithEntity(groups0, services0, name, types), groups, roles))
    }

    /** The part of `deploy` after the started check: push the service
        config, demand a non-empty roles list, deploy the role specs. */
    method DeployStopped(remote: Remote) returns (r: Outcome<()>)
      requires name in remote.services
      modifies remote`services, remote`groupConfigs, remote`roles
      ensures remote.services == old(remote.services)[name := old(remote.services)[name].(config :=
        old(remote.services)[name].config + config.settings.GetOr(map[]))]
      ensures !NonEmpty(config.roles) ==>
        r.Raise? && r.exc.Error? && remote.roles == old(remote.roles) && remote.groupConfigs == old(remote.groupConfigs)
      ensures remote.groupConfigs.Keys == old(remote.groupConfigs).Keys
      ensures forall g :: g in old(remote.groupConfigs) && remote.groupConfigs[g] != old(remote.groupConfigs)[g] ==>
        config.roles.Some? && exists spec :: spec in config.roles.value && spec.group.Some? && g == GroupName(name, spec.group.value)
      ensures forall k :: k in old(remote.roles) ==> (k in remote.roles &&
        remote.roles[k].roleType == old(remote.roles)[k].roleType && remote.roles[k].host == old(remote.roles)[k].host)
      ensures kind != Zookeeper ==> forall k :: k in old(remote.roles) ==> remote.roles[k] == old(remote.roles)[k]
      ensures forall k :: k in remote.roles && k !in old(remote.roles) ==>
        config.roles.Some? && AccountedBy(name, config.roles.value, |config.roles.value|, k, remote.roles[k])
      ensures r.Ok? ==> NonEmpty(config.roles) && Specified(old(remote.groupConfigs), remote.groupConfigs, remote.roles)
    {
      var entity := remote.services[name];
      remote.services := remote.services[name := entity.(config := entity.config + config.settings.GetOr(map[]))];
      if !NonEmpty(config.roles) {
        return Raise(Error(NoRolesMessage(name)));
      }
      var specs := config.roles.value;
      r := DeployRoleSpecs(remote, specs);
      assert specs[..|specs|] == specs;
    }

    /** Issues bootstrap commands in order, waiting for those with a
        timeout; a failure is reported and the next command issued. */
    method RunCommands(remote: Remote, cmds: seq<Command>, succeeded: string -> bool)
      modifies remote`log
      ensures remote.log == old(remote.log) + CommandEvents(name, cmds, succeeded)
    {
      var k := 0;
      while k < |cmds|
        invariant 0 <= k <= |cmds|
        invariant remote.log == old(remote.log) + CommandEvents(name, cmds[..k], succeeded)
      {
        var c := cmds[k];
        remote.log := remote.log + [Issued(name, c.name)];
        if c.timeout.Some? && !succeeded(c.name) {
          remote.log := remote.log + [CommandFailed(name, c.name)];
        }
        assert cmds[..k + 1][..k] == cmds[..k];
        k := k + 1;
      }
      assert cmds[..k] == cmds;
    }

    /** `pre_start`: the kind's commands before the cluster starts. A kind
        without commands does not touch the entity. */
    method PreStart(remote: Remote, succeeded: string -> bool)
      modifies this`handle, remote`services, remote`groupConfigs, remote`log
      ensures remote.log == old(remote.log) + CommandEvents(name, PreStartCommands(kind, name), succeeded)
      ensures old(handle).Some? || PreStartCommands(kind, name) == [] ==>
        handle == old(handle) && remote.services == old(remote.services) && remote.groupConfigs == old(remote.groupConfigs)
      ensures old(handle).None? && PreStartCommands(kind, name) != [] ==> handle.Some?
      ensures old(Bound(remote)) ==> Bound(remote)
    {
      var cmds := PreStartCommands(kind, name);
      if cmds != [] {
        var _ := Entity(remote);
      }
      RunCommands(remote, cmds, succeeded);
    }

    /** `post_start`: the kind's commands after the cluster has started. */
    method PostStart(remote: Remote, succeeded: string -> bool)
      modifies this`handle, remote`services, remote`groupConfigs, remote`log
      ensures remote.log == old(remote.log) + CommandEvents(name, PostStartCommands(kind), succeeded)
      ensures old(handle).Some? || PostStartCommands(kind) == [] ==>
        handle == old(handle) && remote.services == old(remote.services) && remote.groupConfigs == old(remote.groupConfigs)
      ensures old(handle).None? && PostStartCommands(kind) != [] ==> handle.Some?
      ensures old(Bound(remote)) ==> Bound(remote)
    {
      var cmds := PostStartCommands(kind);
      if cmds != [] {
        var _ := Entity(remote);
      }
      RunCommands(remote, cmds, succeeded);
    }
  }
}
