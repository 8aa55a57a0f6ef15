# Cluster bring-up orchestration, modelled in Dafny

This project models the orchestration engine of an Ansible module. The module
brings up a Hadoop-style cluster against the Cloudera Manager control plane:

- it creates the cluster entity and enrolls the listed hosts;
- it installs the CDH parcel: validation, download, distribution, activation;
- it waits for host inspection and deploys the management (`MGMT`) services;
- it configures and starts the base services (`Zookeeper`, `Hdfs`, `Yarn`)
  after stopping the cluster, then the additional services, and deploys the
  client configuration.

The control plane is the class `ControlPlane.Remote`. Its fields are the clusters
and their hosts, the service entities, the role-config groups, the role
instances, the management service and its roles, and the
`REMOTE_PARCEL_REPO_URLS` setting. A log of the protocol steps and
bootstrap commands the run issued is kept as well. The operations are methods
that change those fields in place, each proved against specification functions.
Their outcomes are `Outcomes.Outcome` values that tell apart three cases:

- the client's `ApiException`, which is the only exception `retry` repeats;
- any other Python exception;
- `fail()`.

Whatever the remote side decides on its own is a parameter:

- parcel stages and errors;
- host-inspection results;
- whether the management services come up;
- which bootstrap commands succeed.

Modules, following the file's structure:

- `Outcomes`: exceptions and outcomes.
- `Names`: upper-cased class names, role and group names, the comma-joined repo list.
- `Topology`: the cluster description.
- `ControlPlane`: the remote state and the log.
- `Retry`: the `retry` decorator.
- `Parcels`: the `Parcels` class.
- `Services`: the `Service` class, its per-kind hooks and the class registry.
- `Plan`: the service lists, the phase order, host enrollment and the inspection poll.
- `Manager`: the `ClouderaManager` class.

Where the code and its documentation disagree, the model follows the code:

- **Per-role guard.** `deploy` checks `not role.get('group') and role.get('hosts')`. Python
  binds `not` first, so the check raises only for a spec with hosts and no group, although
  its message asks for both. The model keeps the guard as written. `Services.RoleGuardGap`
  proves that the incomplete specs getting through are exactly those without hosts. What
  happens to them next depends on their keys:
  - A spec without a `group` key fails at `role['group']` with a `KeyError`, before any group
    or role changes. This holds whether its host list is missing or empty.
  - A spec with a group but no `hosts` key has its group config merged, then fails in
    `create_roles` with a `KeyError`.
  - A spec with a group and an empty host list is accepted, and no role is created.
  Only specs with a group reach `create_roles`.
- **Entity before the started check.** `started()` reads the `service` property, so even a
  `deploy` that returns early first fetches the entity, or creates it when it is missing.
  The model does the same.
- **Stages the parcel checks accept.** Each check accepts the listed stages only. A parcel
  still `DISTRIBUTING` during the download check is waited for, not accepted. So "at or
  beyond the target" holds only for settled stages (`Parcels.AcceptsAtOrBeyond`).
- **Retry bound of `validate`.** The re-read after repository remediation uses
  `@retry()`: 3 attempts, 5 seconds apart. The model uses 3 attempts, not the longer bound
  of the stage checks.
- **`retry` with `attempts < 1`.** The loop never runs and the wrapper returns `None`
  (`Retry.Retried.NoneReturned`).

## Model

| member | source | states |
|---|---|---|
| Retry.RetryLoop | playbooks/library/cloudera/cdh.py:46-57 | the loop's result, number of calls and number of sleeps are exactly those of the `Retry` run over the same outcomes and bound |
| Retry.RetryBounds | playbooks/library/cloudera/cdh.py:48-57 | at most `attempts` calls; no call at all exactly when `attempts < 1`, and then `None` is returned; one sleep between two calls, never after the last |
| Retry.RetryFromBounds | playbooks/library/cloudera/cdh.py:49-57 | a run from call k makes between k+1 and `attempts` calls, sleeps one less than it calls, and never falls through to `None` |
| Retry.RetrySettles | playbooks/library/cloudera/cdh.py:50-55 | when call j is the first without `ApiException`, its outcome (a value, or another exception) is the wrapper's, unchanged, after j+1 calls and j sleeps; a non-`ApiException` at call 0 propagates after one call with no retry |
| Retry.RetryExhausted | playbooks/library/cloudera/cdh.py:52-55 | when every allowed call raises `ApiException`, the last one propagates after `attempts` calls and `attempts - 1` sleeps |
| Retry.RetryReturnedOnlyFromCall | playbooks/library/cloudera/cdh.py:50-51 | a returned value is the value of the last call made, and every earlier call raised `ApiException` |
| Names.DigitsInjective | playbooks/library/cloudera/cdh.py:247 | different role ordinals print differently |
| Names.RoleNameOrdinal | playbooks/library/cloudera/cdh.py:247 | two equal role names `NAME-group-i` have the same ordinal i, whatever service and group they were built from; so within one service and group distinct ordinals name distinct roles |
| Names.RoleNameSuffix | playbooks/library/cloudera/cdh.py:247 | a role name ends with `-` followed by the decimal digits of its ordinal |
| Names.ServiceGroupNotMgmt | playbooks/library/cloudera/cdh.py:233 | the base group `NAME-G-BASE` of a service whose name starts with a capital letter is never in the `mgmt-` namespace of the management groups |
| Names.MgmtGroupName | playbooks/library/cloudera/cdh.py:514 | `mgmt-G-BASE` is the base group of G in a service named `mgmt`, and lies in the management namespace |
| Names.MgmtRoleName | playbooks/library/cloudera/cdh.py:511 | `<type>-1` is the role type followed by two more characters |
| Names.MgmtRoleNameInjective | playbooks/library/cloudera/cdh.py:511 | `<type>-1` names distinct management roles for distinct role types |
| Names.Split | playbooks/library/cloudera/cdh.py:128 | a comma-separated list has at least one entry and no entry holds a comma |
| Names.SplitRoundTrip | playbooks/library/cloudera/cdh.py:128 | splitting the repository list and joining it again gives the list back |
| Names.SplitJoin | playbooks/library/cloudera/cdh.py:128 | `','.join([a, b])` has the entries of a, in order, followed by those of b |
| Parcels.CheckStage | playbooks/library/cloudera/cdh.py:133-147 | a parcel with errors is fatal whatever its stage; otherwise the check returns iff the stage is listed, and raises the retryable `ApiException` iff it is not; a failed read propagates |
| Parcels.CheckError | playbooks/library/cloudera/cdh.py:109-110 | the check passes iff the parcel reports no error, and otherwise fails with exactly those errors |
| Parcels.CheckState | playbooks/library/cloudera/cdh.py:133-147 | the retried check reads the parcel 1 to 20 times, sleeps once between reads, and always ends with a return or an exception |
| Parcels.AcceptsAtOrBeyond | playbooks/library/cloudera/cdh.py:149-168 | each phase accepts an error-free parcel exactly at a settled stage at or beyond its goal |
| Parcels.TargetsNested | playbooks/library/cloudera/cdh.py:154-168 | whatever the activate check accepts, the distribute check accepts, and whatever that accepts, the download check accepts |
| Parcels.AdvancedParcelPassesAtOnce | playbooks/library/cloudera/cdh.py:133-168 | on a re-run against an activated or in-use parcel, every phase's check returns after one read and no sleep |
| Parcels.ErrorsAreFatalAtOnce | playbooks/library/cloudera/cdh.py:133-147 | a parcel reporting errors ends the check after one read, with those errors |
| Parcels.NeverReadyExhausts | playbooks/library/cloudera/cdh.py:133-147 | a parcel that never reaches an accepted stage makes the check raise the waiting `ApiException` after 20 reads and 19 sleeps |
| Parcels.ExtendedRepoUrls | playbooks/library/cloudera/cdh.py:126-128 | the new setting lists the entries of the current value (or of the default when it is unset or empty), in order, followed by those of the given repository |
| Parcels.Validate | playbooks/library/cloudera/cdh.py:112-131 | a found parcel only has its errors checked; another exception propagates; a missing parcel without a repository raises and changes nothing; with a repository, the setting becomes the extended list and the outcome is that of the error check on the retried re-read; the setting after the call is the extended list exactly on that path, and the call succeeds iff the parcel is read without errors, at once or after remediation |
| Parcels.RunPhase | playbooks/library/cloudera/cdh.py:149-168 | a failed trigger raises before any poll; otherwise the phase makes 1 to 20 reads and succeeds iff `check_state` returns, raising its exception otherwise |
| Services.KindNamed | playbooks/library/cloudera/cdh.py:537 | the class lookup finds exactly the kind with that class name, and nothing when no class has it |
| Services.ServiceName | playbooks/library/cloudera/cdh.py:184-190 | a service's name is its class name upper-cased: same length, starting with a capital letter, no lower-case letter |
| Services.PreStartCommands | playbooks/library/cloudera/cdh.py:290-436 | exactly YARN and Flume issue no pre-start command; ZooKeeper's is not waited for, Oozie's and Sqoop's are waited for 300 seconds, the others' for 60 |
| Services.PostStartCommands | playbooks/library/cloudera/cdh.py:314-386 | exactly HDFS and Hive have post-start commands; HDFS's is not waited for, Hive's are waited for 60 seconds |
| Services.AllCommandsIssued | playbooks/library/cloudera/cdh.py:306-436 | every bootstrap command of a hook is issued, in order, whatever the outcome of the ones before |
| Services.CommandEventsHaveNoMarkers | playbooks/library/cloudera/cdh.py:253-264 | bootstrap commands add no protocol step to the log |
| Services.RoleGuardGap | playbooks/library/cloudera/cdh.py:230-231 | the guard as written lets an incomplete spec through iff it has no hosts, and everything it rejects is incomplete |
| Services.ServerIdsStep | playbooks/library/cloudera/cdh.py:280-288 | deploying one more spec keeps the `serverId` of every role set by earlier specs: a role name met again carries the same ordinal |
| Services.Service.constructor | playbooks/library/cloudera/cdh.py:178-190 | the name is the upper-cased class name, the type defaults to it, nothing is cached |
| Services.Service.Entity | playbooks/library/cloudera/cdh.py:192-205 | the cached entity is used; otherwise the entity is fetched by name, or created stopped with its base groups when missing; the state seen is cached |
| Services.Service.CreateRoles | playbooks/library/cloudera/cdh.py:237-251 | role `NAME-G-i` exists for each host i; an existing one is left as it was and a new one is placed on host i; no other role changes; a missing host list raises and changes nothing |
| Services.Service.CreateZookeeperRoles | playbooks/library/cloudera/cdh.py:272-288 | as `CreateRoles`, and every role `NAME-G-i`, found or created, gets `serverId = i` |
| Services.Service.CreateRolesOfKind | playbooks/library/cloudera/cdh.py:235 | a missing host list raises and changes nothing; otherwise role `NAME-G-i` is, for each host i, the role found under that name or a new one of type G on host i, with `serverId = i` for ZooKeeper; no other role changes, and only ZooKeeper alters a role it finds |
| Services.Service.DeployRoleSpec | playbooks/library/cloudera/cdh.py:230-235 | the guard and a missing group raise before anything changes; otherwise a missing base group raises, or the spec's config is merged into the existing group `NAME-G-BASE` and role `NAME-G-i` is placed for each host i as by `create_roles`; only that group and those roles change, and new roles sit on the host of their ordinal |
| Services.Service.SpecsStep | playbooks/library/cloudera/cdh.py:229-235 | one more spec keeps the loop's invariants: only groups of listed specs change, new roles are accounted for by a spec, and a success extends the merged configs, the deployed specs and the ZooKeeper `serverId`s by that spec |
| Services.Service.DeployRoleSpecs | playbooks/library/cloudera/cdh.py:229-235 | only groups of listed specs change; every new role is accounted for by a spec, on that spec's host; on success the groups are the earlier ones with every spec's config merged in list order, every spec passed the guard and has its group and all its roles, and each ZooKeeper role carries its ordinal as `serverId` |
| Services.Service.Deploy | playbooks/library/cloudera/cdh.py:214-235 | a started service is left alone; otherwise the service config is pushed first, a missing or empty roles list raises with no role and no existing group touched; only groups of listed specs change, earlier roles keep type and host, and each new role is the `i`-th role of a spec, on that spec's `i`-th host; on success the groups (with the base groups of a new entity) have every spec's config merged in list order, every spec's roles exist and ZooKeeper roles carry their `serverId`; no other service changes |
| Services.Service.DeployStopped | playbooks/library/cloudera/cdh.py:223-235 | the service config is merged; without roles it raises with roles and groups unchanged; only listed groups change and new roles are accounted for by the specs; on success every spec's config is merged into its group in list order and every spec's roles exist, with their `serverId` for ZooKeeper |
| Services.Service.RunCommands | playbooks/library/cloudera/cdh.py:309-312 | the log grows by each command issued in order, with a failure entry after each waited-for command that did not succeed |
| Services.Service.PreStart | playbooks/library/cloudera/cdh.py:253-258 | the kind's pre-start commands are issued in order; a kind without commands leaves the entity alone |
| Services.Service.PostStart | playbooks/library/cloudera/cdh.py:260-264 | the kind's post-start commands are issued in order; a kind without commands leaves the entity alone |
| ControlPlane.AllIn | playbooks/library/cloudera/cdh.py:543-548 | a cluster stop or start puts every service of the cluster in that state and keeps their configs |
| ControlPlane.WithGroups | playbooks/library/cloudera/cdh.py:204 | creating an entity adds its base groups with empty configs and keeps every existing group as it was |
| ControlPlane.MergedGroups | playbooks/library/cloudera/cdh.py:229-234 | merging the specs' configs in list order keeps the set of group names |
| ControlPlane.MergedGroupsPerGroup | playbooks/library/cloudera/cdh.py:229-234 | after the loop, each existing group holds its earlier settings overridden by the configs of the specs naming it, in list order; groups no spec names are unchanged |
| Plan.ConfiguredNames | playbooks/library/cloudera/cdh.py:534-537 | when every configured entry names a class, the services deployed are exactly the listed names with an entry under their upper-cased name, in list order |
| Plan.Configured | playbooks/library/cloudera/cdh.py:534-536 | the names deployed never outnumber the listed services |
| Plan.ConfiguredMembers | playbooks/library/cloudera/cdh.py:534-536 | a name is deployed iff the description has an entry under it and some listed service upper-cases to it |
| Plan.DeployPartLayout | playbooks/library/cloudera/cdh.py:534-540 | service i's deploy is step 2i of the phase and its pre-start is step 2i+1 |
| Plan.PostPartLayout | playbooks/library/cloudera/cdh.py:551-552 | the post-starts follow the deployment order |
| Plan.PhasePlanLayout | playbooks/library/cloudera/cdh.py:531-552 | a phase is the deploys and pre-starts, then the stop when asked, then the start, then the post-starts |
| Plan.PhasePlanStops | playbooks/library/cloudera/cdh.py:543-548 | a phase stops the cluster iff asked to, and always starts it |
| Plan.PhasesSeparate | playbooks/library/cloudera/cdh.py:576-582 | the base phase, with its stop, is complete before the additional phase starts, and the additional phase stops nothing |
| Plan.DeployTracesMarkers | playbooks/library/cloudera/cdh.py:534-540 | the protocol steps of the deploy loop's log are the deploy part of the plan |
| Plan.PostTracesMarkers | playbooks/library/cloudera/cdh.py:551-552 | the protocol steps of the post-start loop's log are the post-start part of the plan |
| Plan.PhaseTraceMarkers | playbooks/library/cloudera/cdh.py:531-552 | the protocol steps of a phase's log are the phase plan |
| Plan.SetupTraceMarkers | playbooks/library/cloudera/cdh.py:573-585 | the protocol steps of a setup's log are the base plan with a stop followed by the additional plan without one |
| Plan.SetupPlan | playbooks/library/cloudera/cdh.py:33-34 | over the two fixed service lists, a setup's protocol steps are the plans of the configured base and additional services |
| Plan.SetupLogPlan | playbooks/library/cloudera/cdh.py:573-585 | a log that a successful setup extends shows its earlier steps, then the base plan with a stop, then the additional plan |
| Plan.Missing | playbooks/library/cloudera/cdh.py:474-477 | the hosts to add never outnumber the listed ones, and each is listed and not yet enrolled |
| Plan.MissingMembers | playbooks/library/cloudera/cdh.py:474-477 | a host is added iff the description lists it and the cluster lacks it |
| Plan.MissingSplits | playbooks/library/cloudera/cdh.py:474-477 | the added hosts keep the description's order |
| Plan.EnrollmentIdempotent | playbooks/library/cloudera/cdh.py:472-478 | after enrollment every listed host is enrolled, and a second enrollment from the same description adds nothing |
| Plan.InspectStep | playbooks/library/cloudera/cdh.py:488-492 | a pending inspection is retryable, a failed one is fatal, a passed one completes, a failed fetch propagates |
| Plan.InspectionSettles | playbooks/library/cloudera/cdh.py:480-493 | the first definite inspection result decides, after as many polls as it took to appear |
| Plan.InspectionTimesOut | playbooks/library/cloudera/cdh.py:480-490 | an inspection still pending after 20 polls raises the waiting `ApiException` |
| Plan.WaitInspect | playbooks/library/cloudera/cdh.py:480-493 | the retried inspection polls 1 to 20 times, sleeps once between polls, and always ends with a return or an exception |
| Manager.MgmtRoleStep | playbooks/library/cloudera/cdh.py:508-511 | a pass that succeeds keeps all earlier roles, adds only first roles of their type on the first listed host, and covers one more role type |
| Manager.MgmtRoleRaises | playbooks/library/cloudera/cdh.py:508-511 | a pass that raises has a spec without a group, or without hosts for a new type, or whose role name was already taken |
| Manager.MgmtGroupsMergedStep | playbooks/library/cloudera/cdh.py:513-515 | one more management spec merged keeps the loop's invariant: the configs so far merged in order, no setting lost, only listed groups changed |
| Manager.ClouderaManager.constructor | playbooks/library/cloudera/cdh.py:449-456 | the controller keeps the description and has no cluster yet |
| Manager.ClouderaManager.CreateCluster | playbooks/library/cloudera/cdh.py:458-478 | the named cluster is fetched or created with the description's versions; it gains exactly the missing listed hosts, in order; every listed host is then enrolled; no other cluster changes |
| Manager.ClouderaManager.HostsToAdd | playbooks/library/cloudera/cdh.py:472-477 | the list built is the listed hosts not yet enrolled, in order, and holds a host iff it is listed and not enrolled |
| Manager.ClouderaManager.WaitInspectHosts | playbooks/library/cloudera/cdh.py:480-493 | 1 to 20 polls, success iff the retried inspection returns, its exception otherwise |
| Manager.ClouderaManager.CreateMgmtRoles | playbooks/library/cloudera/cdh.py:508-511 | existing management roles are kept; each new role is the first of its type, named `<type>-1`, on the type's first listed host; on success every listed type has a role |
| Manager.ClouderaManager.CreateMgmtRole | playbooks/library/cloudera/cdh.py:509-511 | a role is created only when none of its type exists; on success the type has a role; a failure changes nothing |
| Manager.ClouderaManager.ConfigureMgmtGroups | playbooks/library/cloudera/cdh.py:513-515 | only groups `mgmt-<type>-BASE` of listed types change; on success the groups are the earlier ones with each listed config merged into its group in list order; no setting is lost; a failure means some spec has no group or its `mgmt-<type>-BASE` group does not exist |
| Manager.ClouderaManager.ConfigureMgmtGroup | playbooks/library/cloudera/cdh.py:514-515 | the spec's config is merged into its existing group; a missing group raises and changes nothing |
| Manager.ClouderaManager.ProvisionMgmt | playbooks/library/cloudera/cdh.py:500-515 | the management service is fetched or created (with its base groups); on success every listed role type has a role and a base group, new roles are first of their type, and the groups are those found, plus the base groups of a new service, with every listed config merged in list order |
| Manager.ClouderaManager.DeployMgmtServices | playbooks/library/cloudera/cdh.py:495-521 | a running management service is left alone; otherwise it is provisioned and started, and the run fails unless it comes up; on success every listed type has a role and the groups have every listed config merged in order; the log records the start only |
| Manager.ClouderaManager.NewDeployed | playbooks/library/cloudera/cdh.py:537-538 | a new service object of the kind is deployed: a started entity is left alone; otherwise the service config is pushed and on success the groups after the entity exists have every spec's config merged in order, all spec roles exist with ZooKeeper's `serverId`s; earlier roles keep type and host and management groups are untouched |
| Manager.ClouderaManager.DeployOne | playbooks/library/cloudera/cdh.py:537-539 | on success the log grows by the deploy, the pre-start commands and the pre-start of that service; a failed deploy logs nothing; earlier roles keep type and host and management groups are untouched |
| Manager.ClouderaManager.PreOne | playbooks/library/cloudera/cdh.py:539 | the log grows by the deploy, the pre-start commands and the pre-start; no entity or group changes |
| Manager.ClouderaManager.DeployEntry | playbooks/library/cloudera/cdh.py:535-540 | an entry without configuration is skipped, one without a class raises, a configured one is deployed and pre-started and joins the started list |
| Manager.ClouderaManager.DeployPhase | playbooks/library/cloudera/cdh.py:534-540 | the started list holds the configured kinds in list order and the log is their deploy traces; a failure leaves the traces of a prefix of the list |
| Manager.ClouderaManager.PostOne | playbooks/library/cloudera/cdh.py:552 | the log grows by the service's post-start commands and its post-start |
| Manager.ClouderaManager.PostStartPhase | playbooks/library/cloudera/cdh.py:551-552 | the log grows by the post-start traces of the deployed services, in deployment order; no entity changes |
| Manager.ClouderaManager.StartAndPost | playbooks/library/cloudera/cdh.py:543-552 | after the stop when asked, the start and the post-starts, every service runs, no service appears or disappears, and the log grows by exactly those steps |
| Manager.ClouderaManager.ServiceOrchestrate | playbooks/library/cloudera/cdh.py:523-552 | on success the log is the deploy traces, the stop iff asked, the start and the post-start traces in the same order, every configured service exists and all run; without a cluster it raises first |
| Manager.ClouderaManager.OrchestrateBoth | playbooks/library/cloudera/cdh.py:576-582 | the base phase with a stop, then the additional phase without; on success all services run and every configured service of both lists exists; management groups are untouched |
| Manager.ClouderaManager.MgmtOutcomeKept | playbooks/library/cloudera/cdh.py:573-582 | the management roles and groups `deploy_mgmt_services` leaves survive the service phases, which keep the management groups |
| Manager.ClouderaManager.Launch | playbooks/library/cloudera/cdh.py:573-585 | on success the management service runs, all services run, every configured service of both lists exists and the log is exactly the setup trace; earlier management roles are kept and new ones are first of their type; on success every listed type has a role and the management groups are those `deploy_mgmt_services` configured (or those found when it already ran) |
| Manager.ClouderaManager.Prepare | playbooks/library/cloudera/cdh.py:558-571 | the cluster is fetched or created, gains exactly the missing listed hosts and no other cluster changes; the repository setting is the extended list exactly when remediation ran; success only when `validate` passes (the parcel is read without errors at once or after remediation), every phase's trigger and stage check pass, and host inspection passes |
| Manager.ClouderaManager.Setup | playbooks/library/cloudera/cdh.py:554-585 | the cluster and repository setting are as after `Prepare`; nothing after the parcel and inspection steps happens unless they pass; on success management and all services run, every configured service exists, the management roles and groups are as after `Launch`, the log is the setup trace, and its protocol steps are the base plan with a stop followed by the additional plan |

## Left out

- The `cm_api` transport and session (`ApiResource`, credentials, `get_cloudera_manager`) are left out: the control plane is the `Remote` state object.
- Logging and `set_loggger` are left out: they do not affect the state.
- `__main__`, `AnsibleModule` argument handling and YAML loading are left out: they are I/O. `fail` is modelled as the `Fatal` outcome rather than a process exit.
- Sleeping is counted, not performed. The delays (5 and 30 seconds) only scale that count.
- Remote asynchronous behaviour is a parameter, not modelled. This covers parcel reads and polls, inspection fetches, the management start and the success of each bootstrap command.
- `cmd.wait(timeout)` is modelled as a success flag per command name. Its timeout is recorded but not elapsed.
- A cluster-wide `stop().wait()` or `start().wait()` is taken to converge at once: every service of the cluster enters the new state.
- `Hdfs.pre_start` waits on each command `format_hdfs` returns. The model issues it as one waited-for command, because the number of commands is decided by the control plane.
- A bootstrap command whose issue itself raises is not modelled. Only the waited-for result is.
- `str.upper` is modelled for ASCII letters only, which is all the class names use.
- A `services` entry that is null or empty is represented as an absent key. The truthiness test treats both alike.
- Description values of the wrong shape, such as a `roles` value that is not a list, are left out. The datatypes fix the shape.
- Services.Service.constructor: the optional `type` argument is always the name, because no caller passes one.
- Manager.ClouderaManager.CreateCluster: the calls after the lookup (`create_cluster`, `list_hosts`, `get_host`, `add_hosts`) are assumed to succeed.
- Manager.ClouderaManager.DeployMgmtServices: reads the controller's own description. The code reads the module-level `config`, which is the same object when the module runs as a script and undefined otherwise.
- Manager.ClouderaManager.DeployMgmtServices: `mgmt.start().wait()` is assumed to finish. Whether the service then runs is the `mgmtStarts` observation.
- A role spec whose `group` is given as null is modelled like one without a `group` key, so it raises before any change. Python would instead look up the group `NAME-None-BASE`.
- The merged configs of each service's groups are stated up to `Manager.ClouderaManager.NewDeployed`. Above it, the phase methods (`DeployOne`, `DeployEntry`, `DeployPhase`, `ServiceOrchestrate`, `OrchestrateBoth`) and `Launch` and `Setup` do not state the services' group configs or roles. They state only that earlier roles keep type and host, and that management groups are untouched.
- Remote writes are assumed to succeed. An `ApiException` from any of these calls would propagate out of `deploy` or `setup`, and the model does not represent it:
  - `create_service` (cdh.py:204);
  - the service's `update_config` (cdh.py:223) and the role group's `update_config` (cdh.py:234);
  - `create_role` (cdh.py:251, 287) and the ZooKeeper role's `update_config` (cdh.py:288);
  - `get_config` and `update_config` of the manager in `validate` (cdh.py:126, 130);
  - `create_mgmt_service` (cdh.py:506) and the management group's `update_config` (cdh.py:515);
  - `inspect_hosts()` (cdh.py:571) and `deploy_client_config()` (cdh.py:585).
- Services.Service.CreateRoles: promises success whenever a host list is given, because `create_role` is assumed to succeed; a host unknown to the server would make it raise.
- Services.Service.CreateZookeeperRoles: promises success whenever a host list is given, because `create_role` and the role's `update_config` are assumed to succeed.
- Services.Service.CreateRolesOfKind: promises success whenever a host list is given, for the same reason.
