/** The cluster description the module is given (the `cluster.yaml`
    document), as far as the orchestration reads it. A key that may be
    missing is an `Option`; Python's truthiness tests on such values are
    spelled out by the predicates below. */
module Topology {
  import opened Outcomes

  /** A configuration value pushed to the control plane. */
  datatype Value = Text(text: string) | Number(n: int)

  /** A configuration mapping, as `update_config` receives it. */
  type Config = map<string, Value>

  /** One entry of a service's `roles` list: the role type ("group"), the
      hosts to place one role instance on each, and the role-group config. */
  datatype RoleSpec = RoleSpec(group: Option<string>, hosts: Option<seq<string>>, config: Option<Config>)

  /** One entry of the `services` section: the service-level `config` and
      the `roles` list. */
  datatype ServiceConfig = ServiceConfig(settings: Option<Config>, roles: Option<seq<RoleSpec>>)

  /** The `cluster` section. */
  datatype ClusterSpec = ClusterSpec(name: string, version: string, fullVersion: string, hosts: seq<string>)

  /** The `parcel` section: the version to install and an optional extra
      repository URL. */
  datatype ParcelSpec = ParcelSpec(version: string, repo: Option<string>)

  /** The whole document. `services` maps an upper-cased service name (and
      `MGMT`) to its entry; a null or empty entry is represented by leaving
      the key out, which the orchestration's truthiness test treats alike. */
  datatype SetupConfig = SetupConfig(cluster: ClusterSpec, parcel: ParcelSpec, services: map<string, ServiceConfig>)

  /** Python truthiness of an optional string: present and non-empty. */
  predicate Given(s: Option<string>) {
    s.Some? && s.value != ""
  }

  /** Python truthiness of an optional list. */
  predicate NonEmpty<T>(s: Option<seq<T>>) {
    s.Some? && |s.value| > 0
  }
}
