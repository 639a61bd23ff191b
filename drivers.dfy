/** The inputs of one application's deploy: the application, the node's
    defaults, and the drivers the factories built for it. Drivers are opaque:
    only what the recipe reads of them is modelled. */
module Drivers {
  import opened RubyValue

  datatype Role = Db | Scm | Framework | Appserver | Worker | Webserver

  /** One enabled application, as `application` in the recipe. */
  datatype Application = Application(shortname: string, environment: map<string, Value>)

  /** What a notification spec names: a literal resource, or a callable that
      is given the application (`config[:resource].respond_to?(:call)`). */
  datatype ResourceRef = Literal(id: string) | Computed(resolve: Application -> string)

  /** One entry of `server.notifies[:deploy]`. */
  datatype NotificationSpec = NotificationSpec(action: string, resource: ResourceRef, timer: string)

  /** A driver built by a factory. `adapter` is the name of the Chef provider
      class a source-control driver uses (`scm.class.adapter.to_s`); `out` is
      its output bundle; `notifies` the server drivers' notification specs,
      keyed by stage. */
  datatype Driver = Driver(
    role: Role,
    adapter: string,
    out: map<string, Value>,
    notifies: map<string, seq<NotificationSpec>>)

  /** The drivers of one application, in the order the recipe builds them. */
  datatype DriverSet = DriverSet(
    databases: seq<Driver>,
    scm: Driver,
    framework: Driver,
    appserver: Driver,
    worker: Driver,
    webserver: Driver)

  /** The node attributes the recipe reads: `node['deployer']['user']` and
      the lists and map under `node['defaults']['deploy']`. */
  datatype NodeDefaults = NodeDefaults(
    deployerUser: Value,
    createDirsBeforeSymlink: seq<Value>,
    purgeBeforeSymlink: seq<Value>,
    symlinks: map<string, Value>)

  /** The Chef provider class name that marks the Git source-control driver. */
  const GitProvider: string := "Chef::Provider::Git"

  /** The list every hook firing receives:
      `databases + [scm, framework, appserver, worker, webserver]`. */
  function HookItems(d: DriverSet): (items: seq<Driver>)
    ensures |items| == |d.databases| + 5
    ensures items[..|d.databases|] == d.databases
    ensures items[|d.databases|..] == [d.scm, d.framework, d.appserver, d.worker, d.webserver]
  {
    d.databases + [d.scm, d.framework, d.appserver, d.worker, d.webserver]
  }

  /** The environment given to every bundle install (`bundle_env`): `GIT_SSH`
      set to the SCM driver's `ssh_wrapper` output exactly when the driver uses
      the Git provider, and empty otherwise. */
  function BundleEnv(scm: Driver): (env: map<string, Value>)
    ensures "GIT_SSH" in env <==> scm.adapter == GitProvider
    ensures env.Keys <= {"GIT_SSH"}
    ensures "GIT_SSH" in env ==> env["GIT_SSH"] == Lookup(scm.out, "ssh_wrapper")
  {
    if scm.adapter == GitProvider then map["GIT_SSH" := Lookup(scm.out, "ssh_wrapper")] else map[]
  }
}
