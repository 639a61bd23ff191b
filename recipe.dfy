/** One pass of the `every_enabled_application` block of recipes/deploy.rb:
    build the drivers, fire `before_deploy`, configure the deploy resource,
    let it run its stage callbacks, fire `after_deploy`. */
module Recipe {
  import opened RubyValue
  import opened Drivers
  import opened Notifications
  import opened Configuration
  import opened Lifecycle

  /** The driver factories, one per role. Each is given the application; the
      database factory also one RDS entry, the framework and worker factories
      also the database drivers. */
  datatype Factories = Factories(
    db: (Application, map<string, Value>) -> Driver,
    scm: Application -> Driver,
    framework: (Application, seq<Driver>) -> Driver,
    appserver: Application -> Driver,
    worker: (Application, seq<Driver>) -> Driver,
    webserver: Application -> Driver)

  /** Where Chef's deploy resource places this deploy: what `deploy_dir`,
      `www_group`, `shared_path` and `release_path` return. */
  datatype Paths = Paths(deployTo: string, wwwGroup: string, sharedPath: string, releasePath: string)

  /** Lines 9-12: one database driver per enabled RDS entry, in order. */
  method BuildDatabases(app: Application, rdsEntries: seq<map<string, Value>>, f: Factories)
    returns (databases: seq<Driver>)
    ensures |databases| == |rdsEntries|
    ensures forall i :: 0 <= i < |rdsEntries| ==> databases[i] == f.db(app, rdsEntries[i])
  {
    databases := [];
    var i := 0;
    while i < |rdsEntries|
      invariant 0 <= i <= |rdsEntries|
      invariant |databases| == i
      invariant forall k :: 0 <= k < i ==> databases[k] == f.db(app, rdsEntries[k])
    {
      databases := databases + [f.db(app, rdsEntries[i])];
      i := i + 1;
    }
  }

  /** Lines 9-18: the drivers of one application. */
  function BuildDrivers(app: Application, rdsEntries: seq<map<string, Value>>, f: Factories): (d: DriverSet)
    ensures |d.databases| == |rdsEntries|
    ensures forall i :: 0 <= i < |rdsEntries| ==> d.databases[i] == f.db(app, rdsEntries[i])
    ensures d.framework == f.framework(app, d.databases) && d.worker == f.worker(app, d.databases)
  {
    var databases := seq(|rdsEntries|, i requires 0 <= i < |rdsEntries| => f.db(app, rdsEntries[i]));
    DriverSet(databases, f.scm(app), f.framework(app, databases), f.appserver(app),
              f.worker(app, databases), f.webserver(app))
  }

  /** Lines 9-18, run step by step. */
  method BuildDriverSet(app: Application, rdsEntries: seq<map<string, Value>>, f: Factories)
    returns (d: DriverSet)
    ensures d == BuildDrivers(app, rdsEntries, f)
  {
    var databases := BuildDatabases(app, rdsEntries, f);
    assert databases == BuildDrivers(app, rdsEntries, f).databases;
    d := DriverSet(databases, f.scm(app), f.framework(app, databases), f.appserver(app),
                   f.worker(app, databases), f.webserver(app));
  }

  /** The inputs of the stage callbacks, as the recipe computes them. */
  function StageContextOf(d: DriverSet, paths: Paths): StageContext {
    StageContext(
      HookItems(d),
      BundleEnv(d.scm),
      paths.sharedPath,
      paths.releasePath,
      Truthy(Lookup(d.framework.out, "migrate")),
      Truthy(Lookup(d.scm.out, "remove_scm_files")))
  }

  /** One application's deploy. When the deploy block raises, only
      `before_deploy` has fired and the run ends with that error; otherwise the
      resource holds the configuration of `DeployConfig` and the trace is the
      full lifecycle. */
  method DeployApplication(
    app: Application, deploy: map<string, Value>, node: NodeDefaults,
    rdsEntries: seq<map<string, Value>>, f: Factories, paths: Paths)
    returns (config: Result<Config>, trace: seq<Event>)
    ensures
      var d := BuildDrivers(app, rdsEntries, f);
      var inp := ConfigInputs(app, deploy, node, d, paths.deployTo, paths.wwwGroup);
      && config == DeployConfig(inp)
      && (config.Ok? ==> trace == DeployTrace(StageContextOf(d, paths)))
      && (config.Err? ==> trace == [HookFired(BeforeDeploy, HookItems(d))])
  {
    var d := BuildDriverSet(app, rdsEntries, f);
    var ctx := StageContextOf(d, paths);
    var run := new Deployment(ctx, []);
    run.FireHook(BeforeDeploy);

    var inp := ConfigInputs(app, deploy, node, d, paths.deployTo, paths.wwwGroup);
    var resource := new DeployResource(app.shortname);
    config := Configure(resource, inp);
    if config.Err? {
      return config, run.trace;
    }

    run.Converge();
    run.FireHook(AfterDeploy);
    trace := run.trace;
  }

  /** A whole deploy, from the drivers' point of view: when the deploy block
      succeeds, the hooks fire in their fixed order, each with the database
      drivers (one per enabled RDS entry) followed by the other five drivers,
      and the framework driver was built from all the database drivers. */
  lemma DeployApplicationHooks(
    app: Application, rdsEntries: seq<map<string, Value>>, f: Factories, paths: Paths)
    ensures
      var d := BuildDrivers(app, rdsEntries, f);
      var t := DeployTrace(StageContextOf(d, paths));
      && HooksFired(t) ==
           [BeforeDeploy, DeployBeforeMigrate, DeployBeforeSymlink, DeployBeforeRestart, DeployAfterRestart, AfterDeploy]
      && (forall e :: e in t && e.HookFired? ==>
            && |e.items| == |rdsEntries| + 5
            && (forall i :: 0 <= i < |rdsEntries| ==> e.items[i] == f.db(app, rdsEntries[i]))
            && e.items[|rdsEntries|..] == [d.scm, f.framework(app, d.databases), d.appserver, d.worker, d.webserver])
  {
    var d := BuildDrivers(app, rdsEntries, f);
    var ctx := StageContextOf(d, paths);
    HookOrder(ctx);
    SameItemsEverywhere(ctx);
  }
}
