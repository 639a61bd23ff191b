/** The `deploy application['shortname'] do ... end` block of
    recipes/deploy.rb (lines 23-53): the settings it hands to Chef's deploy
    resource and the notifications it registers on it. */
module Configuration {
  import opened RubyValue
  import opened Drivers
  import opened Notifications

  /** The setters of Chef's deploy resource that an SCM output key may name
      (what `respond_to?(scm_key)` accepts), aliases included. The stage
      callbacks are not listed: the recipe sets all four itself afterwards. */
  const DeploySetters: set<string> := {
    "deploy_to", "repo", "repository", "remote", "role", "restart_command", "restart",
    "migrate", "migration_command", "user", "group", "enable_submodules", "shallow_clone",
    "repository_cache", "copy_exclude", "revision", "branch", "git_ssh_wrapper", "ssh_wrapper",
    "svn_username", "svn_password", "svn_arguments", "svn_info_args", "scm_provider",
    "svn_force_export", "environment", "keep_releases", "rollback_on_error",
    "purge_before_symlink", "create_dirs_before_symlink", "symlinks", "symlink_before_migrate",
    "additional_remotes", "enable_checkout", "checkout_branch", "timeout", "depth"
  }

  /** Everything the deploy block reads. `deploy` is the application's deploy
      settings hash; `deployTo` and `wwwGroup` are what `deploy_dir(application)`
      and `www_group` return. */
  datatype ConfigInputs = ConfigInputs(
    app: Application,
    deploy: map<string, Value>,
    node: NodeDefaults,
    drivers: DriverSet,
    deployTo: string,
    wwwGroup: string)

  /** What the deploy resource ends up holding. */
  datatype Config = Config(settings: map<string, Value>, triggers: seq<Trigger>)

  /** `node['deployer']['user'] || 'root'` */
  function DeployUser(configured: Value): (user: Value)
    ensures Truthy(user)
    ensures Truthy(configured) ==> user == configured
    ensures !Truthy(configured) ==> user == Str("root")
  {
    if Truthy(configured) then configured else Str("root")
  }

  /** `(defaults + Array.wrap(value)).uniq`, as used for
      `create_dirs_before_symlink` and `purge_before_symlink`. */
  function DedupUnion(defaults: seq<Value>, value: Value): seq<Value> {
    Uniq(defaults + Wrap(value))
  }

  /** The combined list has no duplicates, holds exactly the elements of the
      defaults and of the wrapped per-deploy value, starts with the defaults
      (deduplicated; as they are when they hold no duplicate), and keeps every
      element at the place of its first occurrence. */
  lemma {:induction false} DedupUnionSpec(defaults: seq<Value>, value: Value)
    ensures NoDuplicates(DedupUnion(defaults, value))
    ensures forall x :: x in DedupUnion(defaults, value) <==> x in defaults || x in Wrap(value)
    ensures Uniq(defaults) <= DedupUnion(defaults, value)
    ensures NoDuplicates(defaults) ==> defaults <= DedupUnion(defaults, value)
    ensures forall i, j :: 0 <= i < j < |DedupUnion(defaults, value)| ==>
      FirstIndex(defaults + Wrap(value), DedupUnion(defaults, value)[i])
        < FirstIndex(defaults + Wrap(value), DedupUnion(defaults, value)[j])
  {
    var s := defaults + Wrap(value);
    var r := Uniq(s);
    forall x ensures x in r <==> x in defaults || x in Wrap(value) {
      if x in r {
        var i :| 0 <= i < |r| && r[i] == x;
      }
      if x in s {
        var i :| 0 <= i < |s| && s[i] == x;
      }
    }
    UniqPrefix(defaults, Wrap(value));
    if NoDuplicates(defaults) {
      UniqOfDistinct(defaults);
    }
    forall i, j | 0 <= i < j < |r| ensures FirstIndex(s, r[i]) < FirstIndex(s, r[j]) {
      UniqKeepsFirstOccurrenceOrder(s, i, j);
    }
  }

  /** The SCM output keys that name a setter, with their values (lines 40-42). */
  function ScmAssignments(out: map<string, Value>): (r: map<string, Value>)
    ensures r.Keys == out.Keys * DeploySetters
    ensures forall k :: k in r ==> r[k] == out[k]
  {
    map k | k in out && k in DeploySetters :: out[k]
  }

  /** The settings of lines 24-38, given the merged environment and symlinks. */
  function RecipeSettings(inp: ConfigInputs, env: map<string, Value>, links: map<string, Value>): map<string, Value> {
    map[]
      ["deploy_to" := Str(inp.deployTo)]
      ["user" := DeployUser(inp.node.deployerUser)]
      ["group" := Str(inp.wwwGroup)]
      ["rollback_on_error" := Bool(true)]
      ["environment" := Hash(env)]
      ["keep_releases" := Lookup(inp.deploy, "keep_releases")]
      ["create_dirs_before_symlink" :=
         List(DedupUnion(inp.node.createDirsBeforeSymlink, Lookup(inp.deploy, "create_dirs_before_symlink")))]
      ["purge_before_symlink" :=
         List(DedupUnion(inp.node.purgeBeforeSymlink, Lookup(inp.deploy, "purge_before_symlink")))]
      ["symlink_before_migrate" := Lookup(inp.deploy, "symlink_before_migrate")]
      ["symlinks" := Hash(links)]
  }

  /** The setters lines 24-38 call. */
  const RecipeSetters: set<string> := {
    "deploy_to", "user", "group", "rollback_on_error", "environment", "keep_releases",
    "create_dirs_before_symlink", "purge_before_symlink", "symlink_before_migrate", "symlinks"
  }

  lemma SetterFacts()
    ensures RecipeSetters <= DeploySetters
    ensures "migrate" in DeploySetters && "migration_command" in DeploySetters
    ensures "migrate" !in RecipeSetters && "migration_command" !in RecipeSetters
  {
  }

  lemma RecipeSettingsAt(inp: ConfigInputs, env: map<string, Value>, links: map<string, Value>)
    ensures
      var s := RecipeSettings(inp, env, links);
      && s.Keys == RecipeSetters
      && s["deploy_to"] == Str(inp.deployTo)
      && s["user"] == DeployUser(inp.node.deployerUser)
      && s["group"] == Str(inp.wwwGroup)
      && s["rollback_on_error"] == Bool(true)
      && s["environment"] == Hash(env)
      && s["keep_releases"] == Lookup(inp.deploy, "keep_releases")
      && s["create_dirs_before_symlink"] ==
           List(DedupUnion(inp.node.createDirsBeforeSymlink, Lookup(inp.deploy, "create_dirs_before_symlink")))
      && s["purge_before_symlink"] ==
           List(DedupUnion(inp.node.purgeBeforeSymlink, Lookup(inp.deploy, "purge_before_symlink")))
      && s["symlink_before_migrate"] == Lookup(inp.deploy, "symlink_before_migrate")
      && s["symlinks"] == Hash(links)
  {
  }

  /** Lines 52-53: the migration command only when the framework gives one,
      the migrate flag always. */
  function MigrationSettings(frameworkOut: map<string, Value>, s: map<string, Value>): map<string, Value> {
    var cmd := Lookup(frameworkOut, "migration_command");
    (if Truthy(cmd) then s["migration_command" := cmd] else s)["migrate" := Lookup(frameworkOut, "migrate")]
  }

  /** `application['environment'].merge(framework.out[:deploy_environment] || {})` */
  function DeployEnvironment(inp: ConfigInputs): Result<map<string, Value>> {
    MergeOrEmpty(inp.app.environment, Lookup(inp.drivers.framework.out, "deploy_environment"), "environment")
  }

  /** `node['defaults']['deploy']['symlinks'].merge(deploy[:symlinks] || {})` */
  function DeploySymlinks(inp: ConfigInputs): Result<map<string, Value>> {
    MergeOrEmpty(inp.node.symlinks, Lookup(inp.deploy, "symlinks"), "symlinks")
  }

  /** The whole deploy block: the first exception raised (a merge with a
      non-hash, a server without `:deploy` notifications) ends it. */
  function DeployConfig(inp: ConfigInputs): Result<Config> {
    match DeployEnvironment(inp)
    case Err(e) => Err(e)
    case Ok(env) =>
      match DeploySymlinks(inp)
      case Err(e) => Err(e)
      case Ok(links) =>
        var settings := RecipeSettings(inp, env, links) + ScmAssignments(inp.drivers.scm.out);
        match Triggers([inp.drivers.appserver, inp.drivers.webserver], inp.app)
        case Err(e) => Err(e)
        case Ok(ts) => Ok(Config(MigrationSettings(inp.drivers.framework.out, settings), ts))
  }

  /** Chef's deploy resource, as the record of the settings and notifications
      the recipe gives it. */
  class DeployResource {
    const name: string
    var settings: map<string, Value>
    var notifications: seq<Trigger>

    constructor (name: string)
      ensures this.name == name && settings == map[] && notifications == []
    {
      this.name := name;
      settings := map[];
      notifications := [];
    }

    /** Calls one setter. */
    method Set(setter: string, v: Value)
      requires setter in DeploySetters
      modifies this
      ensures settings == old(settings)[setter := v]
      ensures notifications == old(notifications)
    {
      settings := settings[setter := v];
    }

    /** `notifies action, resource, timer` */
    method Notify(t: Trigger)
      modifies this
      ensures notifications == old(notifications) + [t]
      ensures settings == old(settings)
    {
      notifications := notifications + [t];
    }

    /** `scm.out.each { |k, v| send(k, v) if respond_to?(k) }`: the keys are
        visited in any order, which does not matter since they are distinct. */
    method ApplyScmOutput(out: map<string, Value>)
      modifies this
      ensures settings == old(settings) + ScmAssignments(out)
      ensures notifications == old(notifications)
    {
      var pending := out.Keys;
      while pending != {}
        invariant pending <= out.Keys
        invariant settings == old(settings) + map k | k in out && k !in pending && k in DeploySetters :: out[k]
        invariant notifications == old(notifications)
        decreases pending
      {
        var k :| k in pending;
        if k in DeploySetters {
          Set(k, out[k]);
        }
        pending := pending - {k};
      }
      assert (map k | k in out && k !in pending && k in DeploySetters :: out[k]) == ScmAssignments(out);
    }

    /** Lines 44-50: for each server, for each of its `:deploy` specs, register
        the resolved trigger. */
    method WireNotifications(servers: seq<Driver>, app: Application) returns (err: Option<Error>)
      modifies this
      ensures settings == old(settings)
      ensures Triggers(servers, app).Ok? ==> err == None && notifications == old(notifications) + Triggers(servers, app).value
      ensures Triggers(servers, app).Err? ==> err == Some(Triggers(servers, app).error)
      // The raise leaves the triggers of the servers before the failing one registered.
      ensures Triggers(servers, app).Err? ==>
        exists n :: 0 <= n < |servers| && "deploy" !in servers[n].notifies
          && DeploySpecs(servers[..n]).Ok?
          && notifications == old(notifications) + ResolveAll(DeploySpecs(servers[..n]).value, app)
    {
      var i := 0;
      ghost var done: seq<NotificationSpec> := [];
      while i < |servers|
        invariant 0 <= i <= |servers|
        invariant DeploySpecs(servers[..i]) == Ok(done)
        invariant notifications == old(notifications) + ResolveAll(done, app)
        invariant settings == old(settings)
      {
        assert servers[..i + 1][..i] == servers[..i];
        var server := servers[i];
        if "deploy" !in server.notifies {
          DeploySpecsErrSticky(servers, i + 1);
          return Some(NoMethodError("notifies"));
        }
        var specs := server.notifies["deploy"];
        var j := 0;
        while j < |specs|
          invariant 0 <= j <= |specs|
          invariant notifications == old(notifications) + ResolveAll(done, app) + ResolveAll(specs[..j], app)
          invariant settings == old(settings)
        {
          Notify(Resolve(specs[j], app));
          assert specs[..j + 1] == specs[..j] + [specs[j]];
          ResolveAllAppend(specs[..j], [specs[j]], app);
          j := j + 1;
        }
        assert specs[..j] == specs;
        ResolveAllAppend(done, specs, app);
        done := done + specs;
        i := i + 1;
      }
      assert servers[..i] == servers;
      err := None;
    }
  }

  /** Once some prefix of the servers fails, every longer prefix does too. */
  lemma {:induction false} DeploySpecsErrSticky(servers: seq<Driver>, n: nat)
    requires n <= |servers| && DeploySpecs(servers[..n]).Err?
    ensures DeploySpecs(servers).Err?
    ensures DeploySpecs(servers).error == DeploySpecs(servers[..n]).error
    decreases |servers| - n
  {
    if n < |servers| {
      assert servers[..n + 1][..n] == servers[..n];
      DeploySpecsErrSticky(servers, n + 1);
    } else {
      assert servers[..n] == servers;
    }
  }

  /** The body of the deploy block, run on a new resource (lines 24-53). */
  method Configure(res: DeployResource, inp: ConfigInputs) returns (r: Result<Config>)
    requires res.settings == map[] && res.notifications == []
    modifies res
    ensures r == DeployConfig(inp)
    ensures r.Ok? ==> res.settings == r.value.settings && res.notifications == r.value.triggers
  {
    var d := inp.drivers;
    res.Set("deploy_to", Str(inp.deployTo));
    res.Set("user", DeployUser(inp.node.deployerUser));
    res.Set("group", Str(inp.wwwGroup));
    res.Set("rollback_on_error", Bool(true));
    var env := MergeOrEmpty(inp.app.environment, Lookup(d.framework.out, "deploy_environment"), "environment");
    if env.Err? {
      return Err(env.error);
    }
    res.Set("environment", Hash(env.value));

    res.Set("keep_releases", Lookup(inp.deploy, "keep_releases"));
    res.Set("create_dirs_before_symlink",
      List(Uniq(inp.node.createDirsBeforeSymlink + Wrap(Lookup(inp.deploy, "create_dirs_before_symlink")))));
    res.Set("purge_before_symlink",
      List(Uniq(inp.node.purgeBeforeSymlink + Wrap(Lookup(inp.deploy, "purge_before_symlink")))));
    res.Set("symlink_before_migrate", Lookup(inp.deploy, "symlink_before_migrate"));
    var links := MergeOrEmpty(inp.node.symlinks, Lookup(inp.deploy, "symlinks"), "symlinks");
    if links.Err? {
      return Err(links.error);
    }
    res.Set("symlinks", Hash(links.value));
    assert res.settings == RecipeSettings(inp, env.value, links.value);

    res.ApplyScmOutput(d.scm.out);

    var err := res.WireNotifications([d.appserver, d.webserver], inp.app);
    if err.Some? {
      return Err(err.value);
    }

    var cmd := Lookup(d.framework.out, "migration_command");
    if Truthy(cmd) {
      res.Set("migration_command", cmd);
    }
    res.Set("migrate", Lookup(d.framework.out, "migrate"));
    ghost var expected := DeployConfig(inp);
    assert expected.Ok? && res.settings == expected.value.settings && res.notifications == expected.value.triggers;
    assert expected == Ok(Config(expected.value.settings, expected.value.triggers));
    r := Ok(Config(res.settings, res.notifications));
  }

  /** A successful deploy block: both merges succeeded, and the settings are
      the recipe's, then the SCM output's, then the migration settings. */
  lemma DeployConfigShape(inp: ConfigInputs)
    requires DeployConfig(inp).Ok?
    ensures DeployEnvironment(inp).Ok? && DeploySymlinks(inp).Ok?
    ensures DeployConfig(inp).value.settings ==
      MigrationSettings(inp.drivers.framework.out,
        RecipeSettings(inp, DeployEnvironment(inp).value, DeploySymlinks(inp).value)
        + ScmAssignments(inp.drivers.scm.out))
    ensures Triggers([inp.drivers.appserver, inp.drivers.webserver], inp.app) == Ok(DeployConfig(inp).value.triggers)
  {
  }

  lemma MigrationSettingsAt(frameworkOut: map<string, Value>, s: map<string, Value>)
    ensures
      var m, cmd := MigrationSettings(frameworkOut, s), Lookup(frameworkOut, "migration_command");
      && m.Keys == s.Keys + {"migrate"} + (if Truthy(cmd) then {"migration_command"} else {})
      && m["migrate"] == Lookup(frameworkOut, "migrate")
      && (Truthy(cmd) ==> m["migration_command"] == cmd)
      && (forall k :: k in s && k != "migrate" && !(k == "migration_command" && Truthy(cmd)) ==> m[k] == s[k])
  {
  }

  /** The deploy block succeeds exactly when both merges are given a hash or a
      falsy value and both servers declare `:deploy` notifications; otherwise
      it raises the first of these errors, in recipe order. */
  lemma DeployConfigOutcome(inp: ConfigInputs)
    ensures DeployConfig(inp).Ok? <==>
      && (var fe := Lookup(inp.drivers.framework.out, "deploy_environment"); !Truthy(fe) || fe.Hash?)
      && (var ds := Lookup(inp.deploy, "symlinks"); !Truthy(ds) || ds.Hash?)
      && "deploy" in inp.drivers.appserver.notifies && "deploy" in inp.drivers.webserver.notifies
    ensures DeployEnvironment(inp).Err? ==> DeployConfig(inp) == Err(TypeError("environment"))
    ensures DeployEnvironment(inp).Ok? && DeploySymlinks(inp).Err? ==> DeployConfig(inp) == Err(TypeError("symlinks"))
    ensures DeployEnvironment(inp).Ok? && DeploySymlinks(inp).Ok? && DeployConfig(inp).Err? ==>
      DeployConfig(inp) == Err(NoMethodError("notifies"))
  {
    TriggersOfServers(inp.drivers.appserver, inp.drivers.webserver, inp.app);
  }

  /** The deploy environment is the application environment merged with the
      framework's `deploy_environment`, whose values win on a shared key; when
      the framework gives none it is the application environment unchanged.
      (An SCM output key `environment` would replace it, see ScmKeysApplied.) */
  lemma EnvironmentSetting(inp: ConfigInputs)
    requires DeployConfig(inp).Ok? && "environment" !in inp.drivers.scm.out
    ensures
      var appEnv, fe := inp.app.environment, Lookup(inp.drivers.framework.out, "deploy_environment");
      var settings := DeployConfig(inp).value.settings;
      && "environment" in settings && settings["environment"].Hash?
      && var env := settings["environment"].entries;
      && (!Truthy(fe) ==> env == appEnv)
      && (fe.Hash? ==>
            && env.Keys == appEnv.Keys + fe.entries.Keys
            && (forall k :: k in fe.entries ==> env[k] == fe.entries[k])
            && (forall k :: k in appEnv && k !in fe.entries ==> env[k] == appEnv[k]))
  {
    DeployConfigShape(inp);
    RecipeSettingsAt(inp, DeployEnvironment(inp).value, DeploySymlinks(inp).value);
    var rs := RecipeSettings(inp, DeployEnvironment(inp).value, DeploySymlinks(inp).value);
    MigrationSettingsAt(inp.drivers.framework.out, rs + ScmAssignments(inp.drivers.scm.out));
  }

  /** The symlinks are the node's default symlinks merged with the per-deploy
      `symlinks`, whose values win; a nil or false override leaves the defaults
      as they are. */
  lemma SymlinksSetting(inp: ConfigInputs)
    requires DeployConfig(inp).Ok? && "symlinks" !in inp.drivers.scm.out
    ensures
      var defaults, ds := inp.node.symlinks, Lookup(inp.deploy, "symlinks");
      var settings := DeployConfig(inp).value.settings;
      && "symlinks" in settings && settings["symlinks"].Hash?
      && var links := settings["symlinks"].entries;
      && (!Truthy(ds) ==> links == defaults)
      && (ds.Hash? ==>
            && links.Keys == defaults.Keys + ds.entries.Keys
            && (forall k :: k in ds.entries ==> links[k] == ds.entries[k])
            && (forall k :: k in defaults && k !in ds.entries ==> links[k] == defaults[k]))
  {
    DeployConfigShape(inp);
    RecipeSettingsAt(inp, DeployEnvironment(inp).value, DeploySymlinks(inp).value);
    var rs := RecipeSettings(inp, DeployEnvironment(inp).value, DeploySymlinks(inp).value);
    MigrationSettingsAt(inp.drivers.framework.out, rs + ScmAssignments(inp.drivers.scm.out));
  }

  /** `create_dirs_before_symlink` and `purge_before_symlink` are each the
      node defaults followed by the wrapped per-deploy value, deduplicated
      keeping first occurrences: no duplicates, every element of both inputs and
      nothing else, defaults first. */
  lemma DirListSettings(inp: ConfigInputs, key: string)
    requires DeployConfig(inp).Ok? && key !in inp.drivers.scm.out
    requires key == "create_dirs_before_symlink" || key == "purge_before_symlink"
    ensures
      var defaults := if key == "create_dirs_before_symlink" then inp.node.createDirsBeforeSymlink
                      else inp.node.purgeBeforeSymlink;
      var given := Wrap(Lookup(inp.deploy, key));
      var settings := DeployConfig(inp).value.settings;
      && key in settings && settings[key] == List(DedupUnion(defaults, Lookup(inp.deploy, key)))
      && NoDuplicates(settings[key].items)
      && (forall x :: x in settings[key].items <==> x in defaults || x in given)
      && Uniq(defaults) <= settings[key].items
  {
    DeployConfigShape(inp);
    RecipeSettingsAt(inp, DeployEnvironment(inp).value, DeploySymlinks(inp).value);
    var rs := RecipeSettings(inp, DeployEnvironment(inp).value, DeploySymlinks(inp).value);
    MigrationSettingsAt(inp.drivers.framework.out, rs + ScmAssignments(inp.drivers.scm.out));
    var defaults := if key == "create_dirs_before_symlink" then inp.node.createDirsBeforeSymlink
                    else inp.node.purgeBeforeSymlink;
    DedupUnionSpec(defaults, Lookup(inp.deploy, key));
  }

  /** The settings the recipe gives by itself, before the SCM output and the
      migration settings: deploy directory, user (root when none is
      configured), group, rollback, release count and `symlink_before_migrate`. */
  lemma FixedSettings(inp: ConfigInputs)
    requires DeployConfig(inp).Ok?
    ensures
      var settings, scmOut := DeployConfig(inp).value.settings, inp.drivers.scm.out;
      && ("deploy_to" !in scmOut ==> settings["deploy_to"] == Str(inp.deployTo))
      && ("user" !in scmOut ==> settings["user"] == DeployUser(inp.node.deployerUser))
      && ("group" !in scmOut ==> settings["group"] == Str(inp.wwwGroup))
      && ("rollback_on_error" !in scmOut ==> settings["rollback_on_error"] == Bool(true))
      && ("keep_releases" !in scmOut ==> settings["keep_releases"] == Lookup(inp.deploy, "keep_releases"))
      && ("symlink_before_migrate" !in scmOut ==>
            settings["symlink_before_migrate"] == Lookup(inp.deploy, "symlink_before_migrate"))
  {
    DeployConfigShape(inp);
    RecipeSettingsAt(inp, DeployEnvironment(inp).value, DeploySymlinks(inp).value);
    var rs := RecipeSettings(inp, DeployEnvironment(inp).value, DeploySymlinks(inp).value);
    MigrationSettingsAt(inp.drivers.framework.out, rs + ScmAssignments(inp.drivers.scm.out));
  }

  /** Every SCM output key that names a setter is applied, unless the recipe
      calls that setter again afterwards (`migrate` always, `migration_command`
      when the framework gives one). */
  lemma ScmKeysApplied(inp: ConfigInputs)
    requires DeployConfig(inp).Ok?
    ensures
      var settings, scmOut := DeployConfig(inp).value.settings, inp.drivers.scm.out;
      var cmd := Lookup(inp.drivers.framework.out, "migration_command");
      forall k :: k in scmOut && k in DeploySetters && k != "migrate" && !(k == "migration_command" && Truthy(cmd))
        ==> k in settings && settings[k] == scmOut[k]
  {
    DeployConfigShape(inp);
    var rs := RecipeSettings(inp, DeployEnvironment(inp).value, DeploySymlinks(inp).value);
    MigrationSettingsAt(inp.drivers.framework.out, rs + ScmAssignments(inp.drivers.scm.out));
  }

  /** SCM output keys that name no setter are skipped: the resource only ever
      holds settings of its own setters. */
  lemma UnknownKeysSkipped(inp: ConfigInputs)
    requires DeployConfig(inp).Ok?
    ensures DeployConfig(inp).value.settings.Keys <= DeploySetters
    ensures forall k :: k in inp.drivers.scm.out && k !in DeploySetters ==> k !in DeployConfig(inp).value.settings
  {
    DeployConfigShape(inp);
    var rs := RecipeSettings(inp, DeployEnvironment(inp).value, DeploySymlinks(inp).value);
    RecipeSettingsAt(inp, DeployEnvironment(inp).value, DeploySymlinks(inp).value);
    SetterFacts();
    MigrationSettingsAt(inp.drivers.framework.out, rs + ScmAssignments(inp.drivers.scm.out));
  }

  /** A setter the SCM output does not mention holds what the recipe alone
      would give it. */
  lemma AbsentKeysUntouched(inp: ConfigInputs)
    requires DeployConfig(inp).Ok?
    ensures
      var settings, scmOut := DeployConfig(inp).value.settings, inp.drivers.scm.out;
      var base := MigrationSettings(inp.drivers.framework.out,
        RecipeSettings(inp, DeployEnvironment(inp).value, DeploySymlinks(inp).value));
      forall k :: k !in scmOut ==> (k in settings <==> k in base) && (k in base ==> settings[k] == base[k])
  {
    DeployConfigShape(inp);
    var rs := RecipeSettings(inp, DeployEnvironment(inp).value, DeploySymlinks(inp).value);
    MigrationSettingsAt(inp.drivers.framework.out, rs + ScmAssignments(inp.drivers.scm.out));
    MigrationSettingsAt(inp.drivers.framework.out, rs);
  }

  /** `migrate` is always the framework's `migrate` output (nil when it has
      none); `migration_command` is the framework's command when that is
      truthy, and is otherwise left to whatever the SCM output set. */
  lemma MigrationSetting(inp: ConfigInputs)
    requires DeployConfig(inp).Ok?
    ensures
      var settings, fwOut, scmOut := DeployConfig(inp).value.settings, inp.drivers.framework.out, inp.drivers.scm.out;
      var cmd := Lookup(fwOut, "migration_command");
      && "migrate" in settings && settings["migrate"] == Lookup(fwOut, "migrate")
      && (Truthy(cmd) ==> "migration_command" in settings && settings["migration_command"] == cmd)
      && (!Truthy(cmd) ==>
            && ("migration_command" in settings <==> "migration_command" in scmOut)
            && ("migration_command" in scmOut ==> settings["migration_command"] == scmOut["migration_command"]))
  {
    DeployConfigShape(inp);
    var rs := RecipeSettings(inp, DeployEnvironment(inp).value, DeploySymlinks(inp).value);
    RecipeSettingsAt(inp, DeployEnvironment(inp).value, DeploySymlinks(inp).value);
    SetterFacts();
    MigrationSettingsAt(inp.drivers.framework.out, rs + ScmAssignments(inp.drivers.scm.out));
  }

  /** The triggers registered on the resource: the app server's `:deploy`
      specs, then the web server's, resolved, one per spec. */
  lemma TriggerSetting(inp: ConfigInputs)
    requires DeployConfig(inp).Ok?
    ensures
      var a, w := inp.drivers.appserver.notifies, inp.drivers.webserver.notifies;
      var ts := DeployConfig(inp).value.triggers;
      && "deploy" in a && "deploy" in w
      && |ts| == |a["deploy"]| + |w["deploy"]|
      && (forall i :: 0 <= i < |a["deploy"]| ==> ts[i] == Resolve(a["deploy"][i], inp.app))
      && (forall j :: 0 <= j < |w["deploy"]| ==> ts[|a["deploy"]| + j] == Resolve(w["deploy"][j], inp.app))
  {
    var aps, ws := inp.drivers.appserver, inp.drivers.webserver;
    var ts := DeployConfig(inp).value.triggers;
    assert Triggers([aps, ws], inp.app) == Ok(ts) by { DeployConfigShape(inp); }
    TriggersOfServers(aps, ws, inp.app);
  }
}
