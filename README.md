# Deploy recipe of opsworks_ruby, modelled in Dafny

This project models the per-application deploy logic of the `opsworks_ruby`
Chef cookbook (`recipes/deploy.rb`). For each enabled application the recipe
does the following:

- It builds one database driver per enabled RDS entry, then the SCM,
  framework, app server, worker and web server drivers.
- It computes the bundle environment (`GIT_SSH` for the Git provider).
- It fires `before_deploy` with every driver.
- It declares Chef's `deploy` resource. The resource gets its settings from
  the node defaults, the application's deploy settings and the drivers'
  outputs. Notifications are registered for the app server and web server.
- It hands the resource four stage callbacks. These run bundle installs,
  delete `.git`, fire the `deploy_*` hooks and run the callback files.
- It fires `after_deploy`.

Modules, one per part of the recipe:

- `RubyValue` (ruby_value.dfy): the Ruby semantics the recipe relies on.
  This covers nil/false truthiness, `Array.wrap`, `Array#uniq` (keep the
  first occurrence) and `Hash#merge(v || {})`. The merge is right-biased and
  raises a TypeError when `v` is truthy but not a hash.
- `Drivers` (drivers.dfy): the application, the node defaults, the drivers
  as opaque records, the hook item list and `bundle_env`.
- `Notifications` (notifications.dfy): a resource is either a literal or a
  callable. The module resolves it and builds the trigger list for the two
  server drivers.
- `Configuration` (configuration.dfy): the `deploy` block. `DeployResource`
  is a class. Its setters update a settings map, and `notifies` appends to a
  trigger list. The method `Configure` runs the block's statements in recipe
  order and is proved equal to the pure `DeployConfig`. Lemmas about
  `DeployConfig` state the properties of each setting.
- `Lifecycle` (lifecycle.dfy): the stage callbacks as methods of a
  `Deployment` object that appends effects to a trace. They are proved
  against the pure `StageTrace`/`DeployTrace`. Lemmas give the hook order,
  the install count, when `.git` is removed, and the fail-fast behaviour of a
  raising hook.
- `Recipe` (recipe.dfy): one application's whole pass. It builds the
  drivers, fires `before_deploy`, configures the resource, converges it and
  fires `after_deploy`.

Modelling choices:

- `respond_to?` on the deploy resource is replaced by the explicit setter
  whitelist `Configuration.DeploySetters`. It lists the setters of Chef's
  deploy resource, aliases included.
- The driver factories are function parameters. `deploy_dir`, `www_group`,
  `shared_path` and `release_path` are plain inputs.
- Chef evaluates the `deploy` block and line 88 at compile time. Line 88
  therefore calls `fire_hook(:after_deploy)` before the deploy resource
  converges. The resources that `after_deploy` listeners declare converge
  after it. Within each stage callback the trace follows the callback's
  statement order. `after_deploy` is placed where the resources its
  listeners declare converge, which is after the four stage callbacks.

## Model

| member | source | states |
|---|---|---|
| `RubyValue.Wrap` | recipes/deploy.rb:31-36 | `Array.wrap`: nil gives `[]`, a list gives itself, any other value gives a one-element list |
| `RubyValue.Uniq` | recipes/deploy.rb:31-36 | `uniq` has no duplicates and holds exactly the elements of its input |
| `RubyValue.UniqKeepsFirstOccurrenceOrder` | recipes/deploy.rb:31-36 | `uniq` keeps elements in the order of their first occurrence in the input |
| `RubyValue.UniqPrefix` | recipes/deploy.rb:31-36 | the `uniq` of a list is a prefix of the `uniq` of any extension of it |
| `RubyValue.UniqOfDistinct` | recipes/deploy.rb:31-36 | a list without duplicates is its own `uniq` |
| `RubyValue.MergeOrEmpty` | recipes/deploy.rb:28-38 | `base.merge(v \|\| {})`: a falsy `v` leaves `base` unchanged; a hash gives the union of keys with the hash's values winning; anything else raises TypeError |
| `Drivers.HookItems` | recipes/deploy.rb:21 | the hook items are the database drivers, in order, followed by scm, framework, appserver, worker, webserver |
| `Drivers.BundleEnv` | recipes/deploy.rb:19 | `GIT_SSH` is present exactly when the SCM adapter is `Chef::Provider::Git`, with the `ssh_wrapper` output as value, and it is the only possible key |
| `Notifications.Resolve` | recipes/deploy.rb:46-48 | action and timer are passed through; the resource is the literal id, or the callable applied to the application |
| `Notifications.ResolveAll` | recipes/deploy.rb:45-49 | one trigger per spec, in spec order |
| `Notifications.TriggersOfServers` | recipes/deploy.rb:44-50 | wiring succeeds iff both servers declare `:deploy` specs (else NoMethodError); app server triggers first, then web server's, count = sum of both list lengths |
| `Configuration.DeployUser` | recipes/deploy.rb:25 | the configured deployer user when truthy, otherwise `root` |
| `Configuration.DedupUnionSpec` | recipes/deploy.rb:31-36 | defaults + wrapped value, deduplicated: no duplicates, exactly the elements of both, defaults first, first-occurrence order |
| `Configuration.ScmAssignments` | recipes/deploy.rb:40-42 | the SCM output keys applied are exactly those that name a setter, with their output values |
| `Configuration.DeployConfigOutcome` | recipes/deploy.rb:28-45 | the block succeeds iff both merges get a hash or a falsy value and both servers have `:deploy` specs; otherwise the first error in recipe order |
| `Configuration.EnvironmentSetting` | recipes/deploy.rb:28 | environment = application environment merged with framework `deploy_environment`, framework wins; unchanged when the framework gives none |
| `Configuration.SymlinksSetting` | recipes/deploy.rb:38 | symlinks = node default map merged with per-deploy `symlinks`, per-deploy wins; defaults unchanged when it is nil/false |
| `Configuration.DirListSettings` | recipes/deploy.rb:31-36 | `create_dirs_before_symlink`/`purge_before_symlink` are the deduplicated union, defaults first, holding exactly the elements of both inputs |
| `Configuration.FixedSettings` | recipes/deploy.rb:24-37 | deploy_to, user (root fallback), group, rollback_on_error true, keep_releases and symlink_before_migrate as the recipe passes them |
| `Configuration.ScmKeysApplied` | recipes/deploy.rb:40-53 | every SCM key naming a setter ends in the settings with its value, unless `migrate`/`migration_command` is set again afterwards |
| `Configuration.UnknownKeysSkipped` | recipes/deploy.rb:40-42 | SCM keys naming no setter are skipped; the resource holds only setters |
| `Configuration.AbsentKeysUntouched` | recipes/deploy.rb:40-42 | a setter absent from the SCM output keeps the value the recipe alone gives it |
| `Configuration.MigrationSetting` | recipes/deploy.rb:52-53 | `migrate` equals the framework's output; `migration_command` is the framework's when truthy, otherwise only what SCM output set |
| `Configuration.TriggerSetting` | recipes/deploy.rb:44-50 | the resource's triggers: app server specs then web server specs, resolved, one per spec |
| `Configuration.DeployResource.constructor` | recipes/deploy.rb:23 | a new deploy resource named after the application holds no settings and no triggers |
| `Configuration.DeployResource.Set` | recipes/deploy.rb:24-27 | a setter call updates that one setting and nothing else |
| `Configuration.DeployResource.Notify` | recipes/deploy.rb:46-48 | `notifies` appends one trigger and changes no setting |
| `Configuration.DeployResource.ApplyScmOutput` | recipes/deploy.rb:40-42 | the loop leaves old settings overridden by exactly the whitelisted SCM keys, in any visiting order |
| `Configuration.DeployResource.WireNotifications` | recipes/deploy.rb:44-50 | the nested loop appends exactly `Triggers(servers)`, or reports NoMethodError for a server without `:deploy` specs, with the earlier servers' triggers already registered |
| `Configuration.DeploySpecsErrSticky` | recipes/deploy.rb:44-45 | once a server lacks `:deploy` specs, the wiring of any longer server list fails with the same error |
| `Configuration.Configure` | recipes/deploy.rb:23-53 | the block run on a fresh resource leaves exactly `DeployConfig`'s settings and triggers, or returns its error |
| `Lifecycle.StageCounts` | recipes/deploy.rb:54-85 | each stage fires its own hook once; installs: before_migrate 1, before_symlink 0 when migrating else 1, the others 0 |
| `Lifecycle.DeployTraceCounts` | recipes/deploy.rb:21-88 | the hooks and installs of a deploy are those of before_deploy, the four stages and after_deploy, in order |
| `Lifecycle.HookOrder` | recipes/deploy.rb:21-88 | hooks fire exactly as before_deploy, deploy_before_migrate, deploy_before_symlink, deploy_before_restart, deploy_after_restart, after_deploy |
| `Lifecycle.SameItemsEverywhere` | recipes/deploy.rb:21-88 | every hook firing receives the same item list |
| `Lifecycle.InstallCount` | recipes/deploy.rb:54-68 | 1 install when migrating, 2 otherwise; the first stage action is the install; all installs use the shared path and bundle env |
| `Lifecycle.ScmFilesRemoval` | recipes/deploy.rb:70-76 | `.git` is deleted iff `remove_scm_files` is truthy, and then, in the callback's statement order, immediately before the deploy_before_restart hook |
| `Lifecycle.Executed` | recipes/deploy.rb:54-60 | a raising action ends the run: the executed events are a prefix that stops at the first raising event |
| `Lifecycle.ExecutedStopsAt` | recipes/deploy.rb:54-60 | when the k-th action raises, at most k+1 actions run |
| `Lifecycle.DeployHeadCounts` | recipes/deploy.rb:21-56 | any prefix of before_deploy, the first install and deploy_before_migrate fires only those two hooks and at most one install |
| `Lifecycle.FailingBeforeMigrateHook` | recipes/deploy.rb:54-68 | a raising deploy_before_migrate listener stops before before_symlink: no later hook, at most one install |
| `Lifecycle.Deployment.FireHook` | recipes/deploy.rb:21 | appends one hook firing with the context's item list |
| `Lifecycle.Deployment.PerformBundleInstall` | recipes/deploy.rb:55 | appends one install in the shared path with the bundle env |
| `Lifecycle.Deployment.RunCallbackFromFile` | recipes/deploy.rb:59 | appends the run of `<release>/deploy/<stage>.rb` |
| `Lifecycle.Deployment.BeforeMigrate` | recipes/deploy.rb:54-60 | install, deploy_before_migrate hook, before_migrate.rb |
| `Lifecycle.Deployment.BeforeSymlink` | recipes/deploy.rb:62-68 | install unless migrating, deploy_before_symlink hook, before_symlink.rb |
| `Lifecycle.Deployment.BeforeRestart` | recipes/deploy.rb:70-79 | `.git` deletion when remove_scm_files, deploy_before_restart hook, before_restart.rb |
| `Lifecycle.Deployment.AfterRestart` | recipes/deploy.rb:81-85 | deploy_after_restart hook, after_restart.rb |
| `Lifecycle.Deployment.Converge` | recipes/deploy.rb:54-85 | the four callbacks append `StageTrace` in stage order |
| `Recipe.BuildDatabases` | recipes/deploy.rb:9-12 | one database driver per enabled RDS entry, in iteration order |
| `Recipe.BuildDrivers` | recipes/deploy.rb:9-18 | N database drivers for N RDS entries; framework and worker built from all of them |
| `Recipe.BuildDriverSet` | recipes/deploy.rb:9-18 | building the drivers step by step gives exactly `BuildDrivers` |
| `Recipe.DeployApplication` | recipes/deploy.rb:8-89 | the resource gets `DeployConfig`; a successful block yields the full lifecycle trace; a raising block leaves only before_deploy fired |
| `Recipe.DeployApplicationHooks` | recipes/deploy.rb:9-21 | hooks fire in fixed order, each with the N database drivers (one per RDS entry) followed by the other five drivers |

## Left out

- Chef's resource-convergence engine is external. This covers the deploy
  provider itself, release directories, symlink creation, running the
  migration and `rollback_on_error`. The resource is only a record of the
  settings and notifications it receives. Its callbacks run in the provider's
  stage order.
- Chef's `set_or_return` treats a setter called with nil (for example
  `migrate nil`) as a read. The model records the value passed.
- The recipe's filesystem and subprocess effects are not performed. These
  are `perform_bundle_install`, deleting `.git` and `run_callback_from_file`,
  which evaluates Ruby files. Each one is a trace event.
  `run_callback_from_file` skips a missing file; that check is not modelled.
- The driver factories and driver internals are not modelled. `out`,
  `notifies` and the adapter class come as opaque inputs, and a factory that
  raises is not modelled.
- The bodies of several helpers are not part of this model:
  `fire_hook`, `every_enabled_application`, `every_enabled_rds`,
  `deploy_dir`, `www_group`, `prepare_recipe`, `include_recipe` and node
  attribute loading. A hook firing is one event. The loop over applications
  is not modelled; one application is deployed.
- Ruby's `send`/`respond_to?` reflection is replaced by the fixed whitelist
  `DeploySetters`. Methods that every Chef resource answers, such as `name`,
  `action` and `notifies`, are left out of it. So are the four callback
  setters: the recipe sets all four after the SCM copy anyway. Aliases such
  as `repo`/`repository` are recorded as separate setter names.
- Ruby symbols and strings are both modelled as strings.
- `File.join` is modelled as joining with `/`. Its collapsing of duplicate
  separators is not modelled.
- The node defaults are typed as lists and a map. A node attribute of
  another shape, which would raise in `+` or `merge`, is not modelled. The
  application environment is typed as a map.
- Driver construction errors are not modelled, because they happen inside
  the factories.
- The model covers two exceptions that the recipe's own expressions can
  raise: a non-hash merge argument and a missing `:deploy` notification list.
- DeployUser: `node['deployer']['user']` (line 25) raises NoMethodError when
  `node['deployer']` is nil. The node defaults carry the user value directly,
  so that error is not modelled.
- TriggersOfServers: a callable notification resource (line 47) is a total
  function of the application here, so it never raises. A resolver that
  raises is not modelled. The "succeeds exactly when both servers declare
  `:deploy`" part of TriggersOfServers and DeployConfigOutcome holds only
  under that assumption.
- DeployTrace: line 88 fires `after_deploy` at compile time, before the
  deploy resource converges. An `after_deploy` listener that raises ends
  the run before any bundle install, `deploy_*` hook or callback file. In
  the trace, `after_deploy` comes last, so `Executed` cannot express that
  failure order.
- ScmFilesRemoval: the `.git` directory resource (lines 71-74) is declared
  inside the `before_restart` callback. It converges after the callback
  body, which fires `deploy_before_restart` and runs `before_restart.rb`,
  has returned. The trace and ScmFilesRemoval follow the statement order
  and put the deletion before the hook, so they do not model when the
  deletion takes effect.
- There is no concurrency; the recipe runs sequentially.
