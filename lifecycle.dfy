/** The deploy lifecycle of recipes/deploy.rb: the hooks fired around and
    inside the deploy resource, and what its four stage callbacks do. Side
    effects (bundle install, deleting a directory, running a callback file,
    broadcasting a hook) are recorded as events in a trace. */
module Lifecycle {
  import opened RubyValue
  import opened Drivers

  datatype Hook =
    | BeforeDeploy
    | DeployBeforeMigrate
    | DeployBeforeSymlink
    | DeployBeforeRestart
    | DeployAfterRestart
    | AfterDeploy

  datatype Event =
    | HookFired(hook: Hook, items: seq<Driver>)             // fire_hook(name, items: ...)
    | BundleInstall(path: string, env: map<string, Value>)  // perform_bundle_install(shared_path, bundle_env)
    | DeleteDirectory(path: string)                         // directory ... recursive, action :delete
    | RunCallbackFile(path: string)                         // run_callback_from_file(path)

  /** What the stage callbacks read: the hook items, the bundle environment,
      the shared and release paths of the deploy, the truthiness of the
      framework's `migrate` output and of the SCM driver's `remove_scm_files`. */
  datatype StageContext = StageContext(
    items: seq<Driver>,
    bundleEnv: map<string, Value>,
    sharedPath: string,
    releasePath: string,
    migrate: bool,
    removeScmFiles: bool)

  /** `File.join(base, part)` */
  function Join(base: string, part: string): string {
    base + "/" + part
  }

  function CallbackFile(ctx: StageContext, stage: string): string {
    Join(Join(ctx.releasePath, "deploy"), stage + ".rb")
  }

  function ScmDirectory(ctx: StageContext): string {
    Join(ctx.releasePath, ".git")
  }

  function BeforeMigrateEvents(ctx: StageContext): seq<Event> {
    [ BundleInstall(ctx.sharedPath, ctx.bundleEnv),
      HookFired(DeployBeforeMigrate, ctx.items),
      RunCallbackFile(CallbackFile(ctx, "before_migrate")) ]
  }

  function BeforeSymlinkEvents(ctx: StageContext): seq<Event> {
    (if ctx.migrate then [] else [BundleInstall(ctx.sharedPath, ctx.bundleEnv)])
    + [ HookFired(DeployBeforeSymlink, ctx.items),
        RunCallbackFile(CallbackFile(ctx, "before_symlink")) ]
  }

  function BeforeRestartEvents(ctx: StageContext): seq<Event> {
    (if ctx.removeScmFiles then [DeleteDirectory(ScmDirectory(ctx))] else [])
    + [ HookFired(DeployBeforeRestart, ctx.items),
        RunCallbackFile(CallbackFile(ctx, "before_restart")) ]
  }

  function AfterRestartEvents(ctx: StageContext): seq<Event> {
    [ HookFired(DeployAfterRestart, ctx.items),
      RunCallbackFile(CallbackFile(ctx, "after_restart")) ]
  }

  /** The four callbacks in the order Chef's deploy resource runs them. */
  function StageTrace(ctx: StageContext): seq<Event> {
    BeforeMigrateEvents(ctx) + BeforeSymlinkEvents(ctx) + BeforeRestartEvents(ctx) + AfterRestartEvents(ctx)
  }

  /** One application's whole deploy: `before_deploy`, the stages, `after_deploy`. */
  function DeployTrace(ctx: StageContext): seq<Event> {
    [HookFired(BeforeDeploy, ctx.items)] + StageTrace(ctx) + [HookFired(AfterDeploy, ctx.items)]
  }

  /** The hooks a trace fires, in order. */
  function HooksFired(trace: seq<Event>): seq<Hook>
    decreases |trace|
  {
    if trace == [] then []
    else (if trace[0].HookFired? then [trace[0].hook] else []) + HooksFired(trace[1..])
  }

  /** How many bundle installs a trace runs. */
  function Installs(trace: seq<Event>): nat
    decreases |trace|
  {
    if trace == [] then 0
    else (if trace[0].BundleInstall? then 1 else 0) + Installs(trace[1..])
  }

  lemma {:induction false} HooksFiredAppend(a: seq<Event>, b: seq<Event>)
    ensures HooksFired(a + b) == HooksFired(a) + HooksFired(b)
    decreases |a|
  {
    if a == [] {
      assert a + b == b;
    } else {
      assert (a + b)[1..] == a[1..] + b;
      HooksFiredAppend(a[1..], b);
    }
  }

  lemma {:induction false} InstallsAppend(a: seq<Event>, b: seq<Event>)
    ensures Installs(a + b) == Installs(a) + Installs(b)
    decreases |a|
  {
    if a == [] {
      assert a + b == b;
    } else {
      assert (a + b)[1..] == a[1..] + b;
      InstallsAppend(a[1..], b);
    }
  }

  lemma {:induction false} CountsOfSingleton(e: Event)
    ensures HooksFired([e]) == if e.HookFired? then [e.hook] else []
    ensures Installs([e]) == if e.BundleInstall? then 1 else 0
  {
    assert [e][1..] == [];
  }

  lemma {:induction false} CountsOfPair(e: Event, f: Event)
    ensures HooksFired([e, f]) == HooksFired([e]) + HooksFired([f])
    ensures Installs([e, f]) == Installs([e]) + Installs([f])
  {
    assert [e, f] == [e] + [f];
    HooksFiredAppend([e], [f]);
    InstallsAppend([e], [f]);
  }

  /** A hook followed by its callback file fires that hook and installs nothing. */
  lemma {:induction false} HookThenCallback(hook: Hook, items: seq<Driver>, path: string)
    ensures HooksFired([HookFired(hook, items), RunCallbackFile(path)]) == [hook]
    ensures Installs([HookFired(hook, items), RunCallbackFile(path)]) == 0
  {
    CountsOfPair(HookFired(hook, items), RunCallbackFile(path));
    CountsOfSingleton(HookFired(hook, items));
    CountsOfSingleton(RunCallbackFile(path));
  }

  /** An optional action ahead of a hook and its callback file. */
  lemma {:induction false} OptionalThenHook(opt: seq<Event>, e: Event, hook: Hook, items: seq<Driver>, path: string)
    requires opt == [] || opt == [e]
    requires !e.HookFired?
    ensures HooksFired(opt + [HookFired(hook, items), RunCallbackFile(path)]) == [hook]
    ensures Installs(opt + [HookFired(hook, items), RunCallbackFile(path)])
      == if opt != [] && e.BundleInstall? then 1 else 0
  {
    var rest := [HookFired(hook, items), RunCallbackFile(path)];
    HookThenCallback(hook, items, path);
    HooksFiredAppend(opt, rest);
    InstallsAppend(opt, rest);
    CountsOfSingleton(e);
  }

  /** What each stage fires and installs. */
  lemma {:induction false} StageCounts(ctx: StageContext)
    ensures HooksFired(BeforeMigrateEvents(ctx)) == [DeployBeforeMigrate]
    ensures HooksFired(BeforeSymlinkEvents(ctx)) == [DeployBeforeSymlink]
    ensures HooksFired(BeforeRestartEvents(ctx)) == [DeployBeforeRestart]
    ensures HooksFired(AfterRestartEvents(ctx)) == [DeployAfterRestart]
    ensures Installs(BeforeMigrateEvents(ctx)) == 1
    ensures Installs(BeforeSymlinkEvents(ctx)) == if ctx.migrate then 0 else 1
    ensures Installs(BeforeRestartEvents(ctx)) == 0
    ensures Installs(AfterRestartEvents(ctx)) == 0
  {
    var install := BundleInstall(ctx.sharedPath, ctx.bundleEnv);
    var delete := DeleteDirectory(ScmDirectory(ctx));
    OptionalThenHook([install], install, DeployBeforeMigrate, ctx.items, CallbackFile(ctx, "before_migrate"));
    OptionalThenHook(if ctx.migrate then [] else [install], install,
      DeployBeforeSymlink, ctx.items, CallbackFile(ctx, "before_symlink"));
    OptionalThenHook(if ctx.removeScmFiles then [delete] else [], delete,
      DeployBeforeRestart, ctx.items, CallbackFile(ctx, "before_restart"));
    HookThenCallback(DeployAfterRestart, ctx.items, CallbackFile(ctx, "after_restart"));
  }

  /** The whole trace, split at its stages. */
  lemma {:induction false} DeployTraceCounts(ctx: StageContext)
    ensures HooksFired(DeployTrace(ctx)) ==
      [BeforeDeploy] + HooksFired(BeforeMigrateEvents(ctx)) + HooksFired(BeforeSymlinkEvents(ctx))
      + HooksFired(BeforeRestartEvents(ctx)) + HooksFired(AfterRestartEvents(ctx)) + [AfterDeploy]
    ensures Installs(DeployTrace(ctx)) ==
      Installs(BeforeMigrateEvents(ctx)) + Installs(BeforeSymlinkEvents(ctx))
      + Installs(BeforeRestartEvents(ctx)) + Installs(AfterRestartEvents(ctx))
  {
    var bm, bs, br, ar := BeforeMigrateEvents(ctx), BeforeSymlinkEvents(ctx), BeforeRestartEvents(ctx), AfterRestartEvents(ctx);
    var first, last := HookFired(BeforeDeploy, ctx.items), HookFired(AfterDeploy, ctx.items);
    CountsOfSingleton(first);
    CountsOfSingleton(last);
    HooksFiredAppend([first] + StageTrace(ctx), [last]);
    HooksFiredAppend([first], StageTrace(ctx));
    HooksFiredAppend(bm + bs + br, ar);
    HooksFiredAppend(bm + bs, br);
    HooksFiredAppend(bm, bs);
    InstallsAppend([first] + StageTrace(ctx), [last]);
    InstallsAppend([first], StageTrace(ctx));
    InstallsAppend(bm + bs + br, ar);
    InstallsAppend(bm + bs, br);
    InstallsAppend(bm, bs);
  }

  /** Hooks fire in exactly this order, once each, whatever the flags. */
  lemma HookOrder(ctx: StageContext)
    ensures HooksFired(DeployTrace(ctx)) ==
      [BeforeDeploy, DeployBeforeMigrate, DeployBeforeSymlink, DeployBeforeRestart, DeployAfterRestart, AfterDeploy]
  {
    DeployTraceCounts(ctx);
    StageCounts(ctx);
  }

  /** Every hook firing receives the same driver list. */
  lemma SameItemsEverywhere(ctx: StageContext)
    ensures forall e :: e in DeployTrace(ctx) && e.HookFired? ==> e.items == ctx.items
  {
  }

  /** `before_migrate` always installs; `before_symlink` only when not
      migrating: one install per deploy when migrating, two otherwise, each with
      the bundle environment in the shared directory. */
  lemma InstallCount(ctx: StageContext)
    ensures Installs(DeployTrace(ctx)) == if ctx.migrate then 1 else 2
    ensures DeployTrace(ctx)[1] == BundleInstall(ctx.sharedPath, ctx.bundleEnv)
    ensures forall e :: e in DeployTrace(ctx) && e.BundleInstall? ==> e == BundleInstall(ctx.sharedPath, ctx.bundleEnv)
  {
    DeployTraceCounts(ctx);
    StageCounts(ctx);
  }

  /** The `.git` directory of the release is deleted exactly when
      `remove_scm_files` is set, and then right before the
      `deploy_before_restart` hook fires. */
  lemma ScmFilesRemoval(ctx: StageContext)
    ensures (exists e :: e in DeployTrace(ctx) && e.DeleteDirectory?) <==> ctx.removeScmFiles
    ensures ctx.removeScmFiles ==>
      var t, i := DeployTrace(ctx), 1 + |BeforeMigrateEvents(ctx) + BeforeSymlinkEvents(ctx)|;
      && t[i] == DeleteDirectory(ScmDirectory(ctx))
      && t[i + 1] == HookFired(DeployBeforeRestart, ctx.items)
  {
    var t := DeployTrace(ctx);
    if ctx.removeScmFiles {
      var i := 1 + |BeforeMigrateEvents(ctx) + BeforeSymlinkEvents(ctx)|;
      assert t[i] == DeleteDirectory(ScmDirectory(ctx));
    }
  }

  /** The events that take place when any of them may raise: a hook, a
      callback file or an install that raises ends the deploy right there, and
      nothing after it runs. */
  function Executed(trace: seq<Event>, raises: Event -> bool): (done: seq<Event>)
    ensures done <= trace
    ensures forall i :: 0 <= i < |done| - 1 ==> !raises(done[i])
    ensures |done| < |trace| ==> |done| > 0 && raises(done[|done| - 1])
    ensures (forall e :: e in trace ==> !raises(e)) ==> done == trace
    decreases |trace|
  {
    if trace == [] then []
    else if raises(trace[0]) then [trace[0]]
    else [trace[0]] + Executed(trace[1..], raises)
  }

  /** A run stops no later than at the first event that raises. */
  lemma {:induction false} ExecutedStopsAt(trace: seq<Event>, raises: Event -> bool, k: nat)
    requires k < |trace| && raises(trace[k])
    ensures |Executed(trace, raises)| <= k + 1
    decreases k
  {
    if k > 0 && !raises(trace[0]) {
      ExecutedStopsAt(trace[1..], raises, k - 1);
    }
  }

  /** The first three events of a deploy, up to the `deploy_before_migrate` hook. */
  function DeployHead(ctx: StageContext): seq<Event> {
    [HookFired(BeforeDeploy, ctx.items), BundleInstall(ctx.sharedPath, ctx.bundleEnv),
     HookFired(DeployBeforeMigrate, ctx.items)]
  }

  lemma {:induction false} DeployHeadCounts(ctx: StageContext, n: nat)
    requires n <= 3
    ensures HooksFired(DeployHead(ctx)[..n]) <= [BeforeDeploy, DeployBeforeMigrate]
    ensures Installs(DeployHead(ctx)[..n]) <= 1
  {
    var head := DeployHead(ctx);
    CountsOfSingleton(head[0]);
    CountsOfSingleton(head[1]);
    CountsOfSingleton(head[2]);
    CountsOfPair(head[0], head[1]);
    if n == 0 {
      assert head[..n] == [];
    } else if n == 1 {
      assert head[..n] == [head[0]];
    } else if n == 2 {
      assert head[..n] == [head[0], head[1]];
    } else {
      assert head[..n] == [head[0], head[1]] + [head[2]];
      HooksFiredAppend([head[0], head[1]], [head[2]]);
      InstallsAppend([head[0], head[1]], [head[2]]);
    }
  }

  /** A `deploy_before_migrate` listener that raises stops the deploy before
      `before_symlink` starts: no later hook fires and no second install runs. */
  lemma FailingBeforeMigrateHook(ctx: StageContext, raises: Event -> bool)
    requires raises(HookFired(DeployBeforeMigrate, ctx.items))
    ensures HooksFired(Executed(DeployTrace(ctx), raises)) <= [BeforeDeploy, DeployBeforeMigrate]
    ensures Installs(Executed(DeployTrace(ctx), raises)) <= 1
  {
    var t := DeployTrace(ctx);
    var done := Executed(t, raises);
    assert t[..3] == DeployHead(ctx);
    ExecutedStopsAt(t, raises, 2);
    assert done == t[..|done|] == DeployHead(ctx)[..|done|];
    DeployHeadCounts(ctx, |done|);
  }

  /** The stage callbacks of the deploy resource, run on a trace of effects. */
  class Deployment {
    const ctx: StageContext
    var trace: seq<Event>

    constructor (ctx: StageContext, trace: seq<Event>)
      ensures this.ctx == ctx && this.trace == trace
    {
      this.ctx := ctx;
      this.trace := trace;
    }

    method FireHook(hook: Hook)
      modifies this
      ensures trace == old(trace) + [HookFired(hook, ctx.items)]
    {
      trace := trace + [HookFired(hook, ctx.items)];
    }

    method PerformBundleInstall()
      modifies this
      ensures trace == old(trace) + [BundleInstall(ctx.sharedPath, ctx.bundleEnv)]
    {
      trace := trace + [BundleInstall(ctx.sharedPath, ctx.bundleEnv)];
    }

    method RunCallbackFromFile(stage: string)
      modifies this
      ensures trace == old(trace) + [RunCallbackFile(CallbackFile(ctx, stage))]
    {
      trace := trace + [RunCallbackFile(CallbackFile(ctx, stage))];
    }

    /** Lines 54-60. */
    method BeforeMigrate()
      modifies this
      ensures trace == old(trace) + BeforeMigrateEvents(ctx)
    {
      PerformBundleInstall();
      FireHook(DeployBeforeMigrate);
      RunCallbackFromFile("before_migrate");
    }

    /** Lines 62-68. */
    method BeforeSymlink()
      modifies this
      ensures trace == old(trace) + BeforeSymlinkEvents(ctx)
    {
      if !ctx.migrate {
        PerformBundleInstall();
      }
      FireHook(DeployBeforeSymlink);
      RunCallbackFromFile("before_symlink");
    }

    /** Lines 70-79. */
    method BeforeRestart()
      modifies this
      ensures trace == old(trace) + BeforeRestartEvents(ctx)
    {
      if ctx.removeScmFiles {
        trace := trace + [DeleteDirectory(ScmDirectory(ctx))];
      }
      FireHook(DeployBeforeRestart);
      RunCallbackFromFile("before_restart");
    }

    /** Lines 81-85. */
    method AfterRestart()
      modifies this
      ensures trace == old(trace) + AfterRestartEvents(ctx)
    {
      FireHook(DeployAfterRestart);
      RunCallbackFromFile("after_restart");
    }

    /** The deploy resource converging: its callbacks in stage order. */
    method Converge()
      modifies this
      ensures trace == old(trace) + StageTrace(ctx)
    {
      BeforeMigrate();
      BeforeSymlink();
      BeforeRestart();
      AfterRestart();
    }
  }
}
