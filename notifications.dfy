/** The notification bridge: the app server's and the web server's
    `notifies[:deploy]` specs become triggers on the deploy resource, with
    each callable resource resolved against the application once. */
module Notifications {
  import opened RubyValue
  import opened Drivers

  /** A registered `notifies action, resource, timer`. */
  datatype Trigger = Trigger(action: string, resource: string, timer: string)

  /** `config[:resource].respond_to?(:call) ? config[:resource].call(application) : config[:resource]` */
  function ResolveResource(r: ResourceRef, app: Application): string {
    match r
    case Literal(id) => id
    case Computed(f) => f(app)
  }

  function Resolve(spec: NotificationSpec, app: Application): (t: Trigger)
    ensures t.action == spec.action && t.timer == spec.timer
    ensures spec.resource.Literal? ==> t.resource == spec.resource.id
    ensures spec.resource.Computed? ==> t.resource == spec.resource.resolve(app)
  {
    Trigger(spec.action, ResolveResource(spec.resource, app), spec.timer)
  }

  function ResolveAll(specs: seq<NotificationSpec>, app: Application): (ts: seq<Trigger>)
    ensures |ts| == |specs|
    ensures forall i :: 0 <= i < |specs| ==> ts[i] == Resolve(specs[i], app)
  {
    seq(|specs|, i requires 0 <= i < |specs| => Resolve(specs[i], app))
  }

  lemma ResolveAllAppend(a: seq<NotificationSpec>, b: seq<NotificationSpec>, app: Application)
    ensures ResolveAll(a + b, app) == ResolveAll(a, app) + ResolveAll(b, app)
  {
    var l, r := ResolveAll(a + b, app), ResolveAll(a, app) + ResolveAll(b, app);
    assert |l| == |r|;
    forall i | 0 <= i < |l| ensures l[i] == r[i] {
      if i < |a| { assert (a + b)[i] == a[i]; } else { assert (a + b)[i] == b[i - |a|]; }
    }
  }

  /** The `:deploy` specs of the given servers, in server order. A server
      whose `notifies` has no `:deploy` entry makes `nil.each` raise. */
  function DeploySpecs(servers: seq<Driver>): (r: Result<seq<NotificationSpec>>)
    decreases |servers|
  {
    if servers == [] then Ok([])
    else
      var last := servers[|servers| - 1];
      match DeploySpecs(servers[..|servers| - 1])
      case Err(e) => Err(e)
      case Ok(specs) =>
        if "deploy" in last.notifies then Ok(specs + last.notifies["deploy"])
        else Err(NoMethodError("notifies"))
  }

  /** The triggers the recipe registers for `servers` (lines 44-50). */
  function Triggers(servers: seq<Driver>, app: Application): Result<seq<Trigger>> {
    match DeploySpecs(servers)
    case Err(e) => Err(e)
    case Ok(specs) => Ok(ResolveAll(specs, app))
  }

  /** For the app server and the web server: the wiring succeeds exactly when
      both declare a `:deploy` list; the app server's triggers come first, then
      the web server's, each in declaration order, one per spec, with
      callables resolved against the application and action and timer passed
      through unchanged. */
  lemma TriggersOfServers(appserver: Driver, webserver: Driver, app: Application)
    ensures Triggers([appserver, webserver], app).Ok?
        <==> "deploy" in appserver.notifies && "deploy" in webserver.notifies
    ensures Triggers([appserver, webserver], app).Err?
        ==> Triggers([appserver, webserver], app).error == NoMethodError("notifies")
    ensures Triggers([appserver, webserver], app).Ok? ==>
      var a, w := appserver.notifies["deploy"], webserver.notifies["deploy"];
      var ts := Triggers([appserver, webserver], app).value;
      && |ts| == |a| + |w|
      && (forall i :: 0 <= i < |a| ==> ts[i] == Resolve(a[i], app))
      && (forall j :: 0 <= j < |w| ==> ts[|a| + j] == Resolve(w[j], app))
  {
    var servers := [appserver, webserver];
    assert servers[..1] == [appserver];
    assert servers[..1][..0] == [];
    assert DeploySpecs([appserver]) ==
      if "deploy" in appserver.notifies then Ok([] + appserver.notifies["deploy"]) else Err(NoMethodError("notifies"));
    if "deploy" in appserver.notifies && "deploy" in webserver.notifies {
      var a, w := appserver.notifies["deploy"], webserver.notifies["deploy"];
      assert [] + a == a;
      ResolveAllAppend(a, w, app);
    }
  }
}
