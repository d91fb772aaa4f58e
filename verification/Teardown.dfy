/**
 The teardown body with its effects: DNS first, then the endpoint's route, then the files
 (`helper/service.py`, `_finalize_ipsec_teardown`). `Session` shows that it runs at most once.
 */
module Teardown {
  import opened Wrappers
  import opened LinkDns
  import Gw = GatewayRoute

  /** What happens on the outside meanwhile. */
  datatype Env = Env(
    dns: RestoreEnv,           // how the commands of the DNS restore end
    recordRaises: bool,        // reading the DNS record raises, so nothing is restored
    reportRaises: bool,        // reporting the result raises
    meddled: Option<Gw.Hop>,   // what the DNS restore or the vanished daemon make of the endpoint's route
    route: nat -> Gw.Attempt,
    wiped: bool)               // whether the wipe can delete the files

  class Helper {
    var gatewayRoute: Option<Gw.Route>
    var files: bool
    var done: bool
    const resolver: Resolver
    const table: Gw.RouteTable

    constructor (gatewayRoute: Option<Gw.Route>, files: bool, resolver: Resolver, table: Gw.RouteTable)
      ensures this.gatewayRoute == gatewayRoute && this.files == files && !done
      ensures this.resolver == resolver && this.table == table
    {
      this.gatewayRoute, this.files, this.done, this.resolver, this.table := gatewayRoute, files, false, resolver, table;
    }

    /** The route the teardown will restore: the captured one, or the one in the file. */
    function RouteToRestore(rules: Gw.Rules, file: Gw.File, given: bool): Gw.ReadResult
      reads this
    {
      if gatewayRoute.None? && (given || files) then Gw.ReadRoute(rules, file) else Gw.Read(gatewayRoute)
    }

    /**
     Restores the overlay from its record, then the endpoint's route, whatever the first step did to
     it and even when that step raises, then wipes the files. Only a route file that cannot be read as
     an object keeps the body from running. `left` is what becomes of the route file.
     */
    method FinalizeTeardown(rules: Gw.Rules, routeFile: Gw.File, given: bool, env: Env) returns (raised: bool, left: Gw.File)
      requires resolver.Recorded()
      modifies this, resolver, table
      ensures resolver.Recorded()
      ensures old(done) ==> !raised && done && Untouched() && left == routeFile
      ensures !old(done) ==> (done <==> old(RouteToRestore(rules, routeFile, given)).Read?)
      ensures !old(done) ==> (!done <==> old(gatewayRoute).None? && (given || old(files)) && routeFile == Gw.Holds(Gw.NotAnObject))
      ensures !old(done) && done && old(gatewayRoute).Some? ==> RouteRestored(old(gatewayRoute), env)
      ensures !old(done) && done && old(gatewayRoute).None? ==>
                RouteRestored(if given || old(files) then Gw.ReadRoute(rules, routeFile).route else None, env)
      ensures !old(done) && !done ==> raised && Untouched() && left == routeFile
      ensures !old(done) && done ==> gatewayRoute == None && !files
      ensures !old(done) && done ==> (raised <==> (given || old(files)) && (env.recordRaises || env.reportRaises))
      ensures !old(done) && done ==> RouteRestored(old(RouteToRestore(rules, routeFile, given)).route, env)
      ensures !old(done) && done ==>
                resolver.link == if (given || old(files)) && !env.recordRaises then Recovered(World(old(resolver.link), old(resolver.file)), env.dns)
                                 else old(resolver.link)
      ensures !old(done) && done && (given || old(files)) ==>
                && left == (if env.wiped then Gw.Missing else routeFile)
                && resolver.file == (if env.wiped || (!env.recordRaises && env.dns.unlinkOk) then LinkDns.Missing else old(resolver.file))
      ensures !old(done) && done && !given && !old(files) ==> left == routeFile && resolver.file == old(resolver.file)
    {
      raised, left := false, routeFile;
      if done {
        return;
      }
      var route := gatewayRoute;
      var target := given || files;
      if route.None? && target {
        var read := Gw.ReadRoute(rules, routeFile);
        if read.Raised? {
          return true, routeFile;
        }
        route := read.route;
      }
      if target {
        raised := RestoreDns(env);
      }
      RestoreRoute(route, env);
      if target && env.wiped {
        left := Gw.Missing;
        resolver.Unlink(true);
      }
      gatewayRoute, files, done := None, false, true;
    }

    /** Reading the record may raise, and so may reporting the result. */
    method RestoreDns(env: Env) returns (raised: bool)
      requires resolver.Recorded()
      modifies resolver
      ensures resolver.Recorded() && raised == (env.recordRaises || env.reportRaises)
      ensures resolver.link == if env.recordRaises then old(resolver.link)
                               else Recovered(World(old(resolver.link), old(resolver.file)), env.dns)
      ensures resolver.file == if !env.recordRaises && env.dns.unlinkOk then LinkDns.Missing else old(resolver.file)
    {
      raised := env.recordRaises || env.reportRaises;
      if !env.recordRaises {
        var _ := resolver.RestoreFromStatePath(env.dns);
      }
    }

    method RestoreRoute(route: Option<Gw.Route>, env: Env)
      modifies table
      ensures RouteRestored(route, env)
    {
      if route.Some? {
        table.Meddle(route.value.destination, env.meddled);
        var _ := Gw.RestoreAndVerify(table, route, 1, env.route);
      }
    }

    /** Only the endpoint's route may differ; it is the one to restore exactly when it stayed or a replacement took effect. */
    twostate predicate RouteRestored(route: Option<Gw.Route>, env: Env)
      reads table
    {
      && (forall d | route.None? || d != route.value.destination :: Gw.Find(table.hosts, d) == Gw.Find(old(table.hosts), d))
      && (route.Some? ==>
            var stayed := env.meddled == Some(route.value.hop);
            Gw.Matches(table.hosts, route.value) <==> stayed || Gw.SomeTook(env.route, Gw.IssuedFrom(stayed, env.route, 0, 2)))
    }

    twostate predicate Untouched()
      reads this, resolver, table
    {
      && gatewayRoute == old(gatewayRoute) && files == old(files) && table.hosts == old(table.hosts)
      && resolver.link == old(resolver.link) && resolver.file == old(resolver.file)
    }
  }

  /** What the teardown makes of an overlay with a true record, when its commands take effect. */
  lemma OverlayUndone(link: Settings, st: State, pre: Settings, env: RestoreEnv)
    requires TrueRecord(st, pre) && Readable(st) && AllTook(env.first) && AllTook(env.second)
    ensures BackOrReapplied(Recovered(World(link, Holds(st)), env), link, pre, st, env)
  {
    ReadBack(st);
    RestoredBack(link, st, pre, env);
  }

  /** When the first replacement works, or fails to stay and the second works, the endpoint's route is back. */
  lemma SecondReplacementHelps(stayed: bool, env: nat -> Gw.Attempt)
    requires env(0).replace.Done?
    requires env(0).replace.took || env(1).replace.took
    ensures stayed || Gw.SomeTook(env, Gw.IssuedFrom(stayed, env, 0, 2))
  {
    if !stayed {
      var n := Gw.IssuedFrom(false, env, 0, 2);
      if env(0).replace.took {
        assert n >= 1 && env(0).replace.took;
      } else {
        assert Gw.IssuedFrom(false, env, 1, 2) >= 1;
        assert n >= 2 && env(1).replace.took;
      }
    }
  }
}
