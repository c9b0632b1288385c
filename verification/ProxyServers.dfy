/** The server's routes: one TCPServer object per proxy, and the manager that reconciles them with the list. */
module ProxyServers {
  import opened Base
  import opened ProxyList

  datatype RunStatus = Running | Stopped

  datatype ProxyStatus = ProxyStatus(
    id: string, name: string, remote: string, wsPath: string, enabled: bool,
    run: RunStatus, startedAt: Option<nat>, error: string)

  function WSIngressPath(id: string): string {
    "/ws/" + id
  }

  class TCPServer {
    var cfg: ProxyConfig
    var status: ProxyStatus
    /** The tunnels that run through this object. */
    var activeTunnels: int

    predicate IsRunning()
      reads this
    {
      cfg.enabled && status.run == Running && status.error == ""
    }

    /** The object routes as the configuration says, and shows it. */
    predicate Serves(p: ProxyConfig)
      reads this
    {
      && cfg == p
      && status.run == (if p.enabled then Running else Stopped)
      && status.name == p.name && status.remote == p.remote && status.enabled == p.enabled
      && status.wsPath == "/ws/" + p.id
      && status.error == "" && status.startedAt.Some? == p.enabled
    }

    constructor (p: ProxyConfig, now: nat)
      ensures Serves(p) && activeTunnels == 0 && status.id == p.id
      ensures p.enabled ==> status.startedAt == Some(now)
    {
      cfg := p;
      status := ProxyStatus(p.id, p.name, p.remote, WSIngressPath(p.id), p.enabled,
                            if p.enabled then Running else Stopped, if p.enabled then Some(now) else None, "");
      activeTunnels := 0;
    }

    method ApplyStart(reload: bool, now: nat)
      modifies this`status
      ensures status == old(status).(
                run := if cfg.enabled then Running else Stopped,
                error := "",
                startedAt := if !cfg.enabled then None
                             else if reload && old(status).startedAt.Some? then old(status).startedAt else Some(now))
    {
      if !cfg.enabled {
        status := status.(run := Stopped, error := "", startedAt := None);
        return;
      }
      status := status.(run := Running, error := "");
      if !reload || status.startedAt.None? {
        status := status.(startedAt := Some(now));
      }
    }

    method Start(now: nat)
      modifies this`status
      ensures status == old(status).(
                run := if cfg.enabled then Running else Stopped, error := "",
                startedAt := if cfg.enabled then Some(now) else None)
    {
      ApplyStart(false, now);
    }

    method Stop()
      modifies this`status
      ensures status == old(status).(run := Stopped, startedAt := None)
    {
      status := status.(run := Stopped, startedAt := None);
    }

    /** The object now serves the new configuration; a running one keeps its start time. */
    method ReloadConfig(p: ProxyConfig, now: nat)
      modifies this`cfg, this`status
      ensures Serves(p)
      ensures p.enabled && old(status).startedAt.Some? ==> status.startedAt == old(status).startedAt
      ensures old(Serves(p)) ==> status == old(status)
    {
      cfg := p;
      status := status.(name := p.name, remote := p.remote, enabled := p.enabled, wsPath := WSIngressPath(p.id));
      if p.enabled {
        ApplyStart(true, now);
        return;
      }
      status := status.(run := Stopped, startedAt := None, error := "");
    }

    method IncrTunnel()
      modifies this`activeTunnels
      ensures activeTunnels == old(activeTunnels) + 1
    {
      activeTunnels := activeTunnels + 1;
    }

    method DecrTunnel()
      modifies this`activeTunnels
      ensures activeTunnels == old(activeTunnels) - 1
    {
      activeTunnels := activeTunnels - 1;
    }
  }

  datatype ProxyError = AlreadyExists | NotFound

  /** What the map holds for one id, down to the state of its object. */
  datatype Route = Route(server: TCPServer, cfg: ProxyConfig, status: ProxyStatus, tunnels: int)

  /** An object before a sync, and whether it served its own id then. */
  datatype Before = Before(cfg: ProxyConfig, status: ProxyStatus, served: bool)

  class ProxyManager {
    var servers: map<string, TCPServer>

    /** No two ids share an object. */
    predicate Valid()
      reads this
    {
      forall i, j :: i in servers && j in servers && servers[i] == servers[j] ==> i == j
    }

    /** The routes are those of the list, the last entry of an id deciding. */
    ghost predicate Synced(ps: seq<ProxyConfig>)
      reads this, servers.Values
    {
      servers.Keys == Ids(ps) && forall id :: id in servers ==> servers[id].Serves(Last(ps, id))
    }

    ghost function Snapshot(): map<string, Route>
      reads this, servers.Values
    {
      map id | id in servers :: Route(servers[id], servers[id].cfg, servers[id].status, servers[id].activeTunnels)
    }

    constructor ()
      ensures Valid() && servers == map[]
    {
      servers := map[];
    }

    method AddProxy(p: ProxyConfig, now: nat) returns (r: Result<(), ProxyError>)
      requires Valid()
      modifies this
      ensures Valid()
      ensures r == if p.id in old(servers) then Err(AlreadyExists) else Ok(())
      ensures r.Err? ==> servers == old(servers)
      ensures r.Ok? ==>
                && servers.Keys == old(servers.Keys) + {p.id}
                && fresh(servers[p.id]) && servers[p.id].Serves(p) && servers[p.id].activeTunnels == 0
                && forall id :: id in old(servers) ==> servers[id] == old(servers)[id]
    {
      if p.id in servers {
        return Err(AlreadyExists);
      }
      var s := new TCPServer(p, now);
      if p.enabled {
        s.Start(now);
      }
      servers := servers[p.id := s];
      return Ok(());
    }

    /** At start the first entry of each id gets the route; a later one is refused. */
    method StartAll(ps: seq<ProxyConfig>, now: nat)
      requires Valid()
      modifies this
      ensures Valid() && servers.Keys == old(servers.Keys) + Ids(ps)
      ensures forall id :: id in servers ==>
                if id in old(servers) then servers[id] == old(servers)[id]
                else fresh(servers[id]) && servers[id].Serves(First(ps, id)) && servers[id].activeTunnels == 0
    {
      var i := 0;
      while i < |ps|
        invariant 0 <= i <= |ps| && Valid() && servers.Keys == old(servers.Keys) + Ids(ps[..i])
        invariant forall id :: id in servers ==>
                    if id in old(servers) then servers[id] == old(servers)[id]
                    else fresh(servers[id]) && servers[id].Serves(First(ps[..i], id)) && servers[id].activeTunnels == 0
      {
        var r := AddProxy(ps[i], now);
        assert ps[..i + 1][..i] == ps[..i];
        i := i + 1;
      }
      assert ps[..i] == ps;
    }

    method RemoveProxy(id: string) returns (r: Result<(), ProxyError>)
      requires Valid()
      modifies this, (if id in servers then {servers[id]} else {})`status
      ensures Valid()
      ensures r == if id in old(servers) then Ok(()) else Err(NotFound)
      ensures servers == old(servers) - {id}
      ensures id in old(servers) ==>
                old(servers)[id].status == old(servers[id].status).(run := Stopped, startedAt := None)
    {
      if id !in servers {
        return Err(NotFound);
      }
      servers[id].Stop();
      servers := servers - {id};
      return Ok(());
    }

    /** The object is replaced; the old one is stopped and keeps its tunnels. */
    method UpdateProxy(id: string, p: ProxyConfig, now: nat) returns (r: Result<(), ProxyError>)
      requires Valid()
      modifies this, (if id in servers then {servers[id]} else {})`status
      ensures Valid()
      ensures r == if id in old(servers) then Ok(()) else Err(NotFound)
      ensures r.Err? ==> servers == old(servers)
      ensures r.Ok? ==>
                && id in servers && servers == old(servers)[id := servers[id]]
                && fresh(servers[id]) && servers[id].Serves(p) && servers[id].activeTunnels == 0
                && old(servers)[id].status == old(servers[id].status).(run := Stopped, startedAt := None)
    {
      if id !in servers {
        return Err(NotFound);
      }
      servers[id].Stop();
      var s := new TCPServer(p, now);
      if p.enabled {
        s.Start(now);
      }
      servers := servers[id := s];
      return Ok(());
    }

    /**
     One entry of the list: an entry with the same route keeps its object, and that
     as it was if it served the entry already; any other gets a new one.
     */
    method SyncEntry(p: ProxyConfig, now: nat)
      requires Valid()
      modifies this, (if p.id in servers then {servers[p.id]} else {})`cfg
      modifies (if p.id in servers then {servers[p.id]} else {})`status
      ensures Valid()
      ensures p.id in servers && servers == old(servers)[p.id := servers[p.id]] && servers[p.id].Serves(p)
      ensures if p.id in old(servers) && old(servers[p.id].cfg).enabled == p.enabled
                 && old(servers[p.id].cfg).remote == p.remote && old(servers[p.id].cfg).name == p.name
              then servers[p.id] == old(servers)[p.id]
              else fresh(servers[p.id]) && servers[p.id].activeTunnels == 0
      ensures p.id in old(servers) && old(servers[p.id].Serves(p)) ==> servers[p.id].status == old(servers[p.id].status)
      ensures p.id in old(servers) && !SameRoute(old(servers[p.id].cfg), p) ==> old(servers)[p.id].status.run == Stopped
    {
      if p.id in servers {
        var s := servers[p.id];
        if s.cfg.enabled != p.enabled || s.cfg.remote != p.remote || s.cfg.name != p.name {
          s.Stop();
          var ns := new TCPServer(p, now);
          if p.enabled {
            ns.Start(now);
          }
          servers := servers[p.id := ns];
        } else {
          s.ReloadConfig(p, now);
        }
      } else {
        var ns := new TCPServer(p, now);
        if p.enabled {
          ns.Start(now);
        }
        servers := servers[p.id := ns];
      }
    }

    /**
     Afterwards the routes are those of the list alone, whatever they were before:
     the last entry of each id is served, and nothing else is in the map. An object
     stays in place exactly if no entry asks for another route, and then as it was,
     start time included, if it served its entry before; the objects that go are
     stopped, and every tunnel count is kept. Syncing once more changes nothing at
     all exactly if no two entries with one id ask for different routes.
     */
    method SyncWithConfig(ps: seq<ProxyConfig>, now: nat)
      requires Valid()
      modifies this, servers.Values`cfg, servers.Values`status
      ensures Valid() && Synced(ps)
      ensures forall id :: id in servers && id in old(servers) ==>
                (servers[id] == old(servers)[id] <==> Kept(old(servers[id].cfg), ps, id))
      ensures forall id :: id in servers && !(id in old(servers) && servers[id] == old(servers)[id]) ==>
                fresh(servers[id]) && servers[id].activeTunnels == 0
      ensures forall id :: id in servers && id in old(servers) && servers[id] == old(servers)[id]
                           && old(servers[id].Serves(servers[id].cfg)) && old(servers[id].cfg).id == id ==>
                servers[id].cfg == old(servers[id].cfg) && servers[id].status == old(servers[id].status)
      ensures forall id :: id in old(servers) && !(id in servers && servers[id] == old(servers)[id]) ==>
                old(servers)[id].status.run == Stopped
      ensures old(Synced(ps)) ==> (Snapshot() == old(Snapshot()) <==> Consistent(ps))
    {
      SecondSyncKeepsAll(ps);
      LastHasId(ps);
      hide Kept, Last, Ids, Consistent, AllKept, Snapshot, TCPServer.Serves, SameRoute;
      var active := SyncEntries(ps, now);
      StopOthers(active);
      if old(Synced(ps)) {
        SyncedAgain(ps);
      }
    }

    twostate lemma SyncedAgain(ps: seq<ProxyConfig>)
      requires old(Synced(ps)) && Synced(ps)
      requires forall id :: id in Ids(ps) ==> Last(ps, id).id == id
      requires AllKept(ps) <==> Consistent(ps)
      requires forall id :: id in servers && id in old(servers) ==>
                 (servers[id] == old(servers)[id] <==> Kept(old(servers[id].cfg), ps, id))
      requires forall id :: id in servers && id in old(servers) && servers[id] == old(servers)[id]
                            && old(servers[id].Serves(servers[id].cfg)) && old(servers[id].cfg).id == id ==>
                 servers[id].cfg == old(servers[id].cfg) && servers[id].status == old(servers[id].status)
      requires forall id :: id in old(servers) ==> old(servers)[id].activeTunnels == old(servers[id].activeTunnels)
      ensures Snapshot() == old(Snapshot()) <==> Consistent(ps)
    {
      hide Kept, Ids, Last, Consistent;
      if Consistent(ps) {
        forall id | id in servers
          ensures Snapshot()[id] == old(Snapshot())[id]
        {
          assert old(servers[id].Serves(Last(ps, id)));
        }
      }
      if Snapshot() == old(Snapshot()) {
        forall id | id in Ids(ps)
          ensures Kept(Last(ps, id), ps, id)
        {
          assert Snapshot()[id].server == old(Snapshot())[id].server;
          assert old(servers[id].Serves(Last(ps, id)));
        }
      }
    }

    /** Two syncs to one list: `once` is what the first one leaves. */
    method SyncTwice(ps: seq<ProxyConfig>, now: nat, later: nat) returns (ghost once: map<string, Route>)
      requires Valid()
      modifies this, servers.Values`cfg, servers.Values`status
      ensures Valid() && Synced(ps) && once.Keys == Ids(ps)
      ensures Snapshot() == once <==> Consistent(ps)
    {
      hide Ids, Last, Kept, Consistent, TCPServer.Serves;
      SyncWithConfig(ps, now);
      once := Snapshot();
      SyncWithConfig(ps, later);
    }

    method SyncEntries(ps: seq<ProxyConfig>, now: nat) returns (active: set<string>)
      requires Valid()
      modifies this, servers.Values`cfg, servers.Values`status
      ensures Valid() && active == Ids(ps)
      ensures forall id :: id in servers <==> id in old(servers) || id in active
      ensures forall id :: id in active ==> servers[id].Serves(Last(ps, id))
      ensures forall id :: id in old(servers) ==>
                if Kept(old(servers[id].cfg), ps, id) then servers[id] == old(servers)[id]
                else fresh(servers[id]) && old(servers)[id].status.run == Stopped
      ensures forall id :: id in old(servers) && servers[id] == old(servers)[id]
                           && old(servers[id].Serves(servers[id].cfg)) && old(servers[id].cfg).id == id ==>
                servers[id].cfg == old(servers[id].cfg) && servers[id].status == old(servers[id].status)
      ensures forall id :: id in servers && !(id in old(servers) && servers[id] == old(servers)[id]) ==>
                fresh(servers[id]) && servers[id].activeTunnels == 0
    {
      ghost var was := servers;
      ghost var seen := map id | id in servers ::
        Before(servers[id].cfg, servers[id].status, servers[id].Serves(servers[id].cfg) && servers[id].cfg.id == id);
      assert forall id :: id in was.Keys + Ids(ps) ==> Reconciled(was, seen, [], id);
      active := SyncLoop(ps, now, was, seen, was.Keys + Ids(ps));
      hide Kept, Last, Ids;
      assert forall id :: id in was.Keys + Ids(ps) ==> Reconciled(was, seen, ps, id);
    }

    method SyncLoop(ps: seq<ProxyConfig>, now: nat, ghost was: map<string, TCPServer>,
                    ghost seen: map<string, Before>, ghost all: set<string>)
      returns (active: set<string>)
      requires Valid() && was == servers && all == was.Keys + Ids(ps) && seen.Keys == was.Keys
      requires forall id :: id in all ==> Reconciled(was, seen, [], id)
      modifies this, servers.Values`cfg, servers.Values`status
      ensures Valid() && active == Ids(ps)
      ensures forall id :: id in servers <==> id in was || id in active
      ensures forall id :: id in servers ==> servers[id] in was.Values || fresh(servers[id])
      ensures forall id :: id in all ==> Reconciled(was, seen, ps, id)
    {
      active := {};
      var i := 0;
      assert ps[..i] == [] && Ids([]) == {};
      hide Reconciled, Ids;
      while i < |ps|
        invariant 0 <= i <= |ps| && Valid()
        invariant active == Ids(ps[..i])
        invariant forall id :: id in servers <==> id in was || id in active
        invariant forall id :: id in servers ==> servers[id] in was.Values || fresh(servers[id])
        invariant forall id :: id in all ==> Reconciled(was, seen, ps[..i], id)
      {
        IdsAreListed(ps, ps[i].id);
        active := active + {ps[i].id};
        SyncStep(ps, i, now, was, seen, all);
        i := i + 1;
      }
      assert ps[..i] == ps;
    }

    method SyncStep(ps: seq<ProxyConfig>, i: nat, now: nat, ghost was: map<string, TCPServer>,
                    ghost seen: map<string, Before>, ghost all: set<string>)
      requires Valid() && i < |ps| && seen.Keys == was.Keys
      requires ps[i].id in all
      requires forall i, j :: i in was && j in was && was[i] == was[j] ==> i == j
      requires forall id :: id in all ==> Reconciled(was, seen, ps[..i], id)
      modifies this, (if ps[i].id in servers then {servers[ps[i].id]} else {})`cfg
      modifies (if ps[i].id in servers then {servers[ps[i].id]} else {})`status
      ensures Valid() && ps[i].id in servers
      ensures fresh(servers[ps[i].id]) || (ps[i].id in old(servers) && servers[ps[i].id] == old(servers)[ps[i].id])
      ensures servers == old(servers)[ps[i].id := servers[ps[i].id]]
      ensures Ids(ps[..i + 1]) == Ids(ps[..i]) + {ps[i].id}
      ensures forall id :: id in all ==> Reconciled(was, seen, ps[..i + 1], id)
    {
      hide Kept, Last, Ids;
      SyncEntry(ps[i], now);
      forall id | id in all
        ensures Reconciled(was, seen, ps[..i + 1], id)
      {
        assert old(Reconciled(was, seen, ps[..i], id));
        OneMoreEntry(ps, i, if id in seen then seen[id].cfg else ps[i], id);
      }
      OneMoreEntry(ps, i, ps[i], ps[i].id);
    }

    method StopOthers(active: set<string>)
      requires Valid()
      modifies this, (set id | id in servers && id !in active :: servers[id])`status
      ensures Valid()
      ensures forall id :: id in servers <==> id in old(servers) && id in active
      ensures forall id :: id in servers ==> servers[id] == old(servers)[id]
      ensures forall id :: id in old(servers) && id !in active ==> old(servers)[id].status.run == Stopped
    {
      ghost var was := servers;
      var rest := servers.Keys - active;
      while rest != {}
        invariant rest <= was.Keys - active
        invariant forall id :: id in servers <==> id in was && (id in active || id in rest)
        invariant forall id :: id in servers ==> servers[id] == was[id]
        invariant forall id :: id in was && id !in active && id !in rest ==> was[id].status.run == Stopped
        decreases |rest|
      {
        var id :| id in rest;
        StopOne(id);
        rest := rest - {id};
      }
    }

    method StopOne(id: string)
      requires id in servers
      modifies this, {servers[id]}`status
      ensures servers == old(servers) - {id} && old(servers)[id].status.run == Stopped
    {
      servers[id].Stop();
      servers := servers - {id};
    }

    /** The state of one id once the entries `ps` have been taken in. */
    ghost predicate Reconciled(
      was: map<string, TCPServer>, seen: map<string, Before>, ps: seq<ProxyConfig>, id: string)
      requires seen.Keys == was.Keys
      reads this, servers.Values, was.Values
    {
      && (id in Ids(ps) ==> id in servers && servers[id].Serves(Last(ps, id)))
      && (id in servers && id !in was ==> id in Ids(ps))
      && (id in servers && servers[id] !in was.Values ==> servers[id].activeTunnels == 0)
      && (id in servers && servers[id] in was.Values ==> id in was && servers[id] == was[id])
      && (id in was ==>
            && id in servers
            && (if Kept(seen[id].cfg, ps, id) then
                  && servers[id] == was[id] && SameRoute(seen[id].cfg, was[id].cfg)
                  && (seen[id].served ==> IsAsBefore(was[id], seen[id], id))
                else servers[id] !in was.Values && was[id].status.run == Stopped))
    }

    ghost predicate IsAsBefore(s: TCPServer, b: Before, id: string)
      reads s
    {
      s.cfg == b.cfg && s.status == b.status && s.Serves(b.cfg) && b.cfg.id == id
    }
  }
}
