/** The admin handlers: each pairs an edit of the saved list with one of the running routes. */
module AdminApi {
  import opened Base
  import opened ProxyList
  import opened ProxyServers

  datatype ConfigError = Unknown | SaveFailed

  class ConfigManager {
    /** net.ResolveTCPAddr accepts the address. */
    const resolves: string -> bool
    /** The list in memory. Every edit works on this one list, before it is validated. */
    var proxies: seq<ProxyConfig>
    var file: seq<ProxyConfig>

    constructor (resolves: string -> bool, file: seq<ProxyConfig>)
      ensures this.resolves == resolves && this.file == file && proxies == file
    {
      this.resolves := resolves;
      this.file, proxies := file, file;
    }

    predicate Valid(ps: seq<ProxyConfig>) {
      forall i :: 0 <= i < |ps| ==> resolves(ps[i].remote)
    }

    method Validate(ps: seq<ProxyConfig>) returns (ok: bool)
      ensures ok == Valid(ps)
    {
      for i := 0 to |ps|
        invariant forall j :: 0 <= j < i ==> resolves(ps[j].remote)
      {
        if !resolves(ps[i].remote) {
          return false;
        }
      }
      return true;
    }

    method Save(written: bool) returns (saved: bool)
      modifies this`file
      ensures saved == (Valid(proxies) && written)
      ensures file == if saved then proxies else old(file)
    {
      var ok := Validate(proxies);
      if !ok || !written {
        return false;
      }
      file := proxies;
      return true;
    }

    method AddProxy(p: ProxyConfig, written: bool) returns (r: Result<(), ConfigError>)
      modifies this
      ensures proxies == old(proxies) + [p]
      ensures r == if Valid(proxies) && written then Ok(()) else Err(SaveFailed)
      ensures file == if r.Ok? then proxies else old(file)
    {
      proxies := proxies + [p];
      var saved := Save(written);
      return if saved then Ok(()) else Err(SaveFailed);
    }

    method FindFirst(id: string) returns (k: Option<nat>)
      ensures k.Some? ==> FirstAt(proxies, id, k.value)
      ensures k.None? ==> forall j :: 0 <= j < |proxies| ==> proxies[j].id != id
      ensures k.Some? <==> id in Ids(proxies)
    {
      IdsAreListed(proxies, id);
      for i := 0 to |proxies|
        invariant forall j :: 0 <= j < i ==> proxies[j].id != id
      {
        if proxies[i].id == id {
          return Some(i);
        }
      }
      return None;
    }

    /** The first entry with the id is replaced, and keeps its id. */
    method UpdateProxy(id: string, p: ProxyConfig, written: bool) returns (r: Result<(), ConfigError>, ghost k: nat)
      modifies this
      ensures id !in Ids(old(proxies)) ==> r == Err(Unknown) && proxies == old(proxies)
      ensures id in Ids(old(proxies)) ==> FirstAt(old(proxies), id, k) && proxies == old(proxies)[k := p.(id := id)]
      ensures id in Ids(old(proxies)) ==> r == if Valid(proxies) && written then Ok(()) else Err(SaveFailed)
      ensures file == if r.Ok? then proxies else old(file)
    {
      var at := FindFirst(id);
      if at.None? {
        return Err(Unknown), 0;
      }
      k := at.value;
      proxies := proxies[at.value := p.(id := id)];
      var saved := Save(written);
      r := if saved then Ok(()) else Err(SaveFailed);
    }

    method RemoveProxy(id: string, written: bool) returns (r: Result<(), ConfigError>, ghost k: nat)
      modifies this
      ensures id !in Ids(old(proxies)) ==> r == Err(Unknown) && proxies == old(proxies)
      ensures id in Ids(old(proxies)) ==> FirstAt(old(proxies), id, k) && proxies == Without(old(proxies), k)
      ensures id in Ids(old(proxies)) ==> r == if Valid(proxies) && written then Ok(()) else Err(SaveFailed)
      ensures file == if r.Ok? then proxies else old(file)
    {
      var at := FindFirst(id);
      if at.None? {
        return Err(Unknown), 0;
      }
      k := at.value;
      proxies := proxies[..at.value] + proxies[at.value + 1..];
      var saved := Save(written);
      r := if saved then Ok(()) else Err(SaveFailed);
    }

    /** `disk` is what the file holds now, None if it cannot be read or parsed. */
    method Reload(disk: Option<seq<ProxyConfig>>) returns (ok: bool)
      modifies this
      ensures ok == disk.Some?
      ensures if ok then proxies == disk.value && file == disk.value else proxies == old(proxies) && file == old(file)
    {
      if disk.None? {
        return false;
      }
      proxies, file := disk.value, disk.value;
      return true;
    }
  }

  datatype ApiError = ConfigFailed(e: ConfigError) | RuntimeFailed(p: ProxyError) | ReloadFailed
  class Handler {
    const cfgMgr: ConfigManager
    const proxyMgr: ProxyManager
    /** Every object an ingress handler has looked up, whether it is still in the map or not. */
    ghost var seen: set<TCPServer>
    /** One element for every ingress handler that is relaying through an object. */
    ghost var held: multiset<TCPServer>

    ghost predicate Valid()
      reads this, proxyMgr, proxyMgr.servers.Values, seen
    {
      proxyMgr.Valid() && Counted() && Placed()
    }

    /** Every object counts the handlers that relay through it. */
    ghost predicate Counted()
      reads this, proxyMgr, proxyMgr.servers.Values, seen
    {
      && (forall id :: id in proxyMgr.servers ==> proxyMgr.servers[id].activeTunnels == held[proxyMgr.servers[id]])
      && (forall s :: s in seen ==> s.activeTunnels == held[s])
      && (forall s :: s in held ==> s in seen)
    }

    /** Objects in the map run as they are configured; objects that have left it are stopped. */
    ghost predicate Placed()
      reads this, proxyMgr, proxyMgr.servers.Values, seen
    {
      && (forall id :: id in proxyMgr.servers ==> proxyMgr.servers[id].Serves(proxyMgr.servers[id].cfg))
      && (forall s :: s in seen && s !in proxyMgr.servers.Values ==> s.status.run == Stopped)
    }

    /** The routes are those of the list in memory. */
    ghost predicate Agree()
      reads cfgMgr, proxyMgr, proxyMgr.servers.Values
    {
      && Distinct(cfgMgr.proxies)
      && proxyMgr.servers.Keys == Ids(cfgMgr.proxies)
      && (forall k :: 0 <= k < |cfgMgr.proxies| ==>
            && cfgMgr.proxies[k].id in proxyMgr.servers
            && proxyMgr.servers[cfgMgr.proxies[k].id].Serves(cfgMgr.proxies[k]))
    }

    /** The program's start: every route is brought up from the list. */
    constructor (cfgMgr: ConfigManager, now: nat)
      ensures fresh(proxyMgr) && this.cfgMgr == cfgMgr && Valid()
      ensures Distinct(cfgMgr.proxies) ==> Agree()
    {
      var mgr := new ProxyManager();
      mgr.StartAll(cfgMgr.proxies, now);
      this.cfgMgr, proxyMgr, seen, held := cfgMgr, mgr, {}, multiset{};
      new;
      hide Ids, First, Agree, Placed, Counted, TCPServer.Serves, ProxyManager.Valid;
      AgreesOnceStarted();
      AllServeTheirOwn();
      NothingCounted();
    }

    lemma NothingCounted()
      requires seen == {} && held == multiset{}
      requires forall id :: id in proxyMgr.servers ==> proxyMgr.servers[id].activeTunnels == 0
      ensures Counted()
    {
    }

    lemma AllServeTheirOwn()
      requires seen == {} && forall id :: id in proxyMgr.servers && id in Ids(cfgMgr.proxies) ==>
                 proxyMgr.servers[id].Serves(First(cfgMgr.proxies, id))
      requires proxyMgr.servers.Keys == Ids(cfgMgr.proxies)
      ensures Placed()
    {
      hide Ids, First;
    }

    lemma AgreesOnceStarted()
      requires proxyMgr.servers.Keys == Ids(cfgMgr.proxies)
      requires forall id :: id in proxyMgr.servers ==> proxyMgr.servers[id].Serves(First(cfgMgr.proxies, id))
      ensures Distinct(cfgMgr.proxies) ==> Agree()
    {
      var ps := cfgMgr.proxies;
      if Distinct(ps) {
        AllListed(ps);
        forall id | id in Ids(ps)
          ensures First(ps, id) == Last(ps, id)
        {
          FirstIsLast(ps, id);
        }
        AgreesIfDistinct();
      }
      hide Ids, First, Last, Agree, TCPServer.Serves;
    }

    // ---- What one half of an edit does to the invariants ----

    /** Counts stay with their objects, and new objects start at zero. */
    twostate lemma CountedStays()
      requires old(Counted()) && held == old(held) && seen == old(seen)
      requires forall id :: id in proxyMgr.servers ==>
                 || (id in old(proxyMgr.servers) && proxyMgr.servers[id] == old(proxyMgr.servers)[id])
                 || (fresh(proxyMgr.servers[id]) && proxyMgr.servers[id].activeTunnels == 0)
      requires forall id :: id in old(proxyMgr.servers) ==>
                 old(proxyMgr.servers)[id].activeTunnels == old(proxyMgr.servers[id].activeTunnels)
      requires forall s :: s in old(seen) ==> s.activeTunnels == old(s.activeTunnels)
      ensures Counted()
    {
    }

    /** One object is counted once more or once less. */
    twostate lemma CountedOnce(s: TCPServer)
      requires old(Counted()) && seen == old(seen) && proxyMgr.servers == old(proxyMgr.servers)
      requires s in seen && s.activeTunnels == held[s]
      requires forall t :: t != s ==> held[t] == old(held)[t]
      requires forall t :: t in seen && t != s ==> t.activeTunnels == old(t.activeTunnels)
      requires forall id :: id in proxyMgr.servers && proxyMgr.servers[id] != s ==>
                 proxyMgr.servers[id].activeTunnels == old(proxyMgr.servers[id].activeTunnels)
      ensures Counted()
    {
    }

    /** What has left the map is stopped, and what had left it before is not touched. */
    twostate lemma PlacedStays()
      requires old(Placed()) && seen == old(seen)
      requires forall id :: id in proxyMgr.servers ==> proxyMgr.servers[id].Serves(proxyMgr.servers[id].cfg)
      requires forall id :: id in old(proxyMgr.servers) ==>
                 || (id in proxyMgr.servers && proxyMgr.servers[id] == old(proxyMgr.servers)[id])
                 || old(proxyMgr.servers)[id].status.run == Stopped
      requires forall s :: s in old(seen) && s !in old(proxyMgr.servers).Values ==> s.status == old(s.status)
      ensures Placed()
    {
      hide TCPServer.Serves;
    }

    /** The object of every id but one is where it was, as it was. */
    twostate predicate OthersStay(id: string)
      reads proxyMgr, proxyMgr.servers.Values
    {
      && (forall i :: i != id ==> (i in proxyMgr.servers <==> i in old(proxyMgr.servers)))
      && (forall i :: i in proxyMgr.servers && i != id && i in old(proxyMgr.servers) ==>
            && proxyMgr.servers[i] == old(proxyMgr.servers)[i]
            && proxyMgr.servers[i].cfg == old(proxyMgr.servers[i].cfg)
            && proxyMgr.servers[i].status == old(proxyMgr.servers[i].status))
    }

    /** An edit of one id that stops the object it takes out keeps the handlers' invariant. */
    twostate lemma EditKeepsValid(id: string)
      requires old(Valid()) && proxyMgr.Valid() && held == old(held) && seen == old(seen) && OthersStay(id)
      requires id in proxyMgr.servers ==>
                 || (id in old(proxyMgr.servers) && proxyMgr.servers[id] == old(proxyMgr.servers)[id]
                     && proxyMgr.servers[id].cfg == old(proxyMgr.servers[id].cfg)
                     && proxyMgr.servers[id].status == old(proxyMgr.servers[id].status))
                 || (fresh(proxyMgr.servers[id]) && proxyMgr.servers[id].activeTunnels == 0
                     && proxyMgr.servers[id].Serves(proxyMgr.servers[id].cfg))
      requires id in old(proxyMgr.servers) ==>
                 || (id in proxyMgr.servers && proxyMgr.servers[id] == old(proxyMgr.servers)[id])
                 || old(proxyMgr.servers)[id].status.run == Stopped
      requires forall i :: i in old(proxyMgr.servers) ==>
                 old(proxyMgr.servers)[i].activeTunnels == old(proxyMgr.servers[i].activeTunnels)
      requires forall s :: s in old(seen) ==> s.activeTunnels == old(s.activeTunnels)
      requires forall s :: s in old(seen) && s !in old(proxyMgr.servers).Values ==> s.status == old(s.status)
      ensures Valid()
    {
      hide Counted, Placed, TCPServer.Serves;
      CountedStays();
      OthersServe(id);
      PlacedStays();
    }

    twostate lemma OthersServe(id: string)
      requires old(Placed()) && OthersStay(id)
      ensures forall i :: i in proxyMgr.servers && i in old(proxyMgr.servers) && i != id ==>
                proxyMgr.servers[i].Serves(proxyMgr.servers[i].cfg)
      ensures id in proxyMgr.servers && id in old(proxyMgr.servers) && proxyMgr.servers[id] == old(proxyMgr.servers)[id]
              && proxyMgr.servers[id].cfg == old(proxyMgr.servers[id].cfg)
              && proxyMgr.servers[id].status == old(proxyMgr.servers[id].status) ==>
                proxyMgr.servers[id].Serves(proxyMgr.servers[id].cfg)
    {
      assert forall i :: i in old(proxyMgr.servers) ==> old(proxyMgr.servers[i].Serves(proxyMgr.servers[i].cfg));
    }

    twostate lemma AgreedIds()
      requires old(Agree())
      ensures old(proxyMgr.servers).Keys == Ids(old(cfgMgr.proxies))
      ensures forall k :: 0 <= k < |old(cfgMgr.proxies)| ==>
                && old(cfgMgr.proxies)[k].id in old(proxyMgr.servers)
                && old(proxyMgr.servers[cfgMgr.proxies[k].id].Serves(cfgMgr.proxies[k]))
    {
    }

    lemma CountOf(s: TCPServer)
      requires Counted() && (s in seen || s in held)
      ensures s in seen && s.activeTunnels == held[s]
    {
    }

    twostate lemma SamePlaces()
      requires old(Placed()) && seen == old(seen) && proxyMgr.servers == old(proxyMgr.servers)
      requires forall id :: id in proxyMgr.servers ==>
                 proxyMgr.servers[id].cfg == old(proxyMgr.servers[id].cfg)
                 && proxyMgr.servers[id].status == old(proxyMgr.servers[id].status)
      requires forall s :: s in seen ==> s.status == old(s.status)
      ensures Placed()
    {
    }

    /** What Agree() speaks of has not changed. */
    twostate lemma SameAgreement()
      requires cfgMgr.proxies == old(cfgMgr.proxies) && proxyMgr.servers == old(proxyMgr.servers)
      requires forall id :: id in proxyMgr.servers ==>
                 proxyMgr.servers[id].cfg == old(proxyMgr.servers[id].cfg)
                 && proxyMgr.servers[id].status == old(proxyMgr.servers[id].status)
      ensures Agree() <==> old(Agree())
    {
    }

    twostate lemma AddAgrees(p: ProxyConfig)
      requires old(Agree()) && p.id !in Ids(old(cfgMgr.proxies)) && cfgMgr.proxies == old(cfgMgr.proxies) + [p]
      requires OthersStay(p.id)
      ensures Agree() <==> p.id in proxyMgr.servers && proxyMgr.servers[p.id].Serves(p)
    {
      var was := old(cfgMgr.proxies);
      IdsAfterAppend(was, p);
      AllListed(was);
      hide Ids;
      assert cfgMgr.proxies[|was|] == p;
      assert forall k :: 0 <= k < |was| ==> cfgMgr.proxies[k] == was[k];
    }

    twostate lemma ReplaceAgrees(k: nat, new p: ProxyConfig)
      requires old(Agree()) && k < |old(cfgMgr.proxies)| && old(cfgMgr.proxies)[k].id == p.id
      requires cfgMgr.proxies == old(cfgMgr.proxies)[k := p]
      requires OthersStay(p.id) && p.id in proxyMgr.servers
      ensures Agree() <==> proxyMgr.servers[p.id].Serves(p)
    {
      var was := old(cfgMgr.proxies);
      IdsAfterReplace(was, k, p);
      AllListed(was);
      hide Ids;
      assert cfgMgr.proxies[k] == p;
      assert forall j :: 0 <= j < |was| && j != k ==> cfgMgr.proxies[j] == was[j];
    }

    twostate lemma RemoveAgrees(k: nat)
      requires old(Agree()) && k < |old(cfgMgr.proxies)| && cfgMgr.proxies == Without(old(cfgMgr.proxies), k)
      requires OthersStay(old(cfgMgr.proxies)[k].id)
      ensures Agree() <==> old(cfgMgr.proxies)[k].id !in proxyMgr.servers
    {
      var was := old(cfgMgr.proxies);
      IdsAfterRemove(was, k);
      WithoutAt(was, k);
      AllListed(was);
      hide Ids, Without;
    }

    /**
     The new id is generated: the list does not hold it. If both sides agreed
     before, the runtime half cannot fail, and they agree again exactly if every
     address of the longer list resolves and the file can be written.
     */
    method CreateProxy(newId: string, name: string, remote: string, enabled: bool, written: bool, now: nat)
      returns (r: Result<ProxyConfig, ApiError>)
      requires Valid() && newId !in Ids(cfgMgr.proxies)
      modifies cfgMgr, proxyMgr
      ensures Valid()
      ensures cfgMgr.proxies == old(cfgMgr.proxies) + [ProxyConfig(newId, name, remote, enabled)]
      ensures r == if !cfgMgr.Valid(cfgMgr.proxies) || !written then Err(ConfigFailed(SaveFailed))
                   else if newId in old(proxyMgr.servers) then Err(RuntimeFailed(AlreadyExists))
                   else Ok(ProxyConfig(newId, name, remote, enabled))
      ensures old(Agree()) ==>
                var p := ProxyConfig(newId, name, remote, enabled);
                && r != Err(RuntimeFailed(AlreadyExists))
                && (Agree() <==> cfgMgr.Valid(old(cfgMgr.proxies) + [p]) && written)
      ensures cfgMgr.file == if cfgMgr.Valid(cfgMgr.proxies) && written then cfgMgr.proxies else old(cfgMgr.file)
      ensures OthersStay(newId) && (r.Err? ==> proxyMgr.servers == old(proxyMgr.servers))
      ensures r.Ok? ==> newId in proxyMgr.servers && proxyMgr.servers[newId].Serves(r.value)
    {
      hide Ids, Counted, Placed, Agree;
      var p := ProxyConfig(newId, name, remote, enabled);
      var c := cfgMgr.AddProxy(p, written);
      if c.Err? {
        r := Err(ConfigFailed(c.error));
      } else {
        var e := proxyMgr.AddProxy(p, now);
        r := if e.Err? then Err(RuntimeFailed(e.error)) else Ok(p);
      }
      EditKeepsValid(newId);
      if old(Agree()) {
        AgreedIds();
        AddAgrees(p);
      }
    }

    /** Likewise; without a save the two sides agree only if the update asked for nothing new. */
    method UpdateProxy(id: string, name: string, remote: string, enabled: bool, written: bool, now: nat)
      returns (r: Result<ProxyConfig, ApiError>, ghost k: nat)
      requires Valid()
      modifies cfgMgr, proxyMgr, proxyMgr.servers.Values`status
      ensures Valid()
      ensures id !in Ids(old(cfgMgr.proxies)) ==>
                r == Err(ConfigFailed(Unknown)) && cfgMgr.proxies == old(cfgMgr.proxies)
      ensures id in Ids(old(cfgMgr.proxies)) ==>
                && FirstAt(old(cfgMgr.proxies), id, k)
                && cfgMgr.proxies == old(cfgMgr.proxies)[k := ProxyConfig(id, name, remote, enabled)]
                && r == if !cfgMgr.Valid(cfgMgr.proxies) || !written then Err(ConfigFailed(SaveFailed))
                        else if id !in old(proxyMgr.servers) then Err(RuntimeFailed(NotFound))
                        else Ok(ProxyConfig(id, name, remote, enabled))
      ensures old(Agree()) ==> r != Err(RuntimeFailed(NotFound))
      ensures old(Agree()) && id !in Ids(old(cfgMgr.proxies)) ==> Agree()
      ensures old(Agree()) && id in Ids(old(cfgMgr.proxies)) ==>
                var p := ProxyConfig(id, name, remote, enabled);
                Agree() <==> old(cfgMgr.proxies)[k] == p || (cfgMgr.Valid(old(cfgMgr.proxies)[k := p]) && written)
      ensures OthersStay(id) && (r.Err? ==> proxyMgr.servers == old(proxyMgr.servers))
      ensures r.Ok? ==> id in proxyMgr.servers && proxyMgr.servers[id].Serves(r.value)
    {
      hide Ids, Counted, Placed, Agree;
      var p := ProxyConfig(id, name, remote, enabled);
      var c;
      c, k := cfgMgr.UpdateProxy(id, p, written);
      if c.Err? {
        r := Err(ConfigFailed(c.error));
      } else {
        var e := proxyMgr.UpdateProxy(id, p, now);
        r := if e.Err? then Err(RuntimeFailed(e.error)) else Ok(p);
      }
      EditKeepsValid(id);
      if old(Agree()) {
        AgreedIds();
        if id in Ids(old(cfgMgr.proxies)) {
          ReplaceAgrees(k, p);
        } else {
          SameAgreement();
        }
      }
    }

    method DeleteProxy(id: string, written: bool) returns (r: Result<(), ApiError>, ghost k: nat)
      requires Valid()
      modifies cfgMgr, proxyMgr, proxyMgr.servers.Values`status
      ensures Valid()
      ensures id !in Ids(old(cfgMgr.proxies)) ==>
                r == Err(ConfigFailed(Unknown)) && cfgMgr.proxies == old(cfgMgr.proxies)
      ensures id in Ids(old(cfgMgr.proxies)) ==>
                && FirstAt(old(cfgMgr.proxies), id, k)
                && cfgMgr.proxies == Without(old(cfgMgr.proxies), k)
                && r == if !cfgMgr.Valid(cfgMgr.proxies) || !written then Err(ConfigFailed(SaveFailed))
                        else if id !in old(proxyMgr.servers) then Err(RuntimeFailed(NotFound))
                        else Ok(())
      ensures old(Agree()) ==> r != Err(RuntimeFailed(NotFound))
      ensures old(Agree()) && id !in Ids(old(cfgMgr.proxies)) ==> Agree()
      ensures old(Agree()) && id in Ids(old(cfgMgr.proxies)) ==>
                (Agree() <==> cfgMgr.Valid(Without(old(cfgMgr.proxies), k)) && written)
      ensures OthersStay(id)
      ensures proxyMgr.servers == if r.Err? then old(proxyMgr.servers) else old(proxyMgr.servers) - {id}
    {
      hide Ids, Counted, Placed, Agree, Without;
      var c;
      c, k := cfgMgr.RemoveProxy(id, written);
      if c.Err? {
        r := Err(ConfigFailed(c.error));
      } else {
        var e := proxyMgr.RemoveProxy(id);
        r := if e.Err? then Err(RuntimeFailed(e.error)) else Ok(());
      }
      EditKeepsValid(id);
      if old(Agree()) {
        AgreedIds();
        if id in Ids(old(cfgMgr.proxies)) {
          RemoveAgrees(k);
        } else {
          SameAgreement();
        }
      }
    }

    /** A reload restores agreement, whatever went wrong before, exactly if the file's ids are distinct. */
    method ReloadConfig(disk: Option<seq<ProxyConfig>>, now: nat) returns (r: Result<nat, ApiError>)
      requires Valid()
      modifies cfgMgr, proxyMgr, proxyMgr.servers.Values`cfg, proxyMgr.servers.Values`status
      ensures Valid()
      ensures disk.None? ==>
                r == Err(ReloadFailed) && cfgMgr.proxies == old(cfgMgr.proxies) && (Agree() <==> old(Agree()))
      ensures disk.Some? ==>
                r == Ok(|disk.value|) && cfgMgr.proxies == disk.value && (Agree() <==> Distinct(disk.value))
    {
      hide Ids, Last, Kept, Agree, Counted, Placed;
      var ok := cfgMgr.Reload(disk);
      if !ok {
        CountedStays();
        AllServed();
        PlacedStays();
        SameAgreement();
        return Err(ReloadFailed);
      }
      proxyMgr.SyncWithConfig(disk.value, now);
      CountedStays();
      PlacedStays();
      AgreesIfDistinct();
      return Ok(|disk.value|);
    }

    lemma AllServed()
      requires Placed()
      ensures forall id :: id in proxyMgr.servers ==> proxyMgr.servers[id].Serves(proxyMgr.servers[id].cfg)
    {
    }

    lemma AgreesIfDistinct()
      requires proxyMgr.servers.Keys == Ids(cfgMgr.proxies)
      requires forall id :: id in proxyMgr.servers ==> proxyMgr.servers[id].Serves(Last(cfgMgr.proxies, id))
      ensures Agree() <==> Distinct(cfgMgr.proxies)
    {
      var ps := cfgMgr.proxies;
      AllListed(ps);
      if Distinct(ps) {
        forall k | 0 <= k < |ps|
          ensures Last(ps, ps[k].id) == ps[k]
        {
          LastIsLast(ps, ps[k].id);
        }
      }
      hide Ids, Last;
    }

    // ---- TunnelIngress, one locked section at a time ----

    /** The object of the id, as the map has it now. */
    method LookUpIngress(id: string) returns (s: Option<TCPServer>)
      requires Valid()
      modifies this`seen
      ensures Valid() && s == if id in proxyMgr.servers then Some(proxyMgr.servers[id]) else None
      ensures seen == old(seen) + if s.Some? then {s.value} else {}
    {
      if id !in proxyMgr.servers {
        return None;
      }
      s := Some(proxyMgr.servers[id]);
      seen := seen + {s.value};
    }

    /** A disabled proxy is refused; the target of an enabled one is fixed here. */
    method ReadTarget(s: TCPServer) returns (remote: Option<string>)
      ensures remote == if s.cfg.enabled then Some(s.cfg.remote) else None
    {
      var pc := s.cfg;
      if !pc.enabled {
        return None;
      }
      return Some(pc.remote);
    }

    /** An enabled object is found stopped exactly if it has left the map since it was looked up. */
    method CheckRunning(s: TCPServer) returns (running: bool)
      requires Valid() && s in seen
      ensures running <==> s.cfg.enabled && s in proxyMgr.servers.Values
    {
      running := s.IsRunning();
    }

    /** The tunnel is counted on the object looked up, also if that has left the map by now. */
    method CountIngress(s: TCPServer)
      requires Valid() && s in seen
      modifies this`held, s`activeTunnels
      ensures Valid() && held == old(held) + multiset{s} && s.activeTunnels > 0
      ensures old(Agree()) ==> Agree()
    {
      hide Counted, Placed, Agree, ProxyManager.Valid;
      CountOf(s);
      s.IncrTunnel();
      held := held + multiset{s};
      HeldOnceMore(old(held), s);
      CountedOnce(s);
      SamePlaces();
      SameAgreement();
    }

    method EndIngress(s: TCPServer)
      requires Valid() && s in held
      modifies this`held, s`activeTunnels
      ensures Valid() && held == old(held) - multiset{s} && s.activeTunnels >= 0
      ensures old(Agree()) ==> Agree()
    {
      hide Counted, Placed, Agree, ProxyManager.Valid;
      CountOf(s);
      s.DecrTunnel();
      held := held - multiset{s};
      HeldOnceLess(old(held), s);
      CountedOnce(s);
      SamePlaces();
      SameAgreement();
    }
  }

  /**
   A failed save: the list and the routes agree, an address that does not resolve
   is added, and from then on they disagree and no other proxy can be added until
   the file is loaded again.
   */
  method FailedSave() returns (h: Handler, ghost agreed: bool, later: Result<ProxyConfig, ApiError>)
    ensures fresh(h) && agreed && h.Valid() && !h.Agree()
    ensures h.cfgMgr.proxies == [ProxyConfig("1", "a", "nowhere", true), ProxyConfig("2", "b", "host:80", true)]
    ensures h.cfgMgr.file == [] && h.proxyMgr.servers == map[]
    ensures h.cfgMgr.resolves("host:80") && later == Err(ConfigFailed(SaveFailed))
  {
    hide Handler.OthersStay, Handler.Counted, Handler.Placed;
    var cfgMgr := new ConfigManager(address => address != "nowhere", []);
    h := new Handler(cfgMgr, 0);
    hide Handler.Valid, Handler.OthersStay;
    agreed := h.Agree();
    NoRoutes(h);
    hide Handler.Agree;
    var first := h.CreateProxy("1", "a", "nowhere", true, true, 1);
    assert h.cfgMgr.proxies[0].remote == "nowhere";
    OneListed(h.cfgMgr.proxies[0], "2");
    later := h.CreateProxy("2", "b", "host:80", true, true, 2);
    assert h.cfgMgr.proxies[0].remote == "nowhere";
    ListedButNotRouted(h);
  }

  lemma HeldOnceLess(held: multiset<TCPServer>, s: TCPServer)
    requires s in held
    ensures var now := held - multiset{s}; now[s] == held[s] - 1 && forall t :: t != s ==> now[t] == held[t]
  {
  }

  lemma HeldOnceMore(held: multiset<TCPServer>, s: TCPServer)
    ensures var now := held + multiset{s}; now[s] == held[s] + 1 && forall t :: t != s ==> now[t] == held[t]
  {
  }

  lemma NoRoutes(h: Handler)
    requires h.Agree() && h.cfgMgr.proxies == []
    ensures h.proxyMgr.servers == map[] && "1" !in Ids([])
  {
  }

  lemma OneListed(p: ProxyConfig, id: string)
    requires p.id != id
    ensures id !in Ids([p])
  {
    assert [p][..0] == [];
  }

  lemma ListedButNotRouted(h: Handler)
    requires h.proxyMgr.servers == map[] && h.cfgMgr.proxies != []
    ensures !h.Agree()
  {
  }

  lemma AllListed(ps: seq<ProxyConfig>)
    ensures forall k :: 0 <= k < |ps| ==> ps[k].id in Ids(ps)
  {
    forall k | 0 <= k < |ps|
      ensures ps[k].id in Ids(ps)
    {
      IdsAreListed(ps, ps[k].id);
    }
  }
}
