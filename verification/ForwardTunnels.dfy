/** The registry as objects: tunnels that are started and stopped in place. */
module ForwardTunnels {
  import opened Base
  import opened Text
  import opened ForwardRegistry

  class Tunnel {
    var listener: Option<int>
    var runErr: bool
    var activeCfg: Config

    constructor ()
      ensures listener == None && activeCfg == ZERO && !runErr
    {
      listener, runErr, activeCfg := None, false, ZERO;
    }

    /** The old listener goes first, so a failed restart leaves the tunnel stopped with its old configuration. */
    method Start(cfg: Config, listens: bool) returns (r: Result<(), RegistryError>)
      modifies this
      ensures r == if !ValidConfig(cfg) then Err(Invalid) else if listens then Ok(()) else Err(ListenFailed)
      ensures r == Err(Invalid) ==> unchanged(this)
      ensures r == Err(ListenFailed) ==> listener == None && runErr && activeCfg == old(activeCfg)
      ensures r == Ok(()) ==> listener == Some(cfg.localPort) && !runErr && activeCfg == cfg
    {
      if !ValidConfig(cfg) {
        return Err(Invalid);
      }
      Stop();
      runErr := false;
      if !listens {
        runErr := true;
        return Err(ListenFailed);
      }
      listener := Some(cfg.localPort);
      activeCfg := cfg;
      return Ok(());
    }

    method Stop()
      modifies this`listener
      ensures listener == None
    {
      listener := None;
    }
  }

  class Instance {
    const tun: Tunnel
    var cfg: Config

    constructor ()
      ensures fresh(tun) && cfg == ZERO && tun.listener == None && tun.activeCfg == ZERO
    {
      tun := new Tunnel();
      cfg := ZERO;
    }

    function View(): Row
      reads this, tun
    {
      Row(cfg, tun.activeCfg, tun.listener)
    }
  }

  class Registry {
    var items: map<string, Instance>

    ghost function Tunnels(): set<Tunnel>
      reads this
    {
      set id | id in items :: items[id].tun
    }

    /** No two entries share an instance or a tunnel. */
    ghost predicate Valid()
      reads this
    {
      forall i, j :: i in items && j in items && i != j ==> items[i] != items[j] && items[i].tun != items[j].tun
    }

    ghost function State(): Rows
      reads this, items.Values, Tunnels()
    {
      map id | id in items :: items[id].View()
    }

    constructor ()
      ensures Valid() && State() == map[]
    {
      items := map[];
    }

    method LocalPortBusy(port: int, except: string) returns (busy: bool)
      ensures busy == PortBusy(State(), port, except)
    {
      if port < 1 {
        return false;
      }
      var ids := items.Keys;
      while ids != {}
        invariant ids <= items.Keys
        invariant forall id :: id in items && id !in ids && id != except ==> items[id].cfg.localPort != port
        decreases |ids|
      {
        var id :| id in ids;
        if id != except && items[id].cfg.localPort == port {
          assert id in State() && State()[id].cfg.localPort == port;
          return true;
        }
        ids := ids - {id};
      }
      return false;
    }

    method Start(c0: Config, listens: bool) returns (r: Result<(), RegistryError>)
      requires Valid()
      modifies this, items.Values, Tunnels()
      ensures Valid() && (State(), r) == StartRow(old(State()), c0, listens)
      ensures forall i :: i in items ==>
                (i in old(items) && items[i] == old(items)[i]) || (fresh(items[i]) && fresh(items[i].tun))
    {
      ghost var m := State();
      var c := Normal(c0);
      hide Normal, ValidConfig, PortBusy;
      if !ValidConfig(c) {
        return Err(Invalid);
      }
      var busy := LocalPortBusy(c.localPort, c.id);
      if busy {
        return Err(Busy);
      }
      EnsureEntry(c.id);
      ghost var entry := State()[c.id];
      assert entry == if c.id in m then m[c.id] else Row(ZERO, ZERO, None);
      r := StartEntry(c, listens);
      ghost var row := State()[c.id];
      assert State() == m[c.id := row];
    }

    method EnsureEntry(id: string)
      requires Valid()
      modifies this
      ensures Valid() && id in items
      ensures State() == if id in old(items) then old(State()) else old(State())[id := Row(ZERO, ZERO, None)]
      ensures forall i :: i in items ==>
                (i in old(items) && items[i] == old(items)[i]) || (fresh(items[i]) && fresh(items[i].tun))
    {
      if id !in items {
        var inst := new Instance();
        items := items[id := inst];
      }
    }

    method StartEntry(c: Config, listens: bool) returns (r: Result<(), RegistryError>)
      requires Valid() && c.id in items && ValidConfig(c)
      modifies items[c.id], items[c.id].tun
      ensures Valid() && r == if listens then Ok(()) else Err(ListenFailed)
      ensures State() == old(State())[c.id := if listens then Row(c, c, Some(c.localPort))
                                              else old(State())[c.id].(listener := None)]
    {
      var inst := items[c.id];
      r := inst.tun.Start(c, listens);
      if r.Ok? {
        inst.cfg := c;
      }
    }

    method Stop(id: string)
      requires Valid()
      modifies this, items.Values, Tunnels()
      ensures Valid() && State() == StopRow(old(State()), id)
      ensures items == old(items) && forall i :: i in items ==> items[i].cfg == old(items[i].cfg)
      ensures forall i :: i in items ==>
                && items[i].tun.activeCfg == old(items[i].tun.activeCfg)
                && items[i].tun.listener ==
                   if i == (if TrimSpace(id) == "" then "default" else TrimSpace(id)) then None
                   else old(items[i].tun.listener)
    {
      var k := EnsureProxyID(id);
      if k in items {
        items[k].tun.Stop();
      }
    }

    method Remove(id: string) returns (r: Result<(), RegistryError>)
      requires Valid()
      modifies this, items.Values, Tunnels()
      ensures Valid() && (State(), r) == RemoveRow(old(State()), id)
      ensures TrimSpace(id) == "" ==> r == Err(NoId) && items == old(items)
      ensures TrimSpace(id) != "" ==> r == Ok(()) && items == old(items) - {TrimSpace(id)}
      ensures TrimSpace(id) != "" && TrimSpace(id) in old(items) ==> old(items)[TrimSpace(id)].tun.listener == None
    {
      var k := TrimSpace(id);
      hide TrimSpace;
      if k == "" {
        return Err(NoId);
      }
      if k in items {
        items[k].tun.Stop();
        items := items - {k};
      }
      assert State() == old(State()) - {k};
      return Ok(());
    }
  
    /** An entry of the file that cannot be started is skipped. */
    method BootEntry(c0: Config, listens: bool)
      requires Valid()
      modifies this, items.Values, Tunnels()
      ensures Valid() && State() == BootRow(old(State()), c0, listens)
      ensures forall i :: i in items ==>
                (i in old(items) && items[i] == old(items)[i]) || (fresh(items[i]) && fresh(items[i].tun))
    {
      hide Normal, ValidConfig, PortBusy, StartRow;
      var c := Normal(c0);
      if ValidConfig(c) {
        var r := Start(c, listens);
      }
    }

    method BootstrapFromConfigs(cfgs: seq<Config>, listens: seq<bool>)
      requires Valid() && |cfgs| == |listens|
      modifies this, items.Values, Tunnels()
      ensures Valid() && State() == BootRows(old(State()), cfgs, listens)
    {
      hide BootRows, BootRow, State, Valid;
      var i := 0;
      ghost var was, rows := items, State();
      BootNone(rows, cfgs, listens);
      while i < |cfgs|
        invariant 0 <= i <= |cfgs| && Valid()
        invariant State() == BootRows(rows, cfgs[..i], listens[..i])
        invariant forall id :: id in items ==>
                    (id in was && items[id] == was[id]) || (fresh(items[id]) && fresh(items[id].tun))
      {
        BootEntry(cfgs[i], listens[i]);
        BootSnoc(rows, cfgs, listens, i);
        i := i + 1;
      }
      assert cfgs[..i] == cfgs && listens[..i] == listens;
    }
  }

  lemma BootNone(m: Rows, cs: seq<Config>, listens: seq<bool>)
    requires |cs| == |listens|
    ensures BootRows(m, cs[..0], listens[..0]) == m
  {
  }

  lemma BootSnoc(m: Rows, cs: seq<Config>, listens: seq<bool>, i: nat)
    requires |cs| == |listens| && i < |cs|
    ensures BootRows(m, cs[..i + 1], listens[..i + 1]) == BootRow(BootRows(m, cs[..i], listens[..i]), cs[i], listens[i])
  {
    assert cs[..i + 1][..i] == cs[..i] && listens[..i + 1][..i] == listens[..i];
  }
}
