/**
 The manager object: its methods take the steps of the calls one by one and end in
 the states the row functions give.
 */
module ReverseManagers {
  import opened Base
  import opened Text
  import opened Endpoints
  import opened ReverseRows
  import opened ReverseInvariants
  import opened ReverseRuns
  import opened ReverseOutcomes

  class ReverseManager {
    const parse: Parser
    var providers: map<string, ProviderInst>
    var consumers: map<string, ConsumerInst>
    /** The serve goroutines that have not exited. */
    var loops: map<nat, ServeLoop>
    var next: nat

    function State(): Manager
      reads this
    {
      Manager(providers, consumers, loops, next)
    }

    ghost predicate Valid()
      reads this
    {
      WF(parse, State())
    }

    constructor (parse: Parser)
      ensures Valid() && State() == EMPTY && this.parse == parse
    {
      this.parse := parse;
      providers, consumers, loops, next := map[], map[], map[], 0;
    }

    /** The last critical section of a serve goroutine. */
    method ServeLoopExits(h: nat)
      modifies this
      ensures State() == Exit(old(State()), h)
    {
      if h in loops {
        var lp := loops[h];
        loops := loops - {h};
        match lp
        case ProviderLoop(row) =>
          if row in providers && providers[row].ws == Some(h) {
            providers := providers[row := providers[row].(ws := None, serveDone := None, failed := true)];
          }
        case ConsumerLoop(row) =>
          if row in consumers && consumers[row].listener == Some(h) {
            consumers := consumers[row := consumers[row].(cancel := false, listener := None, failed := true)];
          }
      }
    }

    /** The serve loops that happen to exit between two critical sections. */
    method LetExit(hs: seq<nat>)
      modifies this
      ensures State() == ExitAll(old(State()), hs)
    {
      var i := 0;
      while i < |hs|
        invariant 0 <= i <= |hs|
        invariant ExitAll(State(), hs[i..]) == ExitAll(old(State()), hs)
      {
        ServeLoopExits(hs[i]);
        i := i + 1;
      }
    }

    /** Closing the websocket makes the loop exit; its end is waited for. */
    method WaitProviderEnded(id: string)
      modifies this
      ensures State() == WaitProvider(old(State()), id)
    {
      if id in providers && providers[id].serveDone.Some? {
        ServeLoopExits(providers[id].serveDone.value);
      }
    }

    method WaitConsumerEnded(id: string)
      modifies this
      ensures State() == WaitConsumer(old(State()), id)
    {
      if id in consumers && consumers[id].done.Some? {
        ServeLoopExits(consumers[id].done.value);
      }
    }

    method CheckProviderConflicts(p: ProviderCfg) returns (conflict: bool)
      ensures conflict <==> ProviderConflict(parse, State(), p)
    {
      var host := OrLoopback(p.localHost);
      var ids := consumers.Keys;
      while ids != {}
        invariant ids <= consumers.Keys
        invariant forall id :: id in consumers && id !in ids ==>
                    !ListenCollidesExpose(parse, consumers[id].cfg.listen, host, p.localPort)
        decreases |ids|
      {
        var id :| id in ids;
        if ListenCollidesExpose(parse, consumers[id].cfg.listen, host, p.localPort) {
          return true;
        }
        ids := ids - {id};
      }
      ids := providers.Keys;
      while ids != {}
        invariant ids <= providers.Keys
        invariant forall id :: id in providers && id !in ids && id != p.id ==>
                    !(providers[id].cfg.localPort == p.localPort
                      && FuzzyHostMatch(OrLoopback(providers[id].cfg.localHost), host))
        decreases |ids|
      {
        var id :| id in ids;
        if id != p.id && providers[id].cfg.localPort == p.localPort
           && FuzzyHostMatch(OrLoopback(providers[id].cfg.localHost), host) {
          return true;
        }
        ids := ids - {id};
      }
      return false;
    }

    method CheckConsumerConflicts(c: ConsumerCfg) returns (conflict: bool)
      ensures conflict <==> ConsumerConflict(parse, State(), c)
    {
      var ids := consumers.Keys;
      while ids != {}
        invariant ids <= consumers.Keys
        invariant forall id :: id in consumers && id !in ids && id != c.id ==>
                    !TcpBindingsEquiv(parse, consumers[id].cfg.listen, c.listen)
        decreases |ids|
      {
        var id :| id in ids;
        if id != c.id && TcpBindingsEquiv(parse, consumers[id].cfg.listen, c.listen) {
          return true;
        }
        ids := ids - {id};
      }
      ids := providers.Keys;
      while ids != {}
        invariant ids <= providers.Keys
        invariant forall id :: id in providers && id !in ids ==>
                    !ListenCollidesExpose(
                      parse, c.listen, OrLoopback(providers[id].cfg.localHost), providers[id].cfg.localPort)
        decreases |ids|
      {
        var id :| id in ids;
        if ListenCollidesExpose(parse, c.listen, OrLoopback(providers[id].cfg.localHost), providers[id].cfg.localPort) {
          return true;
        }
        ids := ids - {id};
      }
      return false;
    }

    method PutInactiveProvider(p: ProviderCfg) returns (r: Result<string, StartError>)
      modifies this
      ensures (State(), r) == PutProviderInactive(parse, old(State()), p)
    {
      if p.id in providers && (providers[p.id].ws.Some? || providers[p.id].serveDone.Some?) {
        return Err(StillRunning);
      }
      var conflict := CheckProviderConflicts(p);
      if conflict {
        return Err(Conflict);
      }
      providers := providers[p.id := ProviderInst(p, "", None, None, false)];
      return Ok("");
    }

    method PutInactiveConsumer(c: ConsumerCfg) returns (r: Result<string, StartError>)
      modifies this
      ensures (State(), r) == PutConsumerInactive(parse, old(State()), c)
    {
      if c.id in consumers && (consumers[c.id].cancel || consumers[c.id].listener.Some?) {
        return Err(StillRunning);
      }
      var conflict := CheckConsumerConflicts(c);
      if conflict {
        return Err(Conflict);
      }
      consumers := consumers[c.id := ConsumerInst(c, false, None, None, false)];
      return Ok("");
    }

    /** The previous instance is ended before the conflict check, so a rejected restart leaves it stopped. */
    method StartProvider(p0: ProviderCfg, e: ProviderEnv) returns (r: Result<string, StartError>)
      requires Valid()
      modifies this
      ensures Valid() && (State(), r) == ReverseRows.StartProvider(parse, old(State()), p0, e)
    {
      StartProviderKeeps(parse, State(), p0, e);
      hide WF, ProviderPut, SameRows, ProviderFits, NormalizeProvider, WithId, ExitAll, WaitProvider,
           ProviderConflict, ReverseRows.RunProvider;
      var p := WithId(NormalizeProvider(p0), e.newId);
      if !ValidProvider(p) {
        return Err(Invalid);
      }
      LetExit(e.before);
      WaitProviderEnded(p.id);
      var conflict := CheckProviderConflicts(p);
      if conflict {
        return Err(Conflict);
      }
      LetExit(e.between);
      r := RunProvider(p, e);
    }

    /** A known channel id is reclaimed first, and a fresh one asked for if that fails. */
    method RunProvider(p: ProviderCfg, e: ProviderEnv) returns (r: Result<string, StartError>)
      modifies this
      ensures (State(), r) == ReverseRows.RunProvider(parse, old(State()), p, e)
      ensures p.enabled != Some(false) ==>
                var answer := if TrimSpace(p.channelID) != "" && e.reclaim.Some? then e.reclaim else e.offer;
                && r == (if answer.Some? then Ok(answer.value) else Err(HandshakeFailed)) && consumers == old(consumers)
                && loops == (if answer.Some? then old(loops)[old(next) := ProviderLoop(p.id)] else old(loops))
                && providers == old(providers)[p.id :=
                     if answer.None? then ProviderInst(p, "", None, None, true)
                     else ProviderInst(p.(channelID := TrimSpace(answer.value)), answer.value,
                                       Some(old(next)), Some(old(next)), false)]
    {
      hide WaitProvider, PutProviderInactive, TrimSpace;
      if !p.Enabled() {
        WaitProviderEnded(p.id);
        r := PutInactiveProvider(p);
        return;
      }
      var answer := None;
      if TrimSpace(p.channelID) != "" {
        answer := e.reclaim;
        if answer.None? {
          answer := e.offer;
        }
      } else {
        answer := e.offer;
      }
      if answer.None? {
        providers := providers[p.id := ProviderInst(p, "", None, None, true)];
        return Err(HandshakeFailed);
      }
      var ch := answer.value;
      providers := providers[p.id := ProviderInst(p.(channelID := TrimSpace(ch)), ch, Some(next), Some(next), false)];
      loops := loops[next := ProviderLoop(p.id)];
      next := next + 1;
      return Ok(ch);
    }

    method StartConsumer(c0: ConsumerCfg, e: ConsumerEnv) returns (r: Result<string, StartError>)
      requires Valid()
      modifies this
      ensures Valid() && (State(), r) == ReverseRows.StartConsumer(parse, old(State()), c0, e)
    {
      StartConsumerKeeps(parse, State(), c0, e);
      hide WF, ConsumerPut, SameRows, ConsumerFits, NormalizeConsumer, ExitAll, WaitConsumer, ConsumerConflict,
           ReverseRows.RunConsumer;
      var c := NormalizeConsumer(c0);
      if !ValidConsumer(c) {
        return Err(Invalid);
      }
      LetExit(e.before);
      WaitConsumerEnded(c.id);
      var conflict := CheckConsumerConflicts(c);
      if conflict {
        return Err(Conflict);
      }
      LetExit(e.between);
      r := RunConsumer(c, e);
    }

    method RunConsumer(c: ConsumerCfg, e: ConsumerEnv) returns (r: Result<string, StartError>)
      modifies this
      ensures (State(), r) == ReverseRows.RunConsumer(parse, old(State()), c, e)
      ensures c.enabled != Some(false) ==>
                && r == (if e.listenOk then Ok("") else Err(ListenFailed)) && providers == old(providers)
                && loops == (if e.listenOk then old(loops)[old(next) := ConsumerLoop(c.id)] else old(loops))
                && (var h := if e.listenOk then Some(old(next)) else None;
                    consumers == old(consumers)[c.id := ConsumerInst(c, e.listenOk, h, h, !e.listenOk)])
    {
      hide WaitConsumer, PutConsumerInactive;
      if !c.Enabled() {
        WaitConsumerEnded(c.id);
        r := PutInactiveConsumer(c);
        return;
      }
      if !e.listenOk {
        consumers := consumers[c.id := ConsumerInst(c, false, None, None, true)];
        return Err(ListenFailed);
      }
      consumers := consumers[c.id := ConsumerInst(c, true, Some(next), Some(next), false)];
      loops := loops[next := ConsumerLoop(c.id)];
      next := next + 1;
      return Ok("");
    }

    lemma BlankIsNoRow(hs: seq<nat>)
      requires Valid()
      ensures "" !in ExitAll(State(), hs).providers && "" !in ExitAll(State(), hs).consumers
    {
      ExitAllKeeps(parse, State(), hs);
      assert TrimSpace("") == "";
      hide Separate, LoopsGood, NormalizeProvider, NormalizeConsumer, ExitAll;
    }

    method StopProvider(id0: string, before: seq<nat>)
      requires Valid()
      modifies this
      ensures Valid() && State() == ReverseRows.StopProvider(old(State()), id0, before)
      ensures ProviderStopped(old(State()), State(), TrimSpace(id0), before)
    {
      StoppedRowIsDown(parse, State(), id0, before);
      StopKeeps(parse, State(), id0, before);
      BlankIsNoRow(before);
      hide WF, SameRows, ExitAll, ProviderStopped;
      var id := TrimSpace(id0);
      LetExit(before);
      if id != "" {
        WaitProviderEnded(id);
      }
    }

    method RemoveProvider(id0: string, before: seq<nat>)
      requires Valid()
      modifies this
      ensures Valid() && State() == ReverseRows.RemoveProvider(old(State()), id0, before)
    {
      hide WF, ExitAll, TrimSpace;
      RemovingKeepsWF(parse, State(), id0, before);
      BlankIsNoRow(before);
      var id := TrimSpace(id0);
      LetExit(before);
      if id != "" {
        WaitProviderEnded(id);
        providers := providers - {id};
      } else {
        assert providers == providers - {id};
      }
    }

    method StopConsumer(id0: string, before: seq<nat>)
      requires Valid()
      modifies this
      ensures Valid() && State() == ReverseRows.StopConsumer(old(State()), id0, before)
      ensures ConsumerStopped(old(State()), State(), TrimSpace(id0), before)
    {
      StoppedRowIsDown(parse, State(), id0, before);
      StopKeeps(parse, State(), id0, before);
      BlankIsNoRow(before);
      hide WF, SameRows, ExitAll, ConsumerStopped;
      var id := TrimSpace(id0);
      LetExit(before);
      if id != "" {
        WaitConsumerEnded(id);
      }
    }

    method RemoveConsumer(id0: string, before: seq<nat>)
      requires Valid()
      modifies this
      ensures Valid() && State() == ReverseRows.RemoveConsumer(old(State()), id0, before)
    {
      hide WF, ExitAll, TrimSpace;
      RemovingKeepsWF(parse, State(), id0, before);
      BlankIsNoRow(before);
      var id := TrimSpace(id0);
      LetExit(before);
      if id != "" {
        WaitConsumerEnded(id);
        consumers := consumers - {id};
      } else {
        assert consumers == consumers - {id};
      }
    }

    method WaitAllProviders() returns (ghost waited: seq<string>)
      modifies this
      ensures State() == WaitProviders(old(State()), waited)
      ensures forall id :: id in old(providers) ==> id in waited
    {
      hide WaitProvider;
      waited := [];
      var ids := providers.Keys;
      while ids != {}
        invariant forall id :: id in old(providers) ==> id in ids || id in waited
        invariant State() == WaitProviders(old(State()), waited)
        decreases |ids|
      {
        var id :| id in ids;
        WaitProviderEnded(id);
        WaitProvidersSnoc(old(State()), waited, id);
        waited := waited + [id];
        ids := ids - {id};
      }
    }

    method WaitAllConsumers() returns (ghost waited: seq<string>)
      modifies this
      ensures State() == WaitConsumers(old(State()), waited)
      ensures forall id :: id in old(consumers) ==> id in waited
    {
      hide WaitConsumer;
      waited := [];
      var ids := consumers.Keys;
      while ids != {}
        invariant forall id :: id in old(consumers) ==> id in ids || id in waited
        invariant State() == WaitConsumers(old(State()), waited)
        decreases |ids|
      {
        var id :| id in ids;
        WaitConsumerEnded(id);
        WaitConsumersSnoc(old(State()), waited, id);
        waited := waited + [id];
        ids := ids - {id};
      }
    }

    /** Every provider row is waited for, then every consumer row; no loop is left and every row stays. */
    method StopAll()
      requires Valid()
      modifies this
      ensures Valid() && loops == map[] && SameRows(old(State()), State())
    {
      ghost var m := State();
      ghost var ps := WaitAllProviders();
      hide WF, SameRows, WaitProviders, WaitConsumers;
      WaitProvidersKeeps(parse, m, ps);
      SameKeys(m, State());
      ghost var cs := WaitAllConsumers();
      StopAllStopsAll(parse, m, ps, cs);
      DoKeeps(parse, m, StoppingAll(ps, cs));
    }

    /** Disabled rows are only put down; a row that cannot be restored is skipped. */
    method BootstrapProviders(cfgs: seq<ProviderCfg>, es: seq<ProviderEnv>)
      requires Valid() && |cfgs| == |es|
      modifies this
      ensures Valid() && State() == BootProviders(parse, old(State()), cfgs, es)
    {
      hide WF, NormalizeProvider, WithId, ReverseRows.StartProvider, PutProviderInactive;
      var i := 0;
      while i < |cfgs|
        invariant 0 <= i <= |cfgs|
        invariant Valid() && State() == BootProviders(parse, old(State()), cfgs[..i], es[..i])
      {
        ghost var m := State();
        BootProviderKeeps(parse, m, cfgs[i], es[i]);
        var p := WithId(NormalizeProvider(cfgs[i]), es[i].newId);
        if ValidProvider(p) {
          if !p.Enabled() {
            var r := PutInactiveProvider(p);
          } else {
            var r := StartProvider(p, es[i]);
          }
        }
        assert State() == BootProvider(parse, m, cfgs[i], es[i]);
        assert cfgs[..i + 1][..i] == cfgs[..i] && es[..i + 1][..i] == es[..i];
        i := i + 1;
      }
      assert cfgs[..i] == cfgs && es[..i] == es;
    }

    method BootstrapConsumers(cfgs: seq<ConsumerCfg>, es: seq<ConsumerEnv>)
      requires Valid() && |cfgs| == |es|
      modifies this
      ensures Valid() && State() == BootConsumers(parse, old(State()), cfgs, es)
    {
      hide WF, NormalizeConsumer, ReverseRows.StartConsumer, PutConsumerInactive;
      var i := 0;
      while i < |cfgs|
        invariant 0 <= i <= |cfgs|
        invariant Valid() && State() == BootConsumers(parse, old(State()), cfgs[..i], es[..i])
      {
        ghost var m := State();
        BootConsumerKeeps(parse, m, cfgs[i], es[i]);
        var c := NormalizeConsumer(cfgs[i]);
        if ValidConsumer(c) {
          if !c.Enabled() {
            var r := PutInactiveConsumer(c);
          } else {
            var r := StartConsumer(c, es[i]);
          }
        }
        assert State() == BootConsumer(parse, m, cfgs[i], es[i]);
        assert cfgs[..i + 1][..i] == cfgs[..i] && es[..i + 1][..i] == es[..i];
        i := i + 1;
      }
      assert cfgs[..i] == cfgs && es[..i] == es;
    }

    /** The rows a save writes. */
    method PersistedProviders() returns (out: seq<ProviderCfg>)
      requires Valid()
      ensures ListsSomeProviders(State(), out) && ProviderIds(out) == providers.Keys
    {
      out := ListProviders(State());
    }

    method PersistedConsumers() returns (out: seq<ConsumerCfg>)
      requires Valid()
      ensures ListsSomeConsumers(State(), out) && ConsumerIds(out) == consumers.Keys
    {
      out := ListConsumers(State());
    }

    /** The loops over the two maps. */
    method ListProviders(m: Manager) returns (out: seq<ProviderCfg>)
      requires WF(parse, m)
      ensures ListsSomeProviders(m, out) && ProviderIds(out) == m.providers.Keys
    {
      out := [];
      assert ListsSomeProviders(m, out) && ProviderIds(out) == {};
      hide WF, ListsSomeProviders, ProviderIds, Halves;
      var ids := m.providers.Keys;
      AllAhead(ids);
      while ids != {}
        invariant ListsSomeProviders(m, out) && Halves(ProviderIds(out), ids, m.providers.Keys)
        decreases |ids|
      {
        var id :| id in ids;
        MoveOver(ProviderIds(out), ids, m.providers.Keys, id);
        OneMoreProvider(parse, m, out, id);
        out := out + [m.providers[id].cfg];
        ids := ids - {id};
      }
      AllDone(ProviderIds(out), m.providers.Keys);
    }

    method ListConsumers(m: Manager) returns (out: seq<ConsumerCfg>)
      requires WF(parse, m)
      ensures ListsSomeConsumers(m, out) && ConsumerIds(out) == m.consumers.Keys
    {
      out := [];
      assert ListsSomeConsumers(m, out) && ConsumerIds(out) == {};
      hide WF, ListsSomeConsumers, ConsumerIds, Halves;
      var ids := m.consumers.Keys;
      AllAhead(ids);
      while ids != {}
        invariant ListsSomeConsumers(m, out) && Halves(ConsumerIds(out), ids, m.consumers.Keys)
        decreases |ids|
      {
        var id :| id in ids;
        MoveOver(ConsumerIds(out), ids, m.consumers.Keys, id);
        OneMoreConsumer(parse, m, out, id);
        out := out + [m.consumers[id].cfg];
        ids := ids - {id};
      }
      AllDone(ConsumerIds(out), m.consumers.Keys);
    }
  }

  lemma SameKeys(m: Manager, m': Manager)
    requires SameRows(m, m')
    ensures m'.providers.Keys == m.providers.Keys && m'.consumers.Keys == m.consumers.Keys
  {
  }

  lemma RemovingKeepsWF(parse: Parser, m: Manager, id: string, before: seq<nat>)
    requires WF(parse, m)
    ensures WF(parse, ReverseRows.RemoveProvider(m, id, before)) && WF(parse, ReverseRows.RemoveConsumer(m, id, before))
  {
    hide WF, ReverseRows.RemoveProvider, ReverseRows.RemoveConsumer;
    RemoveProviderKeeps(parse, m, id, before);
    RemoveConsumerKeeps(parse, m, id, before);
  }

  predicate Halves(a: set<string>, b: set<string>, all: set<string>) {
    a !! b && a + b == all
  }

  lemma AllAhead(all: set<string>)
    ensures Halves({}, all, all)
  {
  }

  lemma AllDone(a: set<string>, all: set<string>)
    requires Halves(a, {}, all)
    ensures a == all
  {
  }

  lemma MoveOver(a: set<string>, b: set<string>, all: set<string>, x: string)
    requires Halves(a, b, all) && x in b
    ensures Halves(a + {x}, b - {x}, all) && x !in a && x in all
  {
  }

  lemma {:induction false} ListedIsInIds(ps: seq<ProviderCfg>, i: nat)
    requires i < |ps|
    ensures ps[i].id in ProviderIds(ps)
  {
    if i < |ps| - 1 {
      ListedIsInIds(ps[..|ps| - 1], i);
    }
  }

  lemma {:induction false} ListedConsumerIsInIds(cs: seq<ConsumerCfg>, i: nat)
    requires i < |cs|
    ensures cs[i].id in ConsumerIds(cs)
  {
    if i < |cs| - 1 {
      ListedConsumerIsInIds(cs[..|cs| - 1], i);
    }
  }

  lemma OneMoreProvider(parse: Parser, m: Manager, ps: seq<ProviderCfg>, id: string)
    requires WF(parse, m) && ListsSomeProviders(m, ps) && id in m.providers && id !in ProviderIds(ps)
    ensures var ps' := ps + [m.providers[id].cfg];
      ListsSomeProviders(m, ps') && ProviderIds(ps') == ProviderIds(ps) + {id}
  {
    hide Separate, LoopsGood, GoodProvider, GoodConsumer;
    assert m.providers[id].cfg.id == id;
    hide RowsGood;
    var ps' := ps + [m.providers[id].cfg];
    assert ps'[..|ps|] == ps;
    forall i | 0 <= i < |ps|
      ensures ps[i].id in ProviderIds(ps)
    {
      ListedIsInIds(ps, i);
    }
  }

  lemma OneMoreConsumer(parse: Parser, m: Manager, cs: seq<ConsumerCfg>, id: string)
    requires WF(parse, m) && ListsSomeConsumers(m, cs) && id in m.consumers && id !in ConsumerIds(cs)
    ensures var cs' := cs + [m.consumers[id].cfg];
      ListsSomeConsumers(m, cs') && ConsumerIds(cs') == ConsumerIds(cs) + {id}
  {
    hide Separate, LoopsGood, GoodProvider, GoodConsumer;
    assert m.consumers[id].cfg.id == id;
    hide RowsGood;
    var cs' := cs + [m.consumers[id].cfg];
    assert cs'[..|cs|] == cs;
    forall i | 0 <= i < |cs|
      ensures cs[i].id in ConsumerIds(cs)
    {
      ListedConsumerIsInIds(cs, i);
    }
  }

  lemma {:induction false} WaitProvidersSnoc(m: Manager, ids: seq<string>, id: string)
    ensures WaitProviders(m, ids + [id]) == WaitProvider(WaitProviders(m, ids), id)
    decreases |ids|
  {
    if ids != [] {
      assert (ids + [id])[1..] == ids[1..] + [id];
      WaitProvidersSnoc(WaitProvider(m, ids[0]), ids[1..], id);
    }
  }

  lemma {:induction false} WaitConsumersSnoc(m: Manager, ids: seq<string>, id: string)
    ensures WaitConsumers(m, ids + [id]) == WaitConsumer(WaitConsumers(m, ids), id)
    decreases |ids|
  {
    if ids != [] {
      assert (ids + [id])[1..] == ids[1..] + [id];
      WaitConsumersSnoc(WaitConsumer(m, ids[0]), ids[1..], id);
    }
  }
}
