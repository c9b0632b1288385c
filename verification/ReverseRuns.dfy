/** Theorems about every run of the reverse-tunnel manager and about its restart. */
module ReverseRuns {
  import opened Base
  import opened Text
  import opened Endpoints
  import opened ReverseRows
  import opened ReverseInvariants

  /**
   A call of the local API, or the exit of a serve loop. A started provider's
   request is merged with its row first.
   */
  datatype Op =
    | StartingProvider(p: ProviderCfg, pe: ProviderEnv)
    | StartingConsumer(c: ConsumerCfg, ce: ConsumerEnv)
    | StoppingProvider(id: string, before: seq<nat>)
    | StoppingConsumer(id: string, before: seq<nat>)
    | RemovingProvider(id: string, before: seq<nat>)
    | RemovingConsumer(id: string, before: seq<nat>)
    | StoppingAll(providerIds: seq<string>, consumerIds: seq<string>)
    | Exiting(loop: nat)

  function Do(parse: Parser, m: Manager, op: Op): Manager {
    match op
    case StartingProvider(p, e) => StartProvider(parse, m, MergePreserve(m, p), e).0
    case StartingConsumer(c, e) => StartConsumer(parse, m, c, e).0
    case StoppingProvider(id, before) => StopProvider(m, id, before)
    case StoppingConsumer(id, before) => StopConsumer(m, id, before)
    case RemovingProvider(id, before) => RemoveProvider(m, id, before)
    case RemovingConsumer(id, before) => RemoveConsumer(m, id, before)
    case StoppingAll(ps, cs) => WaitConsumers(WaitProviders(m, ps), cs)
    case Exiting(h) => Exit(m, h)
  }

  function WaitProviders(m: Manager, ids: seq<string>): Manager
    decreases |ids|
  {
    if ids == [] then m else WaitProviders(WaitProvider(m, ids[0]), ids[1..])
  }

  function WaitConsumers(m: Manager, ids: seq<string>): Manager
    decreases |ids|
  {
    if ids == [] then m else WaitConsumers(WaitConsumer(m, ids[0]), ids[1..])
  }

  /** A run of the program: the rows of its file are brought up, then calls and exits follow in any order. */
  datatype Boot = Boot(ps: seq<ProviderCfg>, pes: seq<ProviderEnv>, cs: seq<ConsumerCfg>, ces: seq<ConsumerEnv>)
  {
    predicate Fits() {
      |ps| == |pes| && |cs| == |ces|
    }
  }

  function Booted(parse: Parser, b: Boot): Manager
    requires b.Fits()
  {
    BootConsumers(parse, BootProviders(parse, EMPTY, b.ps, b.pes), b.cs, b.ces)
  }

  function Run(parse: Parser, b: Boot, ops: seq<Op>): Manager
    requires b.Fits()
  {
    if ops == [] then Booted(parse, b)
    else Do(parse, Run(parse, b, ops[..|ops| - 1]), ops[|ops| - 1])
  }

  // ---- Every run ----

  lemma {:induction false} WaitProvidersKeeps(parse: Parser, m: Manager, ids: seq<string>)
    requires WF(parse, m)
    ensures WF(parse, WaitProviders(m, ids)) && SameRows(m, WaitProviders(m, ids))
    decreases |ids|
  {
    hide WF, WaitProvider;
    if ids != [] {
      WaitProviderKeeps(parse, m, ids[0]);
      WaitProvidersKeeps(parse, WaitProvider(m, ids[0]), ids[1..]);
    }
  }

  lemma {:induction false} WaitConsumersKeeps(parse: Parser, m: Manager, ids: seq<string>)
    requires WF(parse, m)
    ensures WF(parse, WaitConsumers(m, ids)) && SameRows(m, WaitConsumers(m, ids))
    decreases |ids|
  {
    hide WF, WaitConsumer;
    if ids != [] {
      WaitConsumerKeeps(parse, m, ids[0]);
      WaitConsumersKeeps(parse, WaitConsumer(m, ids[0]), ids[1..]);
    }
  }

  lemma DoKeeps(parse: Parser, m: Manager, op: Op)
    requires WF(parse, m)
    ensures WF(parse, Do(parse, m, op))
  {
    hide WF, StartProvider, StartConsumer, MergePreserve, StopProvider, StopConsumer, RemoveProvider, RemoveConsumer,
         Exit;
    hide ProviderPut, ConsumerPut, SameRows, ProviderFits, ConsumerFits;
    match op
    case StartingProvider(p, e) => StartProviderKeeps(parse, m, MergePreserve(m, p), e);
    case StartingConsumer(c, e) => StartConsumerKeeps(parse, m, c, e);
    case StoppingProvider(id, before) => StopKeeps(parse, m, id, before);
    case StoppingConsumer(id, before) => StopKeeps(parse, m, id, before);
    case RemovingProvider(id, before) => RemoveProviderKeeps(parse, m, id, before);
    case RemovingConsumer(id, before) => RemoveConsumerKeeps(parse, m, id, before);
    case StoppingAll(ps, cs) =>
      WaitProvidersKeeps(parse, m, ps);
      WaitConsumersKeeps(parse, WaitProviders(m, ps), cs);
    case Exiting(h) => ExitKeeps(parse, m, h);
  }

  lemma {:induction false} BootProvidersKeep(parse: Parser, m: Manager, ps: seq<ProviderCfg>, es: seq<ProviderEnv>)
    requires WF(parse, m) && |ps| == |es|
    ensures WF(parse, BootProviders(parse, m, ps, es))
  {
    hide WF, BootProvider;
    if ps != [] {
      var n := |ps| - 1;
      BootProvidersKeep(parse, m, ps[..n], es[..n]);
      BootProviderKeeps(parse, BootProviders(parse, m, ps[..n], es[..n]), ps[n], es[n]);
    }
  }

  lemma {:induction false} BootConsumersKeep(parse: Parser, m: Manager, cs: seq<ConsumerCfg>, es: seq<ConsumerEnv>)
    requires WF(parse, m) && |cs| == |es|
    ensures WF(parse, BootConsumers(parse, m, cs, es))
  {
    hide WF, BootConsumer;
    if cs != [] {
      var n := |cs| - 1;
      BootConsumersKeep(parse, m, cs[..n], es[..n]);
      BootConsumerKeeps(parse, BootConsumers(parse, m, cs[..n], es[..n]), cs[n], es[n]);
    }
  }

  /** Whatever the file holds and whatever is called, every state of a run is well formed. */
  lemma {:induction false} RunWF(parse: Parser, b: Boot, ops: seq<Op>)
    requires b.Fits()
    ensures WF(parse, Run(parse, b, ops))
    decreases |ops|
  {
    if ops == [] {
      assert WF(parse, EMPTY);
      BootProvidersKeep(parse, EMPTY, b.ps, b.pes);
      BootConsumersKeep(parse, BootProviders(parse, EMPTY, b.ps, b.pes), b.cs, b.ces);
    } else {
      RunWF(parse, b, ops[..|ops| - 1]);
      DoKeeps(parse, Run(parse, b, ops[..|ops| - 1]), ops[|ops| - 1]);
    }
    hide WF;
  }

  /** In every state of every run the rows of both maps occupy pairwise distinct endpoints, each under its own id. */
  lemma EndpointInjectivity(parse: Parser, b: Boot, ops: seq<Op>, i: string, j: string)
    requires b.Fits()
    ensures var m := Run(parse, b, ops);
      && (i in m.providers ==> m.providers[i].cfg.id == i)
      && (i in m.consumers ==> m.consumers[i].cfg.id == i)
      && (i in m.providers && j in m.providers && i != j ==>
            m.providers[i].cfg.Endpoint() != m.providers[j].cfg.Endpoint())
      && (i in m.consumers && j in m.consumers && i != j ==>
            m.consumers[i].cfg.Endpoint(parse) != m.consumers[j].cfg.Endpoint(parse))
      && (i in m.providers && j in m.consumers ==>
            m.providers[i].cfg.Endpoint() != m.consumers[j].cfg.Endpoint(parse))
  {
    RunWF(parse, b, ops);
    hide Run, GoodProvider, GoodConsumer, ProviderCfg.Endpoint, ConsumerCfg.Endpoint;
  }

  /**
   In every state of every run a row has at most one live serve loop, and shows it
   iff it has one; a running row is enabled.
   */
  lemma OneLoopPerRow(parse: Parser, b: Boot, ops: seq<Op>, h: nat, k: nat, id: string)
    requires b.Fits()
    ensures var m := Run(parse, b, ops);
      && (h in m.loops && k in m.loops && m.loops[h] == m.loops[k] ==> h == k)
      && (id in m.providers ==>
            (m.providers[id].ws == Some(h) <==> h in m.loops && m.loops[h] == ProviderLoop(id))
            && (m.providers[id].ws.Some? ==> m.providers[id].cfg.Enabled()))
      && (id in m.consumers ==>
            (m.consumers[id].listener == Some(h) <==> h in m.loops && m.loops[h] == ConsumerLoop(id))
            && (m.consumers[id].listener.Some? ==> m.consumers[id].cancel && m.consumers[id].cfg.Enabled()))
  {
    RunWF(parse, b, ops);
    hide Run, RowsGood, Separate;
    var m := Run(parse, b, ops);
    assert h in m.loops ==> LoopLive(m, h);
    assert k in m.loops ==> LoopLive(m, k);
    assert id in m.providers ==> ProviderLive(m, id);
    assert id in m.consumers ==> ConsumerLive(m, id);
  }

  /**
   The exit of a loop ends the row it runs for, and touches no other instance, in
   particular no newer one of the same row.
   */
  lemma ExitOnlyEndsItsOwnInstance(parse: Parser, b: Boot, ops: seq<Op>, h: nat, id: string)
    requires b.Fits()
    ensures var (m, m') := (Run(parse, b, ops), Exit(Run(parse, b, ops), h));
      && h !in m'.loops
      && (id in m.providers ==> id in m'.providers && ProviderAfterExit(m.providers[id], m'.providers[id], h))
      && (id in m.consumers ==> id in m'.consumers && ConsumerAfterExit(m.consumers[id], m'.consumers[id], h))
  {
    RunWF(parse, b, ops);
    ExitEndsOwn(Run(parse, b, ops), h, id);
    hide WF, Exit, ProviderAfterExit, ConsumerAfterExit, Run;
  }

  predicate ProviderAfterExit(was: ProviderInst, now: ProviderInst, h: nat) {
    if was.ws == Some(h) then now == was.(ws := None, serveDone := None, failed := true) else now == was
  }

  predicate ConsumerAfterExit(was: ConsumerInst, now: ConsumerInst, h: nat) {
    if was.listener == Some(h) then now == was.(listener := None, cancel := false, failed := true) else now == was
  }

  lemma ExitEndsOwn(m: Manager, h: nat, id: string)
    requires LoopsGood(m)
    ensures var m' := Exit(m, h);
      && h !in m'.loops
      && (id in m.providers ==> id in m'.providers && ProviderAfterExit(m.providers[id], m'.providers[id], h))
      && (id in m.consumers ==> id in m'.consumers && ConsumerAfterExit(m.consumers[id], m'.consumers[id], h))
  {
    assert h in m.loops ==> LoopLive(m, h);
    assert id in m.providers ==> ProviderLive(m, id);
    assert id in m.consumers ==> ConsumerLive(m, id);
    hide LoopsGood;
  }

  // ---- Stopping everything ----

  /** Waiting starts nothing. */
  lemma WaitOnlyEnds(m: Manager, w: string, id: string)
    ensures var m' := WaitProvider(m, w);
      id in m'.providers && m'.providers[id].ws.Some? ==> id in m.providers && m.providers[id].ws.Some?
    ensures var m' := WaitConsumer(m, w);
      && (id in m'.consumers && m'.consumers[id].listener.Some? ==> id in m.consumers && m.consumers[id].listener.Some?)
      && (id in m'.providers && m'.providers[id].ws.Some? ==> id in m.providers && m.providers[id].ws.Some?)
  {
  }

  lemma {:induction false} WaitedProvidersEnd(parse: Parser, m: Manager, ids: seq<string>, id: string)
    requires WF(parse, m)
    requires id in ids || (id in m.providers ==> m.providers[id].ws.None?)
    ensures var m' := WaitProviders(m, ids); id in m'.providers ==> m'.providers[id].ws.None?
    decreases |ids|
  {
    hide WF, WaitProvider;
    if ids != [] {
      WaitProviderKeeps(parse, m, ids[0]);
      WaitOnlyEnds(m, ids[0], id);
      WaitedProvidersEnd(parse, WaitProvider(m, ids[0]), ids[1..], id);
    }
  }

  lemma {:induction false} WaitedConsumersEnd(parse: Parser, m: Manager, ids: seq<string>, id: string)
    requires WF(parse, m)
    requires id in ids || (id in m.consumers ==> m.consumers[id].listener.None?)
    ensures var m' := WaitConsumers(m, ids); id in m'.consumers ==> m'.consumers[id].listener.None?
    decreases |ids|
  {
    hide WF, WaitConsumer;
    if ids != [] {
      WaitConsumerKeeps(parse, m, ids[0]);
      WaitOnlyEnds(m, ids[0], id);
      WaitedConsumersEnd(parse, WaitConsumer(m, ids[0]), ids[1..], id);
    }
  }

  lemma {:induction false} WaitedConsumersStartNone(m: Manager, ids: seq<string>, id: string)
    ensures var m' := WaitConsumers(m, ids);
      id in m'.providers && m'.providers[id].ws.Some? ==> id in m.providers && m.providers[id].ws.Some?
    decreases |ids|
  {
    hide WaitConsumer;
    if ids != [] {
      WaitOnlyEnds(m, ids[0], id);
      WaitedConsumersStartNone(WaitConsumer(m, ids[0]), ids[1..], id);
    }
  }

  /** StopAll over all rows leaves no serve loop, and every row keeps its configuration. */
  lemma StopAllStopsAll(parse: Parser, m: Manager, ps: seq<string>, cs: seq<string>)
    requires WF(parse, m)
    requires (forall id :: id in m.providers ==> id in ps) && (forall id :: id in m.consumers ==> id in cs)
    ensures var m' := Do(parse, m, StoppingAll(ps, cs)); m'.loops == map[] && SameRows(m, m')
  {
    var m1 := WaitProviders(m, ps);
    var m2 := WaitConsumers(m1, cs);
    WaitProvidersKeeps(parse, m, ps);
    WaitConsumersKeeps(parse, m1, cs);
    SameRowsChain(m, m1, m2);
    hide WF, WaitProviders, WaitConsumers;
    forall id | id in m.providers
      ensures m2.providers[id].ws.None?
    {
      WaitedProvidersEnd(parse, m, ps, id);
      WaitedConsumersStartNone(m1, cs, id);
    }
    forall id | id in m.consumers
      ensures m2.consumers[id].listener.None?
    {
      WaitedConsumersEnd(parse, m1, cs, id);
    }
    NothingRuns(parse, m2);
  }

  lemma NothingRuns(parse: Parser, m: Manager)
    requires WF(parse, m)
    requires forall id :: id in m.providers ==> m.providers[id].ws.None?
    requires forall id :: id in m.consumers ==> m.consumers[id].listener.None?
    ensures m.loops == map[]
  {
    hide RowsGood, Separate;
    assert forall h :: h !in m.loops;
  }

  // ---- Restart ----

  function ProviderIds(ps: seq<ProviderCfg>): set<string> {
    if ps == [] then {} else ProviderIds(ps[..|ps| - 1]) + {ps[|ps| - 1].id}
  }

  function ConsumerIds(cs: seq<ConsumerCfg>): set<string> {
    if cs == [] then {} else ConsumerIds(cs[..|cs| - 1]) + {cs[|cs| - 1].id}
  }

  /** Rows of the manager, none twice. */
  ghost predicate ListsSomeProviders(m: Manager, ps: seq<ProviderCfg>) {
    && (forall i :: 0 <= i < |ps| ==> ps[i].id in m.providers && ps[i] == m.providers[ps[i].id].cfg)
    && (forall i, j :: 0 <= i < j < |ps| ==> ps[i].id != ps[j].id)
  }

  ghost predicate ListsSomeConsumers(m: Manager, cs: seq<ConsumerCfg>) {
    && (forall i :: 0 <= i < |cs| ==> cs[i].id in m.consumers && cs[i] == m.consumers[cs[i].id].cfg)
    && (forall i, j :: 0 <= i < j < |cs| ==> cs[i].id != cs[j].id)
  }

  /** What a save writes: every row once, in any order. */
  ghost predicate Persisted(m: Manager, ps: seq<ProviderCfg>, cs: seq<ConsumerCfg>) {
    && ListsSomeProviders(m, ps) && ProviderIds(ps) == m.providers.Keys
    && ListsSomeConsumers(m, cs) && ConsumerIds(cs) == m.consumers.Keys
  }

  /** Equal but for the channel id, which may change only in an enabled row. */
  predicate SameButChannel(p: ProviderCfg, q: ProviderCfg) {
    q.(channelID := p.channelID) == p && (!p.Enabled() ==> q == p)
  }

  /** Every row of `b` is one of `m`. */
  ghost predicate PartOf(b: Manager, m: Manager) {
    && (forall id :: id in b.providers ==>
          id in m.providers && SameButChannel(m.providers[id].cfg, b.providers[id].cfg))
    && (forall id :: id in b.consumers ==> id in m.consumers && b.consumers[id].cfg == m.consumers[id].cfg)
  }

  lemma PartOfEndpoints(b: Manager, m: Manager)
    requires PartOf(b, m)
    ensures forall id :: id in b.providers ==> b.providers[id].cfg.Endpoint() == m.providers[id].cfg.Endpoint()
  {
    forall id | id in b.providers
      ensures b.providers[id].cfg.Endpoint() == m.providers[id].cfg.Endpoint()
    {
      assert SameButChannel(m.providers[id].cfg, b.providers[id].cfg);
    }
  }

  lemma PartLeavesRoom(parse: Parser, m: Manager, b: Manager)
    requires Separate(parse, m) && RowsGood(m) && PartOf(b, m)
    ensures forall id :: id in m.providers ==> ProviderFits(parse, b, m.providers[id].cfg)
    ensures forall id :: id in m.consumers ==> ConsumerFits(parse, b, m.consumers[id].cfg)
  {
    PartOfEndpoints(b, m);
    hide ConsumerCfg.Endpoint, ProviderCfg.Endpoint, SameButChannel, GoodProvider, GoodConsumer;
  }

  lemma PutProviderIsPart(m: Manager, b: Manager, b': Manager, p: ProviderCfg, e: ProviderEnv)
    requires PartOf(b, m) && p.id in m.providers && m.providers[p.id].cfg == p
    requires ProviderPut(b, b', ProviderRow(p, e))
    ensures PartOf(b', m) && b'.providers.Keys == b.providers.Keys + {p.id} && b'.consumers.Keys == b.consumers.Keys
  {
    assert SameButChannel(p, ProviderRow(p, e));
    hide Handshake, SameButChannel;
    assert forall id :: id in b'.providers ==> id == p.id || id in b.providers;
    assert forall id :: id in b'.consumers ==> id in b.consumers;
  }

  lemma RestoreProvider(parse: Parser, m: Manager, b: Manager, p: ProviderCfg, e: ProviderEnv)
    requires WF(parse, m) && WF(parse, b) && PartOf(b, m)
    requires p.id in m.providers && m.providers[p.id].cfg == p && p.id !in b.providers
    ensures var b' := BootProvider(parse, b, p, e);
      && WF(parse, b') && PartOf(b', m)
      && b'.providers.Keys == b.providers.Keys + {p.id} && b'.consumers.Keys == b.consumers.Keys
  {
    PartLeavesRoom(parse, m, b);
    hide Separate, LoopsGood, BootProvider, ProviderFits, PartOf, ProviderPut;
    assert GoodProvider(p);
    GoodRowIsFixed(p, e.newId);
    BootProviderKeeps(parse, b, p, e);
    PutProviderIsPart(m, b, BootProvider(parse, b, p, e), p, e);
    hide RowsGood, NormalizeProvider, WithId;
  }

  lemma PutConsumerIsPart(m: Manager, b: Manager, b': Manager, c: ConsumerCfg)
    requires PartOf(b, m) && c.id in m.consumers && m.consumers[c.id].cfg == c
    requires ConsumerPut(b, b', c)
    ensures PartOf(b', m) && b'.consumers.Keys == b.consumers.Keys + {c.id} && b'.providers.Keys == b.providers.Keys
  {
    hide SameButChannel;
    assert forall id :: id in b'.consumers ==> id == c.id || id in b.consumers;
    assert forall id :: id in b'.providers ==> id in b.providers;
  }

  lemma RestoreConsumer(parse: Parser, m: Manager, b: Manager, c: ConsumerCfg, e: ConsumerEnv)
    requires WF(parse, m) && WF(parse, b) && PartOf(b, m)
    requires c.id in m.consumers && m.consumers[c.id].cfg == c && c.id !in b.consumers
    ensures var b' := BootConsumer(parse, b, c, e);
      && WF(parse, b') && PartOf(b', m)
      && b'.consumers.Keys == b.consumers.Keys + {c.id} && b'.providers.Keys == b.providers.Keys
  {
    PartLeavesRoom(parse, m, b);
    hide Separate, LoopsGood, BootConsumer, ConsumerFits, PartOf, ConsumerPut;
    assert GoodConsumer(c);
    BootConsumerKeeps(parse, b, c, e);
    PutConsumerIsPart(m, b, BootConsumer(parse, b, c, e), c);
    hide RowsGood, NormalizeConsumer;
  }

  lemma {:induction false} IdInPrefix(ps: seq<ProviderCfg>, id: string)
    requires id in ProviderIds(ps)
    ensures exists i :: 0 <= i < |ps| && ps[i].id == id
  {
    var n := |ps| - 1;
    if ps[n].id != id {
      IdInPrefix(ps[..n], id);
      var i :| 0 <= i < n && ps[..n][i].id == id;
      assert ps[i].id == id;
    }
  }

  lemma {:induction false} ConsumerIdInPrefix(cs: seq<ConsumerCfg>, id: string)
    requires id in ConsumerIds(cs)
    ensures exists i :: 0 <= i < |cs| && cs[i].id == id
  {
    var n := |cs| - 1;
    if cs[n].id != id {
      ConsumerIdInPrefix(cs[..n], id);
      var i :| 0 <= i < n && cs[..n][i].id == id;
      assert cs[i].id == id;
    }
  }

  lemma {:induction false} RestoreProviders(parse: Parser, m: Manager, ps: seq<ProviderCfg>, es: seq<ProviderEnv>)
    requires WF(parse, m) && ListsSomeProviders(m, ps) && |ps| == |es|
    ensures var b := BootProviders(parse, EMPTY, ps, es);
      WF(parse, b) && PartOf(b, m) && b.providers.Keys == ProviderIds(ps) && b.consumers.Keys == {}
  {
    hide WF, BootProvider, SameButChannel;
    if ps == [] {
      assert WF(parse, EMPTY) by { hide *; hide WF; BootProvidersKeepEmpty(parse); }
    } else {
      var n := |ps| - 1;
      RestoreProviders(parse, m, ps[..n], es[..n]);
      if ps[n].id in ProviderIds(ps[..n]) {
        IdInPrefix(ps[..n], ps[n].id);
        assert false;
      }
      hide PartOf;
      RestoreProvider(parse, m, BootProviders(parse, EMPTY, ps[..n], es[..n]), ps[n], es[n]);
    }
  }

  lemma BootProvidersKeepEmpty(parse: Parser)
    ensures WF(parse, EMPTY)
  {
  }

  lemma {:induction false} RestoreConsumers(
    parse: Parser, m: Manager, b0: Manager, cs: seq<ConsumerCfg>, es: seq<ConsumerEnv>)
    requires WF(parse, m) && ListsSomeConsumers(m, cs) && |cs| == |es|
    requires WF(parse, b0) && PartOf(b0, m) && b0.consumers.Keys == {}
    ensures var b := BootConsumers(parse, b0, cs, es);
      WF(parse, b) && PartOf(b, m) && b.consumers.Keys == ConsumerIds(cs) && b.providers.Keys == b0.providers.Keys
  {
    hide WF, BootConsumer, PartOf;
    if cs != [] {
      var n := |cs| - 1;
      RestoreConsumers(parse, m, b0, cs[..n], es[..n]);
      if cs[n].id in ConsumerIds(cs[..n]) {
        ConsumerIdInPrefix(cs[..n], cs[n].id);
        assert false;
      }
      RestoreConsumer(parse, m, BootConsumers(parse, b0, cs[..n], es[..n]), cs[n], es[n]);
    }
  }

  /**
   A restart loses no row: after any run, bringing up what a save wrote gives the
   same rows with equal configurations, whatever handshakes and listens fail. Only
   the channel id of an enabled provider may differ.
   */
  lemma RestartLosesNoRow(parse: Parser, b: Boot, ops: seq<Op>, again: Boot)
    requires b.Fits() && again.Fits() && Persisted(Run(parse, b, ops), again.ps, again.cs)
    ensures var (m, m') := (Run(parse, b, ops), Booted(parse, again));
      && m'.providers.Keys == m.providers.Keys && m'.consumers.Keys == m.consumers.Keys
      && (forall id :: id in m.providers ==> SameButChannel(m.providers[id].cfg, m'.providers[id].cfg))
      && (forall id :: id in m.consumers ==> m'.consumers[id].cfg == m.consumers[id].cfg)
  {
    var m := Run(parse, b, ops);
    RunWF(parse, b, ops);
    RestoreProviders(parse, m, again.ps, again.pes);
    RestoreConsumers(parse, m, BootProviders(parse, EMPTY, again.ps, again.pes), again.cs, again.ces);
    hide WF, Run, BootProviders, BootConsumers, SameButChannel;
  }
}
