/** What becomes of the channel id of a provider row, over calls and over runs. */
module ReverseChannelIds {
  import opened Base
  import opened Text
  import opened Endpoints
  import opened ReverseRows
  import opened ReverseInvariants
  import opened ReverseRuns
  import opened ReverseOutcomes

  lemma MergeIsNormal(m: Manager, p: ProviderCfg)
    ensures NormalizeProvider(MergePreserve(m, p)) == MergePreserve(m, p)
    ensures MergePreserve(m, p).id == TrimSpace(p.id) && MergePreserve(m, p).enabled == p.enabled
  {
    NormalizeProviderIdempotent(p);
    TrimSpaceTrims(p.id);
    hide NormalizeServerURL, OrLoopback;
    forall s: string {
      TrimSpaceTrims(s);
    }
  }

  /** The channel id a start asks for: the requested one, or the one its row has. */
  function Preferred(m: Manager, p: ProviderCfg): string {
    var id := TrimSpace(p.id);
    if TrimSpace(p.channelID) != "" then TrimSpace(p.channelID)
    else if id in m.providers then m.providers[id].cfg.channelID
    else ""
  }

  /** The request names the row, is valid, and no other row has its endpoint. */
  ghost predicate Restarts(parse: Parser, m: Manager, op: Op, id: string) {
    && op.StartingProvider?
    && TrimSpace(op.p.id) == id
    && ValidProvider(MergePreserve(m, op.p))
    && ProviderFits(parse, m, MergePreserve(m, op.p))
  }

  /** No generated id is the id of the row. */
  predicate FreshFor(op: Op, id: string) {
    op.StartingProvider? && TrimSpace(op.p.id) == "" ==> op.pe.newId != id
  }

  lemma MergePrefers(m: Manager, p: ProviderCfg, id: string)
    requires RowsGood(m)
    requires TrimSpace(p.id) == id && id in m.providers && m.providers[id].cfg.channelID != ""
    ensures MergePreserve(m, p).channelID == Preferred(m, p) != ""
  {
    assert GoodProvider(m.providers[id].cfg);
    TrimSpaceTrims(p.channelID);
    TrimSpaceTrims(p.id);
  }

  ghost function NextChannelId(parse: Parser, m: Manager, op: Op, id: string): string
    requires id in m.providers
  {
    if !Restarts(parse, m, op, id) then m.providers[id].cfg.channelID
    else
      var p := MergePreserve(m, op.p);
      if p.Enabled() && Handshake(p, op.pe).Some? then TrimSpace(Handshake(p, op.pe).value)
      else Preferred(m, op.p)
  }

  /**
   What becomes of a row's channel id: the preferred one is kept by a restart whose
   handshakes fail or that is disabled, the answered one replaces it if a restart
   succeeds, and every other call leaves it as it is or removes its row.
   */
  lemma ChannelIdAfterCall(parse: Parser, m: Manager, op: Op, id: string)
    requires WF(parse, m) && FreshFor(op, id)
    requires id in m.providers && m.providers[id].cfg.channelID != ""
    ensures var m' := Do(parse, m, op);
      && (id !in m'.providers <==> op.RemovingProvider? && TrimSpace(op.id) == id)
      && (id in m'.providers ==> m'.providers[id].cfg.channelID == NextChannelId(parse, m, op, id))
  {
    if op.StartingProvider? {
      ChannelIdAfterStart(parse, m, op, id);
    } else if op.RemovingProvider? {
      RemoveProviderKeeps(parse, m, op.id, op.before);
    } else {
      OtherCallsKeepProviders(parse, m, op);
    }
    hide WF, Restarts, FreshFor, MergePreserve, Handshake, Preferred, TrimSpace;
  }

  lemma ChannelIdAfterStart(parse: Parser, m: Manager, op: Op, id: string)
    requires WF(parse, m) && FreshFor(op, id) && op.StartingProvider?
    requires id in m.providers && m.providers[id].cfg.channelID != ""
    ensures var m' := Do(parse, m, op);
      id in m'.providers && m'.providers[id].cfg.channelID == NextChannelId(parse, m, op, id)
  {
    var q := MergePreserve(m, op.p);
    MergeIsNormal(m, op.p);
    assert GoodProvider(m.providers[id].cfg);
    hide WF, RowsGood, Separate, LoopsGood, StartProvider, ProviderFits, MergePreserve, NormalizeProvider, Handshake,
         Preferred,
         GoodProvider;
    if TrimSpace(op.p.id) == id {
      assert q.id == id;
      MergePrefers(m, op.p, id);
      StartedOwn(parse, m, q, op.pe);
    } else {
      StartedOther(parse, m, q, op.pe, id);
    }
    hide TrimSpace, ValidProvider;
  }

  lemma RowIdIsNotBlank(m: Manager, id: string)
    requires RowsGood(m) && id in m.providers
    ensures TrimSpace(id) == id != ""
  {
    assert GoodProvider(m.providers[id].cfg);
    hide NormalizeServerURL, OrLoopback;
  }

  lemma StartedOwn(parse: Parser, m: Manager, q: ProviderCfg, e: ProviderEnv)
    requires WF(parse, m) && NormalizeProvider(q) == q && q.id in m.providers
    ensures var m' := StartProvider(parse, m, q, e).0;
      && q.id in m'.providers
      && m'.providers[q.id].cfg.channelID ==
         if ValidProvider(q) && ProviderFits(parse, m, q) then ProviderRow(q, e).channelID
         else m.providers[q.id].cfg.channelID
  {
    hide RowsGood, Separate, LoopsGood, NormalizeProvider, StartProvider, ProviderFits, ValidProvider, Handshake,
         TrimSpace;
    RowIdIsNotBlank(m, q.id);
    assert WithId(q, e.newId) == q;
    StartProviderKeeps(parse, m, q, e);
    hide WF, WithId;
  }

  lemma StartedOther(parse: Parser, m: Manager, q: ProviderCfg, e: ProviderEnv, id: string)
    requires WF(parse, m) && NormalizeProvider(q) == q && id in m.providers && WithId(q, e.newId).id != id
    ensures var m' := StartProvider(parse, m, q, e).0;
      id in m'.providers && m'.providers[id].cfg == m.providers[id].cfg
  {
    hide WF, WithId, NormalizeProvider, StartProvider, ProviderFits, ValidProvider, Handshake;
    StartProviderKeeps(parse, m, q, e);
  }

  /** Every call but a start or a removal of a provider keeps all providers' configurations. */
  lemma OtherCallsKeepProviders(parse: Parser, m: Manager, op: Op)
    requires WF(parse, m) && !op.StartingProvider? && !op.RemovingProvider?
    ensures var m' := Do(parse, m, op);
      && m'.providers.Keys == m.providers.Keys
      && (forall i :: i in m.providers ==> m'.providers[i].cfg == m.providers[i].cfg)
  {
    hide WF, StartProvider, StartConsumer, MergePreserve, StopProvider, StopConsumer, RemoveProvider, RemoveConsumer,
         Exit;
    match op
    case StartingConsumer(c, e) =>
      StartConsumerKeeps(parse, m, c, e);
      hide ConsumerFits, ValidConsumer, NormalizeConsumer;
    case StoppingProvider(id, before) => StopKeeps(parse, m, id, before);
    case StoppingConsumer(id, before) => StopKeeps(parse, m, id, before);
    case RemovingConsumer(id, before) => RemoveConsumerKeeps(parse, m, id, before);
    case StoppingAll(ps, cs) =>
      WaitProvidersKeeps(parse, m, ps);
      WaitConsumersKeeps(parse, WaitProviders(m, ps), cs);
      SameRowsChain(m, WaitProviders(m, ps), Do(parse, m, op));
    case Exiting(h) => ExitKeeps(parse, m, h);
  }

  /** The call neither removes the row, nor asks for another channel id, nor is answered with one. */
  predicate LeavesChannel(op: Op, id: string, ch: string) {
    && FreshFor(op, id)
    && (op.RemovingProvider? ==> TrimSpace(op.id) != id)
    && (op.StartingProvider? && TrimSpace(op.p.id) == id ==>
          && (TrimSpace(op.p.channelID) == "" || TrimSpace(op.p.channelID) == ch)
          && (op.pe.reclaim.Some? ==> TrimSpace(op.pe.reclaim.value) == ch)
          && (op.pe.reclaim.None? && op.pe.offer.Some? ==> TrimSpace(op.pe.offer.value) == ch))
  }

  /**
   A row keeps its channel id through any number of failed handshakes, reclaims,
   stops, disables and calls for other rows.
   */
  lemma {:induction false} ChannelIdSticks(parse: Parser, b: Boot, ops: seq<Op>, more: seq<Op>, id: string, ch: string)
    requires b.Fits() && ch != ""
    requires id in Run(parse, b, ops).providers && Run(parse, b, ops).providers[id].cfg.channelID == ch
    requires forall i :: 0 <= i < |more| ==> LeavesChannel(more[i], id, ch)
    ensures id in Run(parse, b, ops + more).providers && Run(parse, b, ops + more).providers[id].cfg.channelID == ch
    decreases |more|
  {
    hide WF, Do, LeavesChannel;
    if more == [] {
      assert ops + more == ops;
    } else {
      var n := |more| - 1;
      ChannelIdSticks(parse, b, ops, more[..n], id, ch);
      RunWF(parse, b, ops + more[..n]);
      ChannelIdStays(parse, Run(parse, b, ops + more[..n]), more[n], id, ch);
      assert (ops + more)[..|ops + more| - 1] == ops + more[..n];
    }
  }

  lemma ChannelIdStays(parse: Parser, m: Manager, op: Op, id: string, ch: string)
    requires WF(parse, m) && LeavesChannel(op, id, ch)
    requires id in m.providers && m.providers[id].cfg.channelID == ch != ""
    ensures id in Do(parse, m, op).providers && Do(parse, m, op).providers[id].cfg.channelID == ch
  {
    ChannelIdAfterCall(parse, m, op, id);
    if Restarts(parse, m, op, id) {
      MergePrefers(m, op.p, id);
      TrimSpaceTrims(op.p.channelID);
    }
    hide WF, Do, RowsGood, Separate, LoopsGood, TrimSpace, MergePreserve, ProviderFits, ValidProvider;
  }

  // ---- The two places a row keeps its channel id in ----

  /** What a row was answered, if anything, is what its configuration holds. */
  predicate Agrees(inst: ProviderInst) {
    TrimSpace(inst.channelID) == "" || TrimSpace(inst.channelID) == inst.cfg.channelID
  }

  ghost predicate AllAgree(m: Manager) {
    forall id :: id in m.providers ==> Agrees(m.providers[id])
  }

  lemma AgreeWithout(m: Manager, gone: set<nat>)
    requires AllAgree(m)
    ensures AllAgree(Without(m, gone))
  {
    hide TrimSpace;
  }

  lemma AgreeWith(m: Manager, gone: set<nat>, inst: ProviderInst)
    requires AllAgree(m) && Agrees(inst)
    ensures AllAgree(WithProvider(m, gone, inst))
  {
    AgreeWithout(m, gone);
    hide Agrees, Without;
  }

  lemma StartAgrees(parse: Parser, m: Manager, p0: ProviderCfg, e: ProviderEnv)
    requires WF(parse, m) && AllAgree(m)
    ensures AllAgree(StartProvider(parse, m, p0, e).0)
  {
    var p := WithId(NormalizeProvider(p0), e.newId);
    var ended := Those(e.before) + ProviderLoopOf(m, p.id);
    var gone := ended + Those(e.between);
    StartProviderOutcome(parse, m, p0, e);
    AgreeWithout(m, ended);
    assert TrimSpace("") == "";
    AgreeWith(m, gone, ProviderInst(p, "", None, None, false));
    AgreeWith(m, gone, ProviderInst(p, "", None, None, true));
    var answer := if TrimSpace(p0.channelID) != "" && e.reclaim.Some? then e.reclaim else e.offer;
    if answer.Some? {
      var ch := answer.value;
      AgreeWith(m, gone, ProviderInst(p.(channelID := TrimSpace(ch)), ch, Some(m.next), Some(m.next), false));
    }
    hide WF, NormalizeProvider, WithId, ProviderFits, StartProvider, TrimSpace, Without, Those, ProviderLoopOf,
         WithProvider;
  }

  lemma StartConsumerAgrees(parse: Parser, m: Manager, c0: ConsumerCfg, e: ConsumerEnv)
    requires WF(parse, m) && AllAgree(m)
    ensures AllAgree(StartConsumer(parse, m, c0, e).0)
  {
    var ended := Those(e.before) + ConsumerLoopOf(m, NormalizeConsumer(c0).id);
    StartConsumerOutcome(parse, m, c0, e);
    AgreeWithout(m, ended);
    AgreeWithout(m, ended + Those(e.between));
    hide WF, NormalizeConsumer, ConsumerFits, StartConsumer, TrimSpace, Without, Those, ConsumerLoopOf, Agrees;
  }

  lemma {:induction false} WaitsAgree(parse: Parser, m: Manager, ids: seq<string>)
    requires WF(parse, m) && AllAgree(m)
    ensures AllAgree(WaitProviders(m, ids)) && AllAgree(WaitConsumers(m, ids))
    decreases |ids|
  {
    hide RowsGood, Separate, LoopsGood, WaitProvider, WaitConsumer, Without, AllAgree;
    if ids != [] {
      WaitIsWithout(m, ids[0]);
      AgreeWithout(m, ProviderLoopOf(m, ids[0]));
      AgreeWithout(m, ConsumerLoopOf(m, ids[0]));
      WaitProviderKeeps(parse, m, ids[0]);
      WaitConsumerKeeps(parse, m, ids[0]);
      WaitsAgree(parse, WaitProvider(m, ids[0]), ids[1..]);
      WaitsAgree(parse, WaitConsumer(m, ids[0]), ids[1..]);
    }
  }

  lemma DoAgrees(parse: Parser, m: Manager, op: Op)
    requires WF(parse, m) && AllAgree(m)
    ensures AllAgree(Do(parse, m, op))
  {
    hide RowsGood, Separate, LoopsGood, Without, StartProvider, StartConsumer, StopProvider, StopConsumer, Exit,
         MergePreserve, TrimSpace, Agrees, WaitProviders, WaitConsumers, RemoveProvider, RemoveConsumer;
    match op
    case StartingProvider(p, e) => StartAgrees(parse, m, MergePreserve(m, p), e);
    case StartingConsumer(c, e) => StartConsumerAgrees(parse, m, c, e);
    case StoppingProvider(id, before) =>
      StopEndsTheRow(parse, m, id, before);
      AgreeWithout(m, Those(before) + ProviderLoopOf(m, TrimSpace(id)));
    case StoppingConsumer(id, before) =>
      StopEndsTheRow(parse, m, id, before);
      AgreeWithout(m, Those(before) + ConsumerLoopOf(m, TrimSpace(id)));
    case RemovingProvider(id, before) =>
      RemoveEndsTheRow(parse, m, id, before);
      AgreeWithout(m, Those(before) + ProviderLoopOf(m, TrimSpace(id)));
    case RemovingConsumer(id, before) =>
      RemoveEndsTheRow(parse, m, id, before);
      AgreeWithout(m, Those(before) + ConsumerLoopOf(m, TrimSpace(id)));
    case StoppingAll(ps, cs) =>
      WaitProvidersKeeps(parse, m, ps);
      WaitsAgree(parse, m, ps);
      WaitsAgree(parse, WaitProviders(m, ps), cs);
    case Exiting(h) =>
      ExitIsWithout(m, h);
      AgreeWithout(m, {h});
  }

  lemma {:induction false} BootProvidersAgree(parse: Parser, m: Manager, ps: seq<ProviderCfg>, es: seq<ProviderEnv>)
    requires WF(parse, m) && AllAgree(m) && |ps| == |es|
    ensures AllAgree(BootProviders(parse, m, ps, es))
    decreases |ps|
  {
    hide WF, AllAgree, BootProvider;
    if ps != [] {
      var n := |ps| - 1;
      BootProvidersKeep(parse, m, ps[..n], es[..n]);
      BootProvidersAgree(parse, m, ps[..n], es[..n]);
      BootProviderAgrees(parse, BootProviders(parse, m, ps[..n], es[..n]), ps[n], es[n]);
    }
  }

  lemma BootProviderAgrees(parse: Parser, m: Manager, p0: ProviderCfg, e: ProviderEnv)
    requires WF(parse, m) && AllAgree(m)
    ensures AllAgree(BootProvider(parse, m, p0, e))
  {
    BootProviderOutcome(parse, m, p0, e);
    StartAgrees(parse, m, p0, e);
    assert TrimSpace("") == "";
    AgreeWith(m, {}, ProviderInst(WithId(NormalizeProvider(p0), e.newId), "", None, None, false));
    hide WF, AllAgree, BootProvider, StartProvider, WithProvider, NormalizeProvider, WithId, TrimSpace, ProviderFits;
  }

  lemma {:induction false} BootConsumersAgree(parse: Parser, m: Manager, cs: seq<ConsumerCfg>, es: seq<ConsumerEnv>)
    requires WF(parse, m) && AllAgree(m) && |cs| == |es|
    ensures AllAgree(BootConsumers(parse, m, cs, es))
    decreases |cs|
  {
    hide WF, AllAgree, BootConsumer;
    if cs != [] {
      var n := |cs| - 1;
      BootConsumersKeep(parse, m, cs[..n], es[..n]);
      BootConsumersAgree(parse, m, cs[..n], es[..n]);
      BootConsumerAgrees(parse, BootConsumers(parse, m, cs[..n], es[..n]), cs[n], es[n]);
    }
  }

  lemma BootConsumerAgrees(parse: Parser, m: Manager, c0: ConsumerCfg, e: ConsumerEnv)
    requires WF(parse, m) && AllAgree(m)
    ensures AllAgree(BootConsumer(parse, m, c0, e))
  {
    BootConsumerOutcome(parse, m, c0, e);
    StartConsumerAgrees(parse, m, c0, e);
    AgreeWithout(m, {});
    hide WF, BootConsumer, StartConsumer, NormalizeConsumer, TrimSpace, ConsumerFits, Without, Agrees;
  }

  lemma {:induction false} RunAgrees(parse: Parser, b: Boot, ops: seq<Op>)
    requires b.Fits()
    ensures AllAgree(Run(parse, b, ops))
    decreases |ops|
  {
    if ops == [] {
      assert WF(parse, EMPTY) && AllAgree(EMPTY);
      BootProvidersKeep(parse, EMPTY, b.ps, b.pes);
      BootProvidersAgree(parse, EMPTY, b.ps, b.pes);
      BootConsumersAgree(parse, BootProviders(parse, EMPTY, b.ps, b.pes), b.cs, b.ces);
    } else {
      RunWF(parse, b, ops[..|ops| - 1]);
      RunAgrees(parse, b, ops[..|ops| - 1]);
      DoAgrees(parse, Run(parse, b, ops[..|ops| - 1]), ops[|ops| - 1]);
    }
    hide WF, AllAgree;
  }

  /**
   Merging a request with its row adds the channel id of the row's configuration to
   a request without one, and changes nothing else. The answered id, which the code
   falls back on, never differs from it.
   */
  lemma MergeAddsTheChannelId(parse: Parser, b: Boot, ops: seq<Op>, p: ProviderCfg)
    requires b.Fits()
    ensures var m := Run(parse, b, ops); MergePreserve(m, p) == NormalizeProvider(p).(channelID := Preferred(m, p))
  {
    var m, id := Run(parse, b, ops), TrimSpace(p.id);
    RunWF(parse, b, ops);
    RunAgrees(parse, b, ops);
    hide Run, Separate, LoopsGood, NormalizeServerURL, OrLoopback;
    TrimSpaceTrims(p.id);
    TrimSpaceTrims(p.channelID);
    if id in m.providers {
      assert GoodProvider(m.providers[id].cfg) && Agrees(m.providers[id]);
      RowIdIsNotBlank(m, id);
    }
    hide TrimSpace;
  }

  // ---- Blank answers ----

  /** The start is enabled, and the handshake that decides it succeeds with a blank channel id. */
  predicate BlankAnswer(op: Op) {
    && op.StartingProvider?
    && op.p.Enabled()
    && (if op.pe.reclaim.Some? then TrimSpace(op.pe.reclaim.value) == ""
        else op.pe.offer.Some? && TrimSpace(op.pe.offer.value) == "")
  }

  lemma PreferredIsTrimmed(m: Manager, p: ProviderCfg)
    requires RowsGood(m)
    ensures TrimSpace(Preferred(m, p)) == Preferred(m, p)
  {
    TrimSpaceTrims(p.channelID);
    assert TrimSpace("") == "";
    if TrimSpace(p.id) in m.providers {
      assert GoodProvider(m.providers[TrimSpace(p.id)].cfg);
    }
    hide TrimSpace, NormalizeServerURL, OrLoopback;
  }

  /** A row that stays loses its channel id exactly by a restart that succeeds with a blank answer. */
  lemma ChannelIdLostIff(parse: Parser, m: Manager, op: Op, id: string)
    requires WF(parse, m) && FreshFor(op, id)
    requires id in m.providers && m.providers[id].cfg.channelID != ""
    ensures var m' := Do(parse, m, op);
      id in m'.providers ==> (m'.providers[id].cfg.channelID == "" <==> Restarts(parse, m, op, id) && BlankAnswer(op))
  {
    hide Do, RowsGood, Separate, LoopsGood, MergePreserve, ProviderFits, ValidProvider, FreshFor, Preferred, TrimSpace;
    ChannelIdAfterCall(parse, m, op, id);
    if Restarts(parse, m, op, id) {
      MergePrefers(m, op.p, id);
      MergeIsNormal(m, op.p);
      PreferredIsTrimmed(m, op.p);
    }
    hide WF;
  }

  /** The call neither removes the row nor restarts it with a blank answer. */
  predicate LeavesSomeChannel(op: Op, id: string) {
    && FreshFor(op, id)
    && (op.RemovingProvider? ==> TrimSpace(op.id) != id)
    && !(op.StartingProvider? && TrimSpace(op.p.id) == id && BlankAnswer(op))
  }

  /**
   A row with a channel id has one until it is removed, whatever is requested and
   whatever fails, as long as no start of it is answered with a blank one.
   */
  lemma {:induction false} SomeChannelIdSticks(parse: Parser, b: Boot, ops: seq<Op>, more: seq<Op>, id: string)
    requires b.Fits()
    requires id in Run(parse, b, ops).providers && Run(parse, b, ops).providers[id].cfg.channelID != ""
    requires forall i :: 0 <= i < |more| ==> LeavesSomeChannel(more[i], id)
    ensures var m := Run(parse, b, ops + more); id in m.providers && m.providers[id].cfg.channelID != ""
    decreases |more|
  {
    hide WF, Do, LeavesSomeChannel;
    if more == [] {
      assert ops + more == ops;
    } else {
      var n := |more| - 1;
      SomeChannelIdSticks(parse, b, ops, more[..n], id);
      RunWF(parse, b, ops + more[..n]);
      SomeChannelIdStays(parse, Run(parse, b, ops + more[..n]), more[n], id);
      assert (ops + more)[..|ops + more| - 1] == ops + more[..n];
    }
  }

  lemma SomeChannelIdStays(parse: Parser, m: Manager, op: Op, id: string)
    requires WF(parse, m) && LeavesSomeChannel(op, id)
    requires id in m.providers && m.providers[id].cfg.channelID != ""
    ensures id in Do(parse, m, op).providers && Do(parse, m, op).providers[id].cfg.channelID != ""
  {
    ChannelIdAfterCall(parse, m, op, id);
    ChannelIdLostIff(parse, m, op, id);
    hide WF, Do, FreshFor, BlankAnswer, NextChannelId, TrimSpace, ValidProvider, ProviderFits, MergePreserve;
  }

  const SAMPLE := ProviderCfg("a", "ws://host", "127.0.0.1", 80, "", "c", None)

  /** A start of the sample row whose reclaim is answered with the given channel id. */
  function Reclaimed(answer: string): Op {
    StartingProvider(SAMPLE, ProviderEnv("0", Some(answer), None, [], []))
  }

  lemma SampleIsGood()
    ensures GoodProvider(SAMPLE)
  {
    assert TrimSpace("a") == "a" && TrimSpace("c") == "c" && TrimSpace("") == "";
    assert TrimSpace("ws://host") == "ws://host" && TrimSpace("127.0.0.1") == "127.0.0.1";
    assert HasPrefixFold("ws://host", "ws://");
    WebSocketURLIsNormal("ws://host");
    hide TrimSpace, HasPrefixFold;
  }

  /** The sample row, alone or not there yet, is started with the channel id of the answer. */
  lemma SampleStarts(parse: Parser, m: Manager, answer: string)
    requires WF(parse, m) && m.providers.Keys <= {"a"} && m.consumers == map[]
    ensures var m' := Do(parse, m, Reclaimed(answer));
      m'.providers.Keys == {"a"} && m'.consumers == map[] && m'.providers["a"].cfg.channelID == TrimSpace(answer)
  {
    var e := ProviderEnv("0", Some(answer), None, [], []);
    MergedSample(m, e.newId);
    AloneFits(parse, m);
    var p := SAMPLE;
    AloneStarts(parse, m, p, e, answer);
    hide *;
  }

  lemma AloneStarts(parse: Parser, m: Manager, p: ProviderCfg, e: ProviderEnv, answer: string)
    requires WF(parse, m) && m.providers.Keys <= {p.id} && m.consumers == map[]
    requires MergePreserve(m, p) == p && WithId(NormalizeProvider(p), e.newId) == p && ValidProvider(p)
    requires ProviderFits(parse, m, p) && p.Enabled() && TrimSpace(p.channelID) != "" && e.reclaim == Some(answer)
    ensures var m' := Do(parse, m, StartingProvider(p, e));
      m'.providers.Keys == {p.id} && m'.consumers == map[] && m'.providers[p.id].cfg.channelID == TrimSpace(answer)
  {
    hide WF, StartProvider, NormalizeProvider, WithId, MergePreserve, ProviderFits, TrimSpace, ValidProvider;
    StartProviderKeeps(parse, m, p, e);
  }

  lemma MergedSample(m: Manager, newId: NewId)
    ensures MergePreserve(m, SAMPLE) == SAMPLE && WithId(NormalizeProvider(SAMPLE), newId) == SAMPLE
    ensures ValidProvider(SAMPLE) && TrimSpace(SAMPLE.channelID) == "c"
  {
    SampleIsGood();
    assert TrimSpace("c") == "c";
    hide TrimSpace, NormalizeServerURL, OrLoopback;
  }

  lemma AloneFits(parse: Parser, m: Manager)
    requires m.providers.Keys <= {"a"} && m.consumers == map[]
    ensures ProviderFits(parse, m, SAMPLE)
  {
    hide ProviderCfg.Endpoint, ConsumerCfg.Endpoint;
  }

  /** A run in which a row has the channel id "c", and none after a restart that is answered with a blank one. */
  lemma BlankAnswerTakesIdAway(parse: Parser)
    ensures var (b, ops) := (Boot([], [], [], []), [Reclaimed("c"), Reclaimed(" ")]);
      && "a" in Run(parse, b, ops[..1]).providers && Run(parse, b, ops[..1]).providers["a"].cfg.channelID == "c"
      && "a" in Run(parse, b, ops).providers && Run(parse, b, ops).providers["a"].cfg.channelID == ""
  {
    var b, ops := Boot([], [], [], []), [Reclaimed("c"), Reclaimed(" ")];
    assert ops[..1][..0] == [] && ops[..1][0] == Reclaimed("c");
    assert TrimSpace("c") == "c" && TrimSpace(" ") == "";
    assert Run(parse, b, []) == EMPTY;
    RunWF(parse, b, []);
    SampleStarts(parse, EMPTY, "c");
    RunWF(parse, b, ops[..1]);
    SampleStarts(parse, Run(parse, b, ops[..1]), " ");
    hide WF, Do, TrimSpace;
  }
}
