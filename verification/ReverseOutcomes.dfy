/**
 What each call of the reverse-tunnel manager answers and the whole state it leaves:
 starts, stops, removals and the rows of the file.
 */
module ReverseOutcomes {
  import opened Base
  import opened Text
  import opened Endpoints
  import opened ReverseRows
  import opened ReverseInvariants
  import opened ReverseRuns

  // ---- Ended loops ----

  function ProviderWithout(inst: ProviderInst, gone: set<nat>): ProviderInst {
    if inst.ws.Some? && inst.ws.value in gone then inst.(ws := None, serveDone := None, failed := true) else inst
  }

  function ConsumerWithout(inst: ConsumerInst, gone: set<nat>): ConsumerInst {
    if inst.listener.Some? && inst.listener.value in gone then inst.(cancel := false, listener := None, failed := true)
    else inst
  }

  /** The manager once the loops in `gone` have exited, in whatever order they did. */
  function Without(m: Manager, gone: set<nat>): Manager {
    Manager(map id | id in m.providers :: ProviderWithout(m.providers[id], gone),
            map id | id in m.consumers :: ConsumerWithout(m.consumers[id], gone),
            m.loops - gone, m.next)
  }

  function Those(hs: seq<nat>): set<nat> {
    set h | h in hs
  }

  /** The loop a row shows. */
  function ProviderLoopOf(m: Manager, id: string): set<nat> {
    if id in m.providers && m.providers[id].ws.Some? then {m.providers[id].ws.value} else {}
  }

  function ConsumerLoopOf(m: Manager, id: string): set<nat> {
    if id in m.consumers && m.consumers[id].listener.Some? then {m.consumers[id].listener.value} else {}
  }

  lemma WithoutNone(m: Manager)
    ensures Without(m, {}) == m
  {
    assert m.loops - {} == m.loops;
  }

  lemma WithoutMore(m: Manager, a: set<nat>, b: set<nat>)
    ensures Without(Without(m, a), b) == Without(m, a + b)
  {
    assert m.loops - a - b == m.loops - (a + b);
  }

  lemma ExitIsWithout(m: Manager, h: nat)
    requires LoopsGood(m)
    ensures Exit(m, h) == Without(m, {h})
  {
    assert h in m.loops ==> LoopLive(m, h);
    assert forall id :: id in m.providers ==> ProviderLive(m, id);
    assert forall id :: id in m.consumers ==> ConsumerLive(m, id);
    hide LoopsGood;
    var l, r := Exit(m, h), Without(m, {h});
    assert l.loops == r.loops;
    assert l.providers == r.providers;
    assert l.consumers == r.consumers;
  }

  lemma {:induction false} ExitAllIsWithout(parse: Parser, m: Manager, hs: seq<nat>)
    requires WF(parse, m)
    ensures ExitAll(m, hs) == Without(m, Those(hs))
    decreases |hs|
  {
    if hs == [] {
      assert Those(hs) == {};
      WithoutNone(m);
    } else {
      ExitKeeps(parse, m, hs[0]);
      ExitIsWithout(m, hs[0]);
      ExitAllIsWithout(parse, Exit(m, hs[0]), hs[1..]);
      WithoutMore(m, {hs[0]}, Those(hs[1..]));
      assert Those(hs) == {hs[0]} + Those(hs[1..]);
    }
    hide WF, Exit, Without;
  }

  lemma WaitIsWithout(m: Manager, id: string)
    requires LoopsGood(m)
    ensures WaitProvider(m, id) == Without(m, ProviderLoopOf(m, id))
    ensures WaitConsumer(m, id) == Without(m, ConsumerLoopOf(m, id))
  {
    WithoutNone(m);
    if id in m.providers {
      assert ProviderLive(m, id);
      if m.providers[id].ws.Some? { ExitIsWithout(m, m.providers[id].ws.value); }
    }
    if id in m.consumers {
      assert ConsumerLive(m, id);
      if m.consumers[id].listener.Some? { ExitIsWithout(m, m.consumers[id].listener.value); }
    }
    hide LoopsGood, Without;
  }

  lemma LoopAmongThose(m: Manager, gone: set<nat>, id: string)
    ensures gone + ProviderLoopOf(Without(m, gone), id) == gone + ProviderLoopOf(m, id)
    ensures gone + ConsumerLoopOf(Without(m, gone), id) == gone + ConsumerLoopOf(m, id)
  {
  }

  /** After the exits that fall into a call and its wait, exactly those loops and the row's own are gone. */
  lemma WaitAfterExits(parse: Parser, m: Manager, hs: seq<nat>, id: string)
    requires WF(parse, m)
    ensures WaitProvider(ExitAll(m, hs), id) == Without(m, Those(hs) + ProviderLoopOf(m, id))
    ensures WaitConsumer(ExitAll(m, hs), id) == Without(m, Those(hs) + ConsumerLoopOf(m, id))
  {
    var m0 := ExitAll(m, hs);
    hide Without, WaitProvider, WaitConsumer, RowsGood, Separate, LoopsGood;
    ExitAllKeeps(parse, m, hs);
    ExitAllIsWithout(parse, m, hs);
    WaitIsWithout(m0, id);
    WithoutMore(m, Those(hs), ProviderLoopOf(m0, id));
    WithoutMore(m, Those(hs), ConsumerLoopOf(m0, id));
    LoopAmongThose(m, Those(hs), id);
    hide Those, ProviderLoopOf, ConsumerLoopOf;
  }

  // ---- Stops and removals ----

  /** A stop ends the named row's loop, and otherwise only those that happen to exit; every row stays. */
  lemma StopEndsTheRow(parse: Parser, m: Manager, id: string, before: seq<nat>)
    requires WF(parse, m)
    ensures StopProvider(m, id, before) == Without(m, Those(before) + ProviderLoopOf(m, TrimSpace(id)))
    ensures StopConsumer(m, id, before) == Without(m, Those(before) + ConsumerLoopOf(m, TrimSpace(id)))
  {
    WaitAfterExits(parse, m, before, TrimSpace(id));
    hide WF, Without, TrimSpace, ProviderLoopOf, ConsumerLoopOf;
  }

  /** A removal does the same, and the row is gone. */
  lemma RemoveEndsTheRow(parse: Parser, m: Manager, id: string, before: seq<nat>)
    requires WF(parse, m)
    ensures var left := Without(m, Those(before) + ProviderLoopOf(m, TrimSpace(id)));
      RemoveProvider(m, id, before) == left.(providers := left.providers - {TrimSpace(id)})
    ensures var left := Without(m, Those(before) + ConsumerLoopOf(m, TrimSpace(id)));
      RemoveConsumer(m, id, before) == left.(consumers := left.consumers - {TrimSpace(id)})
  {
    StopEndsTheRow(parse, m, id, before);
    hide WF, Without, TrimSpace, ProviderLoopOf, ConsumerLoopOf, StopProvider, StopConsumer;
  }

  /**
   The row `k` has no loop left and keeps its configuration; no other row lost its
   loop but by an exit of its own, and without such exits nothing else changed.
   */
  ghost predicate ProviderStopped(m: Manager, m': Manager, k: string, before: seq<nat>) {
    && (forall h :: h in m'.loops ==> h in m.loops && m'.loops[h] == m.loops[h] != ProviderLoop(k))
    && (forall h :: h in m.loops && m.loops[h] != ProviderLoop(k) && h !in before ==> h in m'.loops)
    && (k in m.providers <==> k in m'.providers)
    && (k in m.providers ==>
          m'.providers[k].ws == m'.providers[k].serveDone == None && m'.providers[k].cfg == m.providers[k].cfg)
    && (before == [] ==> m'.providers - {k} == m.providers - {k} && m'.consumers == m.consumers)
  }

  ghost predicate ConsumerStopped(m: Manager, m': Manager, k: string, before: seq<nat>) {
    && (forall h :: h in m'.loops ==> h in m.loops && m'.loops[h] == m.loops[h] != ConsumerLoop(k))
    && (forall h :: h in m.loops && m.loops[h] != ConsumerLoop(k) && h !in before ==> h in m'.loops)
    && (k in m.consumers <==> k in m'.consumers)
    && (k in m.consumers ==>
          && m'.consumers[k].listener == None && !m'.consumers[k].cancel
          && m'.consumers[k].cfg == m.consumers[k].cfg)
    && (before == [] ==> m'.consumers - {k} == m.consumers - {k} && m'.providers == m.providers)
  }

  lemma StoppedProvider(m: Manager, k: string, before: seq<nat>)
    requires LoopsGood(m)
    ensures ProviderStopped(m, Without(m, Those(before) + ProviderLoopOf(m, k)), k, before)
  {
    assert forall h :: h in m.loops ==> LoopLive(m, h);
    assert k in m.providers ==> ProviderLive(m, k);
    if before == [] {
      StoppedProviderAlone(m, k);
    }
    hide LoopsGood;
  }

  lemma StoppedProviderAlone(m: Manager, k: string)
    requires LoopsGood(m)
    ensures var m' := Without(m, Those([]) + ProviderLoopOf(m, k));
      m'.providers - {k} == m.providers - {k} && m'.consumers == m.consumers
  {
    assert forall id :: id in m.providers ==> ProviderLive(m, id);
    assert forall id :: id in m.consumers ==> ConsumerLive(m, id);
    hide LoopsGood;
  }

  lemma StoppedConsumer(m: Manager, k: string, before: seq<nat>)
    requires LoopsGood(m)
    ensures ConsumerStopped(m, Without(m, Those(before) + ConsumerLoopOf(m, k)), k, before)
  {
    assert forall h :: h in m.loops ==> LoopLive(m, h);
    assert k in m.consumers ==> ConsumerLive(m, k);
    if before == [] {
      StoppedConsumerAlone(m, k);
    }
    hide LoopsGood;
  }

  lemma StoppedConsumerAlone(m: Manager, k: string)
    requires LoopsGood(m)
    ensures var m' := Without(m, Those([]) + ConsumerLoopOf(m, k));
      m'.consumers - {k} == m.consumers - {k} && m'.providers == m.providers
  {
    assert forall id :: id in m.providers ==> ProviderLive(m, id);
    assert forall id :: id in m.consumers ==> ConsumerLive(m, id);
    hide LoopsGood;
  }

  /** What a stop is for. */
  lemma StoppedRowIsDown(parse: Parser, m: Manager, id: string, before: seq<nat>)
    requires WF(parse, m)
    ensures ProviderStopped(m, StopProvider(m, id, before), TrimSpace(id), before)
    ensures ConsumerStopped(m, StopConsumer(m, id, before), TrimSpace(id), before)
  {
    StopEndsTheRow(parse, m, id, before);
    StoppedProvider(m, TrimSpace(id), before);
    StoppedConsumer(m, TrimSpace(id), before);
    hide WF, Without, TrimSpace, ProviderLoopOf, ConsumerLoopOf, StopProvider, StopConsumer, Those, ProviderStopped,
         ConsumerStopped;
  }

  // ---- Starts ----

  lemma ValidProviderIff(p0: ProviderCfg, newId: NewId)
    ensures ValidProvider(WithId(NormalizeProvider(p0), newId)) <==>
            TrimSpace(p0.serverURL) != "" && 1 <= p0.localPort <= 65535
  {
    NormalizeServerURLIdempotent(TrimSpace(p0.serverURL));
    TrimSpaceTrims(p0.serverURL);
    hide TrimSpace, NormalizeServerURL;
  }

  lemma ValidConsumerIff(c0: ConsumerCfg)
    ensures ValidConsumer(NormalizeConsumer(c0)) <==>
            && TrimSpace(c0.serverURL) != "" && TrimSpace(c0.listen) != ""
            && (TrimSpace(c0.id) != "" || TrimSpace(c0.legacyChannelID) != "")
  {
    NormalizeServerURLIdempotent(TrimSpace(c0.serverURL));
    TrimSpaceTrims(c0.serverURL);
    TrimSpaceTrims(c0.id);
    TrimSpaceTrims(c0.legacyChannelID);
    hide TrimSpace, NormalizeServerURL;
  }

  /** The manager once its loops in `gone` have exited and the row of `inst` is put down. */
  function WithProvider(m: Manager, gone: set<nat>, inst: ProviderInst): Manager {
    var left := Without(m, gone);
    left.(providers := left.providers[inst.cfg.id := inst])
  }

  function WithConsumer(m: Manager, gone: set<nat>, inst: ConsumerInst): Manager {
    var left := Without(m, gone);
    left.(consumers := left.consumers[inst.cfg.id := inst])
  }

  /** And with one more loop, the next one, serving `row`. */
  function Serving(m: Manager, row: ServeLoop): Manager {
    m.(loops := m.loops[m.next := row], next := m.next + 1)
  }

  /**
   StartProvider answers `Invalid` exactly for a blank server or a port out of
   range, and changes nothing then; `Conflict` exactly if another row has the
   endpoint, and then the old instance is ended already. Otherwise the row is put
   down: idle if the flag says disabled; idle and failed, with `HandshakeFailed`, if
   neither the reclaim of its channel id nor a fresh offer is answered; running
   under the answered channel id, which is the result, with a fresh loop. No other
   row changes, but for the loops that happen to exit.
   */
  lemma StartProviderOutcome(parse: Parser, m: Manager, p0: ProviderCfg, e: ProviderEnv)
    requires WF(parse, m)
    ensures var (p, r) := (WithId(NormalizeProvider(p0), e.newId), StartProvider(parse, m, p0, e));
      var ended := Those(e.before) + ProviderLoopOf(m, p.id);
      var gone := ended + Those(e.between);
      var answer := if TrimSpace(p0.channelID) != "" && e.reclaim.Some? then e.reclaim else e.offer;
      if TrimSpace(p0.serverURL) == "" || p0.localPort < 1 || p0.localPort > 65535 then r == (m, Err(Invalid))
      else if !ProviderFits(parse, m, p) then r == (Without(m, ended), Err(Conflict))
      else if p0.enabled == Some(false) then
        r == (WithProvider(m, gone, ProviderInst(p, "", None, None, false)), Ok(""))
      else if answer.None? then
        r == (WithProvider(m, gone, ProviderInst(p, "", None, None, true)), Err(HandshakeFailed))
      else
        var ch := answer.value;
        var inst := ProviderInst(p.(channelID := TrimSpace(ch)), ch, Some(m.next), Some(m.next), false);
        r == (Serving(WithProvider(m, gone, inst), ProviderLoop(p.id)), Ok(ch))
  {
    var p := WithId(NormalizeProvider(p0), e.newId);
    ValidProviderIff(p0, e.newId);
    if ValidProvider(p) {
      StartedRowIsGood(p0, e.newId, "");
      StartNormalProviderOutcome(parse, m, p, e);
      TrimSpaceTrims(p0.channelID);
      assert p.enabled == p0.enabled && p.channelID == TrimSpace(p0.channelID);
    }
    hide WF, NormalizeProvider, WithId, ProviderFits, ValidProvider, StartNormalProvider, TrimSpace, Without;
  }

  lemma StartNormalProviderOutcome(parse: Parser, m: Manager, p: ProviderCfg, e: ProviderEnv)
    requires WF(parse, m) && GoodProvider(p)
    ensures var r := StartNormalProvider(parse, m, p, e);
      var ended := Those(e.before) + ProviderLoopOf(m, p.id);
      var gone := ended + Those(e.between);
      if !ProviderFits(parse, m, p) then r == (Without(m, ended), Err(Conflict))
      else if !p.Enabled() then r == (WithProvider(m, gone, ProviderInst(p, "", None, None, false)), Ok(""))
      else if Handshake(p, e).None? then
        r == (WithProvider(m, gone, ProviderInst(p, "", None, None, true)), Err(HandshakeFailed))
      else
        var ch := Handshake(p, e).value;
        var inst := ProviderInst(p.(channelID := TrimSpace(ch)), ch, Some(m.next), Some(m.next), false);
        r == (Serving(WithProvider(m, gone, inst), ProviderLoop(p.id)), Ok(ch))
  {
    var m1 := WaitProvider(ExitAll(m, e.before), p.id);
    var m2 := ExitAll(m1, e.between);
    hide WF, ProviderFits, ProviderConflict, WaitProvider, ExitAll, GoodProvider, Handshake, TrimSpace, Without;
    ReadyToRun(parse, m, p, e);
    WaitAfterExits(parse, m, e.before, p.id);
    WithoutNext(m, Those(e.before) + ProviderLoopOf(m, p.id) + Those(e.between));
    hide Those, ProviderLoopOf;
    if ProviderFits(parse, m, p) && !p.Enabled() {
      EndedIsPutDown(parse, m2, p);
    }
    hide PutProviderInactive;
  }

  lemma WithoutNext(m: Manager, gone: set<nat>)
    ensures Without(m, gone).next == m.next
  {
  }

  lemma EndedIsPutDown(parse: Parser, m: Manager, p: ProviderCfg)
    requires WF(parse, m) && GoodProvider(p) && ProviderFits(parse, m, p)
    requires p.id in m.providers ==> m.providers[p.id].ws.None?
    ensures PutProviderInactive(parse, WaitProvider(m, p.id), p) ==
            (m.(providers := m.providers[p.id := ProviderInst(p, "", None, None, false)]), Ok(""))
  {
    WaitEndedProvider(m, p.id);
    PutProviderInactiveKeeps(parse, m, p);
    hide WF, GoodProvider, ProviderFits, WaitProvider, PutProviderInactive;
  }

  /** Where StartProvider stands after its wait and after the exits that follow its conflict check. */
  lemma ReadyToRun(parse: Parser, m: Manager, p: ProviderCfg, e: ProviderEnv)
    requires WF(parse, m) && GoodProvider(p)
    ensures var m1 := WaitProvider(ExitAll(m, e.before), p.id);
      var m2 := ExitAll(m1, e.between);
      && (ProviderConflict(parse, m1, p) <==> !ProviderFits(parse, m, p))
      && m2 == Without(m, Those(e.before) + ProviderLoopOf(m, p.id) + Those(e.between))
      && WF(parse, m2) && (ProviderFits(parse, m2, p) <==> ProviderFits(parse, m, p))
      && (p.id in m2.providers ==> m2.providers[p.id].ws.None?)
  {
    var m0 := ExitAll(m, e.before);
    var m1 := WaitProvider(m0, p.id);
    var m2 := ExitAll(m1, e.between);
    GoodProviderPort(p);
    hide WF, ProviderFits, ProviderConflict, WaitProvider, ExitAll, GoodProvider, Without, Those, ProviderLoopOf;
    ExitAllKeeps(parse, m, e.before);
    WaitProviderKeeps(parse, m0, p.id);
    ExitAllKeeps(parse, m1, e.between);
    StaysEnded(m1, e.between, p.id);
    SameRowsChain(m, m0, m1);
    SameRowsChain(m, m1, m2);
    hide SameRows;
    ProviderConflictIffOccupied(parse, m1, p);
    FitsBothWays(parse, m, m1, p);
    FitsBothWays(parse, m, m2, p);
    WaitAfterExits(parse, m, e.before, p.id);
    ExitAllIsWithout(parse, m1, e.between);
    WithoutMore(m, Those(e.before) + ProviderLoopOf(m, p.id), Those(e.between));
  }

  /**
   StartConsumer answers `Invalid` exactly for a blank server, a blank listen address
   or no id at all, `Conflict` exactly if another row has the endpoint, and
   `ListenFailed` exactly if it gets as far as listening and that fails. A
   successful start leaves a disabled row idle and an enabled one listening, with a
   fresh loop.
   */
  lemma StartConsumerOutcome(parse: Parser, m: Manager, c0: ConsumerCfg, e: ConsumerEnv)
    requires WF(parse, m)
    ensures var (c, r) := (NormalizeConsumer(c0), StartConsumer(parse, m, c0, e));
      var ended := Those(e.before) + ConsumerLoopOf(m, c.id);
      var gone := ended + Those(e.between);
      if TrimSpace(c0.serverURL) == "" || TrimSpace(c0.listen) == ""
         || (TrimSpace(c0.id) == "" && TrimSpace(c0.legacyChannelID) == "") then r == (m, Err(Invalid))
      else if !ConsumerFits(parse, m, c) then r == (Without(m, ended), Err(Conflict))
      else if c0.enabled == Some(false) then
        r == (WithConsumer(m, gone, ConsumerInst(c, false, None, None, false)), Ok(""))
      else if !e.listenOk then
        r == (WithConsumer(m, gone, ConsumerInst(c, false, None, None, true)), Err(ListenFailed))
      else
        var inst := ConsumerInst(c, true, Some(m.next), Some(m.next), false);
        r == (Serving(WithConsumer(m, gone, inst), ConsumerLoop(c.id)), Ok(""))
  {
    var c := NormalizeConsumer(c0);
    ValidConsumerIff(c0);
    if ValidConsumer(c) {
      NormalizeConsumerIdempotent(c0);
      StartNormalConsumerOutcome(parse, m, c, e);
      assert c.enabled == c0.enabled;
    }
    hide WF, NormalizeConsumer, ConsumerFits, ValidConsumer, StartNormalConsumer, TrimSpace, Without;
  }

  lemma StartNormalConsumerOutcome(parse: Parser, m: Manager, c: ConsumerCfg, e: ConsumerEnv)
    requires WF(parse, m) && GoodConsumer(c)
    ensures var r := StartNormalConsumer(parse, m, c, e);
      var ended := Those(e.before) + ConsumerLoopOf(m, c.id);
      var gone := ended + Those(e.between);
      if !ConsumerFits(parse, m, c) then r == (Without(m, ended), Err(Conflict))
      else if !c.Enabled() then r == (WithConsumer(m, gone, ConsumerInst(c, false, None, None, false)), Ok(""))
      else if !e.listenOk then
        r == (WithConsumer(m, gone, ConsumerInst(c, false, None, None, true)), Err(ListenFailed))
      else
        var inst := ConsumerInst(c, true, Some(m.next), Some(m.next), false);
        r == (Serving(WithConsumer(m, gone, inst), ConsumerLoop(c.id)), Ok(""))
  {
    var m1 := WaitConsumer(ExitAll(m, e.before), c.id);
    var m2 := ExitAll(m1, e.between);
    hide WF, ConsumerFits, ConsumerConflict, WaitConsumer, ExitAll, GoodConsumer, Without;
    ReadyToListen(parse, m, c, e);
    WaitAfterExits(parse, m, e.before, c.id);
    WithoutNext(m, Those(e.before) + ConsumerLoopOf(m, c.id) + Those(e.between));
    hide Those, ConsumerLoopOf;
    if ConsumerFits(parse, m, c) && !c.Enabled() {
      EndedConsumerIsPutDown(parse, m2, c);
    }
    hide PutConsumerInactive;
  }

  lemma EndedConsumerIsPutDown(parse: Parser, m: Manager, c: ConsumerCfg)
    requires WF(parse, m) && GoodConsumer(c) && ConsumerFits(parse, m, c)
    requires c.id in m.consumers ==> m.consumers[c.id].listener.None?
    ensures PutConsumerInactive(parse, WaitConsumer(m, c.id), c) ==
            (m.(consumers := m.consumers[c.id := ConsumerInst(c, false, None, None, false)]), Ok(""))
  {
    WaitEndedConsumer(m, c.id);
    PutConsumerInactiveKeeps(parse, m, c);
    hide WF, GoodConsumer, ConsumerFits, WaitConsumer, PutConsumerInactive;
  }

  lemma ReadyToListen(parse: Parser, m: Manager, c: ConsumerCfg, e: ConsumerEnv)
    requires WF(parse, m) && GoodConsumer(c)
    ensures var m1 := WaitConsumer(ExitAll(m, e.before), c.id);
      var m2 := ExitAll(m1, e.between);
      && (ConsumerConflict(parse, m1, c) <==> !ConsumerFits(parse, m, c))
      && m2 == Without(m, Those(e.before) + ConsumerLoopOf(m, c.id) + Those(e.between))
      && WF(parse, m2) && (ConsumerFits(parse, m2, c) <==> ConsumerFits(parse, m, c))
      && (c.id in m2.consumers ==> m2.consumers[c.id].listener.None?)
  {
    var m0 := ExitAll(m, e.before);
    var m1 := WaitConsumer(m0, c.id);
    var m2 := ExitAll(m1, e.between);
    hide ConsumerFits, ConsumerConflict, WaitConsumer, ExitAll, GoodConsumer, Without, Those, ConsumerLoopOf;
    hide RowsGood, Separate, LoopsGood;
    ExitAllKeeps(parse, m, e.before);
    WaitConsumerKeeps(parse, m0, c.id);
    ExitAllKeeps(parse, m1, e.between);
    ConsumerStaysEnded(m1, e.between, c.id);
    SameRowsChain(m, m0, m1);
    SameRowsChain(m, m1, m2);
    hide SameRows;
    ConsumerConflictIffOccupied(parse, m1, c);
    FitsBothWaysConsumer(parse, m, m1, c);
    FitsBothWaysConsumer(parse, m, m2, c);
    WaitAfterExits(parse, m, e.before, c.id);
    ExitAllIsWithout(parse, m1, e.between);
    WithoutMore(m, Those(e.before) + ConsumerLoopOf(m, c.id), Those(e.between));
  }

  /** The old instance is ended before the conflict check, so a rejected restart is a stop. */
  lemma RejectedRestartStops(parse: Parser, m: Manager, p0: ProviderCfg, pe: ProviderEnv, c0: ConsumerCfg,
                             ce: ConsumerEnv)
    requires WF(parse, m)
    ensures var (p, r) := (WithId(NormalizeProvider(p0), pe.newId), StartProvider(parse, m, p0, pe));
      r.1 == Err(Conflict) ==>
        r.0 == StopProvider(m, p.id, pe.before) && SameRows(m, r.0) && ProviderStopped(m, r.0, p.id, pe.before)
    ensures var (c, r) := (NormalizeConsumer(c0), StartConsumer(parse, m, c0, ce));
      r.1 == Err(Conflict) ==>
        r.0 == StopConsumer(m, c.id, ce.before) && SameRows(m, r.0) && ConsumerStopped(m, r.0, c.id, ce.before)
  {
    var p, c := WithId(NormalizeProvider(p0), pe.newId), NormalizeConsumer(c0);
    StartedIdsAreTrimmed(p0, pe.newId, c0);
    hide WF, NormalizeProvider, NormalizeConsumer, WithId, ProviderFits, ConsumerFits, StartProvider, StartConsumer,
         TrimSpace, StopProvider, StopConsumer, Without, Those, ProviderLoopOf, ConsumerLoopOf, SameRows,
         ProviderStopped, ConsumerStopped;
    StartProviderOutcome(parse, m, p0, pe);
    StartConsumerOutcome(parse, m, c0, ce);
    StopEndsTheRow(parse, m, p.id, pe.before);
    StopEndsTheRow(parse, m, c.id, ce.before);
    StopKeeps(parse, m, p.id, pe.before);
    StopKeeps(parse, m, c.id, ce.before);
    StoppedRowIsDown(parse, m, p.id, pe.before);
    StoppedRowIsDown(parse, m, c.id, ce.before);
  }

  lemma StartedIdsAreTrimmed(p0: ProviderCfg, newId: NewId, c0: ConsumerCfg)
    ensures var p := WithId(NormalizeProvider(p0), newId); TrimSpace(p.id) == p.id
    ensures var c := NormalizeConsumer(c0); TrimSpace(c.id) == c.id
  {
    TrimSpaceTrims(p0.id);
    TrimmedIsFixed(newId);
    TrimSpaceTrims(c0.id);
    TrimSpaceTrims(c0.legacyChannelID);
    hide TrimSpace, NormalizeServerURL;
  }

  // ---- Rows of the file ----

  /** A row of the file: skipped if invalid, put down if disabled and free, and otherwise started. */
  lemma BootProviderOutcome(parse: Parser, m: Manager, p0: ProviderCfg, e: ProviderEnv)
    requires WF(parse, m)
    ensures var p := WithId(NormalizeProvider(p0), e.newId);
      BootProvider(parse, m, p0, e) ==
        if TrimSpace(p0.serverURL) == "" || p0.localPort < 1 || p0.localPort > 65535 then m
        else if p0.enabled != Some(false) then StartProvider(parse, m, p0, e).0
        else if ProviderFits(parse, m, p) && (p.id in m.providers ==> m.providers[p.id].ws.None?) then
          WithProvider(m, {}, ProviderInst(p, "", None, None, false))
        else m
  {
    var p := WithId(NormalizeProvider(p0), e.newId);
    ValidProviderIff(p0, e.newId);
    if ValidProvider(p) {
      StartedRowIsGood(p0, e.newId, "");
      GoodRowIsFixed(p, e.newId);
      assert p.enabled == p0.enabled;
      assert StartProvider(parse, m, p, e) == StartProvider(parse, m, p0, e);
      WithoutNone(m);
      if p.id in m.providers && m.providers[p.id].ws.Some? {
        assert PutProviderInactive(parse, m, p) == (m, Err(StillRunning));
      } else {
        PutProviderInactiveKeeps(parse, m, p);
      }
    }
    hide WF, NormalizeProvider, WithId, ProviderFits, ValidProvider, StartProvider, PutProviderInactive, TrimSpace,
         Without;
  }

  lemma BootConsumerOutcome(parse: Parser, m: Manager, c0: ConsumerCfg, e: ConsumerEnv)
    requires WF(parse, m)
    ensures var c := NormalizeConsumer(c0);
      BootConsumer(parse, m, c0, e) ==
        if TrimSpace(c0.serverURL) == "" || TrimSpace(c0.listen) == ""
           || (TrimSpace(c0.id) == "" && TrimSpace(c0.legacyChannelID) == "") then m
        else if c0.enabled != Some(false) then StartConsumer(parse, m, c0, e).0
        else if ConsumerFits(parse, m, c) && (c.id in m.consumers ==> m.consumers[c.id].listener.None?) then
          WithConsumer(m, {}, ConsumerInst(c, false, None, None, false))
        else m
  {
    var c := NormalizeConsumer(c0);
    ValidConsumerIff(c0);
    if ValidConsumer(c) {
      NormalizeConsumerIdempotent(c0);
      assert c.enabled == c0.enabled;
      assert StartConsumer(parse, m, c, e) == StartConsumer(parse, m, c0, e);
      WithoutNone(m);
      if c.id in m.consumers && m.consumers[c.id].listener.Some? {
        assert PutConsumerInactive(parse, m, c) == (m, Err(StillRunning));
      } else {
        PutConsumerInactiveKeeps(parse, m, c);
      }
    }
    hide WF, NormalizeConsumer, ConsumerFits, ValidConsumer, StartConsumer, PutConsumerInactive, TrimSpace, Without;
  }

  // ---- What runs after a restart ----

  /** No loop exits while the file is brought up. */
  predicate QuietProvider(e: ProviderEnv) {
    e.before == [] && e.between == []
  }

  predicate QuietConsumer(e: ConsumerEnv) {
    e.before == [] && e.between == []
  }

  /** An enabled row is answered: its channel id is reclaimed, or a fresh one offered. */
  predicate ShouldRun(p: ProviderCfg, e: ProviderEnv) {
    p.enabled != Some(false) && (e.offer.Some? || (p.channelID != "" && e.reclaim.Some?))
  }

  predicate ShouldListen(c: ConsumerCfg, e: ConsumerEnv) {
    c.enabled != Some(false) && e.listenOk
  }

  lemma RestoredRuns(parse: Parser, m: Manager, b: Manager, p: ProviderCfg, e: ProviderEnv)
    requires WF(parse, m) && WF(parse, b) && PartOf(b, m) && QuietProvider(e)
    requires p.id in m.providers && m.providers[p.id].cfg == p && p.id !in b.providers
    ensures var b' := BootProvider(parse, b, p, e);
      && p.id in b'.providers && (b'.providers[p.id].ws.Some? <==> ShouldRun(p, e))
      && b'.providers == b.providers[p.id := b'.providers[p.id]]
  {
    PartLeavesRoom(parse, m, b);
    assert GoodProvider(p);
    GoodRowIsFixed(p, e.newId);
    BootProviderOutcome(parse, b, p, e);
    StartProviderOutcome(parse, b, p, e);
    WithoutNone(b);
    NothingElseGone(b, p.id, e);
    hide WF, RowsGood, Separate, LoopsGood, BootProvider, StartProvider, ProviderFits, PartOf, Without, Those,
         NormalizeProvider, WithId, TrimSpace;
    TrimmedChannel(p);
    assert ValidProvider(p);
  }

  lemma TrimmedChannel(p: ProviderCfg)
    requires GoodProvider(p)
    ensures TrimSpace(p.channelID) == p.channelID && TrimSpace(p.serverURL) != "" && 1 <= p.localPort <= 65535
  {
  }

  lemma NothingElseGone(b: Manager, id: string, e: ProviderEnv)
    requires id !in b.providers && QuietProvider(e)
    ensures Those(e.before) + ProviderLoopOf(b, id) + Those(e.between) == {}
  {
  }

  lemma RestoredListens(parse: Parser, m: Manager, b: Manager, c: ConsumerCfg, e: ConsumerEnv)
    requires WF(parse, m) && WF(parse, b) && PartOf(b, m) && QuietConsumer(e)
    requires c.id in m.consumers && m.consumers[c.id].cfg == c && c.id !in b.consumers
    ensures var b' := BootConsumer(parse, b, c, e);
      && c.id in b'.consumers && (b'.consumers[c.id].listener.Some? <==> ShouldListen(c, e))
      && b'.consumers == b.consumers[c.id := b'.consumers[c.id]] && b'.providers == b.providers
  {
    PartLeavesRoom(parse, m, b);
    assert GoodConsumer(c);
    BootConsumerOutcome(parse, b, c, e);
    StartConsumerOutcome(parse, b, c, e);
    WithoutNone(b);
    NothingElseGoneHere(b, c.id, e);
    hide WF, RowsGood, Separate, LoopsGood, BootConsumer, StartConsumer, ConsumerFits, PartOf, Without, Those,
         NormalizeConsumer, TrimSpace;
    TrimmedListen(c);
  }

  lemma TrimmedListen(c: ConsumerCfg)
    requires GoodConsumer(c)
    ensures TrimSpace(c.listen) != "" && TrimSpace(c.serverURL) != "" && TrimSpace(c.id) != ""
  {
  }

  lemma NothingElseGoneHere(b: Manager, id: string, e: ConsumerEnv)
    requires id !in b.consumers && QuietConsumer(e)
    ensures Those(e.before) + ConsumerLoopOf(b, id) + Those(e.between) == {}
  {
  }

  ghost predicate RunAsTheyShould(b: Manager, ps: seq<ProviderCfg>, es: seq<ProviderEnv>)
    requires |ps| == |es|
  {
    forall i :: 0 <= i < |ps| ==>
      ps[i].id in b.providers && (b.providers[ps[i].id].ws.Some? <==> ShouldRun(ps[i], es[i]))
  }

  ghost predicate ListenAsTheyShould(b: Manager, cs: seq<ConsumerCfg>, es: seq<ConsumerEnv>)
    requires |cs| == |es|
  {
    forall i :: 0 <= i < |cs| ==>
      cs[i].id in b.consumers && (b.consumers[cs[i].id].listener.Some? <==> ShouldListen(cs[i], es[i]))
  }

  lemma {:induction false} RestoredProvidersRun(parse: Parser, m: Manager, ps: seq<ProviderCfg>, es: seq<ProviderEnv>)
    requires WF(parse, m) && ListsSomeProviders(m, ps) && |ps| == |es|
    requires forall i :: 0 <= i < |es| ==> QuietProvider(es[i])
    ensures RunAsTheyShould(BootProviders(parse, EMPTY, ps, es), ps, es)
  {
    hide WF, BootProvider, PartOf, ShouldRun;
    if ps != [] {
      var n := |ps| - 1;
      var b := BootProviders(parse, EMPTY, ps[..n], es[..n]);
      RestoredProvidersRun(parse, m, ps[..n], es[..n]);
      RestoreProviders(parse, m, ps[..n], es[..n]);
      NotYetBack(m, ps);
      RestoredRuns(parse, m, b, ps[n], es[n]);
      OneMoreRuns(b, BootProviders(parse, EMPTY, ps, es), ps, es);
    }
    hide RunAsTheyShould, QuietProvider;
  }

  lemma NotYetBack(m: Manager, ps: seq<ProviderCfg>)
    requires ps != [] && ListsSomeProviders(m, ps)
    ensures var n := |ps| - 1; ps[n].id !in ProviderIds(ps[..n])
  {
    var n := |ps| - 1;
    if ps[n].id in ProviderIds(ps[..n]) {
      IdInPrefix(ps[..n], ps[n].id);
      assert false;
    }
  }

  lemma OneMoreRuns(b: Manager, b': Manager, ps: seq<ProviderCfg>, es: seq<ProviderEnv>)
    requires |ps| == |es| > 0 && var n := |ps| - 1; RunAsTheyShould(b, ps[..n], es[..n])
    requires var (p, e) := (ps[|ps| - 1], es[|ps| - 1]);
      && p.id !in b.providers && p.id in b'.providers && (b'.providers[p.id].ws.Some? <==> ShouldRun(p, e))
      && b'.providers == b.providers[p.id := b'.providers[p.id]]
    ensures RunAsTheyShould(b', ps, es)
  {
    hide ShouldRun;
    var n := |ps| - 1;
    assert forall i :: 0 <= i < n ==> ps[..n][i] == ps[i] && es[..n][i] == es[i];
  }

  lemma {:induction false} RestoredConsumersListen(
    parse: Parser, m: Manager, b0: Manager, cs: seq<ConsumerCfg>, es: seq<ConsumerEnv>)
    requires WF(parse, m) && ListsSomeConsumers(m, cs) && |cs| == |es|
    requires WF(parse, b0) && PartOf(b0, m) && b0.consumers.Keys == {}
    requires forall i :: 0 <= i < |es| ==> QuietConsumer(es[i])
    ensures var b := BootConsumers(parse, b0, cs, es); ListenAsTheyShould(b, cs, es) && b.providers == b0.providers
  {
    hide WF, BootConsumer, PartOf, ShouldListen;
    if cs != [] {
      var n := |cs| - 1;
      var b := BootConsumers(parse, b0, cs[..n], es[..n]);
      RestoredConsumersListen(parse, m, b0, cs[..n], es[..n]);
      RestoreConsumers(parse, m, b0, cs[..n], es[..n]);
      ConsumerNotYetBack(m, cs);
      RestoredListens(parse, m, b, cs[n], es[n]);
      OneMoreListens(b, BootConsumers(parse, b0, cs, es), cs, es);
    }
    hide ListenAsTheyShould, QuietConsumer;
  }

  lemma ConsumerNotYetBack(m: Manager, cs: seq<ConsumerCfg>)
    requires cs != [] && ListsSomeConsumers(m, cs)
    ensures var n := |cs| - 1; cs[n].id !in ConsumerIds(cs[..n])
  {
    var n := |cs| - 1;
    if cs[n].id in ConsumerIds(cs[..n]) {
      ConsumerIdInPrefix(cs[..n], cs[n].id);
      assert false;
    }
  }

  lemma OneMoreListens(b: Manager, b': Manager, cs: seq<ConsumerCfg>, es: seq<ConsumerEnv>)
    requires |cs| == |es| > 0 && var n := |cs| - 1; ListenAsTheyShould(b, cs[..n], es[..n])
    requires var (c, e) := (cs[|cs| - 1], es[|cs| - 1]);
      && c.id !in b.consumers && c.id in b'.consumers && (b'.consumers[c.id].listener.Some? <==> ShouldListen(c, e))
      && b'.consumers == b.consumers[c.id := b'.consumers[c.id]]
    ensures ListenAsTheyShould(b', cs, es)
  {
    hide ShouldListen;
    var n := |cs| - 1;
    assert forall i :: 0 <= i < n ==> cs[..n][i] == cs[i] && es[..n][i] == es[i];
  }

  /**
   A restart runs what should run: after any run, bringing up what a save wrote,
   with no loop exiting meanwhile, gives a serve loop to exactly the enabled
   providers that are answered and the enabled consumers whose listen succeeds.
   */
  lemma RestartRunsWhatShould(parse: Parser, b: Boot, ops: seq<Op>, again: Boot)
    requires b.Fits() && again.Fits() && Persisted(Run(parse, b, ops), again.ps, again.cs)
    requires forall i :: 0 <= i < |again.pes| ==> QuietProvider(again.pes[i])
    requires forall i :: 0 <= i < |again.ces| ==> QuietConsumer(again.ces[i])
    ensures var m' := Booted(parse, again);
      RunAsTheyShould(m', again.ps, again.pes) && ListenAsTheyShould(m', again.cs, again.ces)
  {
    var m := Run(parse, b, ops);
    var b0 := BootProviders(parse, EMPTY, again.ps, again.pes);
    RunWF(parse, b, ops);
    hide WF, Run, BootProviders, BootConsumers, PartOf;
    RestoreProviders(parse, m, again.ps, again.pes);
    RestoredProvidersRun(parse, m, again.ps, again.pes);
    RestoredConsumersListen(parse, m, b0, again.cs, again.ces);
    SameProvidersRun(b0, Booted(parse, again), again.ps, again.pes);
    hide RunAsTheyShould, ListenAsTheyShould, ListsSomeProviders, ListsSomeConsumers, QuietProvider, QuietConsumer;
  }

  lemma SameProvidersRun(b: Manager, b': Manager, ps: seq<ProviderCfg>, es: seq<ProviderEnv>)
    requires |ps| == |es| && RunAsTheyShould(b, ps, es) && b'.providers == b.providers
    ensures RunAsTheyShould(b', ps, es)
  {
  }
}
