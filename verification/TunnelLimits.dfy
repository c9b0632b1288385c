/**
 What does not hold of every session: runs that show it, and for each the exact
 condition under which it does.
 */
module TunnelLimits {
  import opened Base
  import opened Frames
  import opened Sessions
  import opened Channels
  import opened ChannelProofs
  import opened BrokerRuns
  import opened TunnelGuarantees

  // ---- Steps of one channel, and the runs they are part of ----

  /** The channel after the given steps, if each is enabled in turn. */
  ghost function Exec(ls: seq<Label>): Option<Channel> {
    if ls == [] then Some(NEW_CHANNEL)
    else
      match Exec(ls[..|ls| - 1])
      case Some(c) =>
        if c.WellFormed() && Enabled(c, ls[|ls| - 1]) then Some(Apply(c, ls[|ls| - 1])) else None
      case None => None
  }

  lemma ExecPush(ls: seq<Label>, c: Channel, l: Label)
    requires Exec(ls) == Some(c) && c.WellFormed() && Enabled(c, l)
    ensures Exec(ls + [l]) == Some(Apply(c, l))
  {
    assert (ls + [l])[..|ls|] == ls;
  }

  lemma Extend(ls: seq<Label>, c: Channel, l: Label) returns (ls': seq<Label>, c': Channel)
    requires Exec(ls) == Some(c) && c.WellFormed() && Enabled(c, l)
    ensures c' == Apply(c, l) && Exec(ls') == Some(c')
  {
    ExecPush(ls, c, l);
    ls', c' := ls + [l], Apply(c, l);
  }

  function Last(ws: seq<World>): World
    requires |ws| > 0
  {
    ws[|ws| - 1]
  }

  lemma ExtendRun(ws: seq<World>, l: WorldLabel) returns (ws': seq<World>)
    requires IsRun(ws) && WorldEnabled(Last(ws), l)
    requires forall r :: r in Last(ws).objs ==> Last(ws).objs[r].WellFormed()
    ensures IsRun(ws') && ws' == ws + [WorldApply(Last(ws), l)]
  {
    ws' := ws + [WorldApply(Last(ws), l)];
    hide WorldApply, WorldEnabled;
    forall i | 0 <= i < |ws'| - 1
      ensures Next(ws'[i], ws'[i + 1])
    {
      if i < |ws| - 1 {
        assert Next(ws[i], ws[i + 1]);
      }
    }
  }

  lemma RunIsWellFormed(ws: seq<World>)
    requires IsRun(ws)
    ensures WorldInv(Last(ws)) && forall r :: r in Last(ws).objs ==> Last(ws).objs[r].WellFormed()
  {
    RunKeeps(ws, |ws| - 1);
    hide View.Inv;
  }

  /** The channel is object 0 of the broker, and the attach calls below `n` have looked it up. */
  ghost predicate Placed(w: World, c: Channel, n: nat) {
    0 in w.objs && w.objs[0] == c && forall i: nat :: i < n ==> i in w.calls && w.calls[i].ref == 0
  }

  /** A run that registers one channel, which `n` attach calls then look up. */
  lemma {:induction false} LookedUp(id: Uuid, n: nat) returns (ws: seq<World>)
    ensures IsRun(ws) && Placed(Last(ws), NEW_CHANNEL, n)
    ensures id in Last(ws).channels && Last(ws).channels[id] == 0 && forall i :: i in Last(ws).calls ==> i < n
  {
    if n == 0 {
      ws := ExtendRun([NO_CHANNELS], RegisterProvider(0, id));
    } else {
      ws := LookedUp(id, n - 1);
      RunIsWellFormed(ws);
      hide WorldInv, Channel.WellFormed, IsRun;
      ws := ExtendRun(ws, Lookup(n - 1, id));
    }
  }

  lemma UnmappedIsStep(w: World, c: Channel, l: Label, n: nat)
    requires WorldInv(w) && Placed(w, c, n) && c.WellFormed() && Enabled(c, l)
    requires forall r :: r in w.objs ==> w.objs[r].WellFormed()
    requires l == Loop(AbortUnmap) || l == Loop(Unmap)
    ensures WorldEnabled(w, UnmapId(0)) && Placed(WorldApply(w, UnmapId(0)), Apply(c, l), n)
  {
    assert w.objs[0] == c;
    hide Channel.Inv, Channel.WellFormed;
    UnmapFindsOwn(w, 0);
    hide Ownership, Unmapped, WorldInv;
  }

  /** The step of the broker that drains or closes what the channel's handler has fetched. */
  function DrainLabel(l: LoopStep): WorldLabel {
    if l.DropSessions? then DropSessionsOf(0) else if l.DropWaiters? then DropWaitersOf(0) else CloseAborted(0)
  }

  lemma DrainIsEnabled(w: World, l: LoopStep)
    requires 0 in w.objs && Owns(w, 0) && LoopEnabled(w.objs[0], l)
    requires l == DropSessions || l == DropWaiters || l == AbortClose
    ensures WorldEnabled(w, DrainLabel(l))
  {
  }

  lemma DrainedIsStep(w: World, c: Channel, l: LoopStep, n: nat)
    requires WorldInv(w) && Placed(w, c, n) && c.WellFormed() && LoopEnabled(c, l)
    requires forall r :: r in w.objs ==> w.objs[r].WellFormed()
    requires l == DropSessions || l == DropWaiters || l == AbortClose
    ensures WorldEnabled(w, DrainLabel(l)) && Placed(WorldApply(w, DrainLabel(l)), Apply(c, Loop(l)), n)
  {
    OwnsAt(w, 0);
    assert w.objs[0] == c;
    hide WorldInv, Channel.WellFormed, WorldEnabled, WorldApply, LoopApply, LoopEnabled, Owns, Placed;
    DrainIsEnabled(w, l);
    DrainsOwn(w, 0, DrainLabel(l));
    UpdatedIsPlaced(w, c, LoopApply(c, l), n);
  }

  lemma UpdatedIsPlaced(w: World, c: Channel, c': Channel, n: nat)
    requires Placed(w, c, n)
    ensures Placed(Update(w, 0, c'), c', n)
  {
  }

  lemma FewerPlaced(w: World, c: Channel, n: nat)
    requires Placed(w, c, n + 1)
    ensures Placed(w, c, n)
  {
  }

  lemma CallBegins(w: World, c: Channel, x: Uuid, n: nat)
    requires WorldInv(w) && Placed(w, c, n + 1) && c.WellFormed() && Enabled(c, Call(x, InsertWaiter))
    requires forall r :: r in w.objs ==> w.objs[r].WellFormed()
    ensures WorldEnabled(w, TakeSid(n, x)) && Placed(WorldApply(w, TakeSid(n, x)), Apply(c, Call(x, InsertWaiter)), n)
  {
    hide WorldInv, Channel.WellFormed, Apply;
  }

  lemma StepWithin(w: World, c: Channel, l: Label, n: nat)
    requires WorldInv(w) && Placed(w, c, n) && c.WellFormed() && Enabled(c, l) && IsInternal(l)
    requires forall r :: r in w.objs ==> w.objs[r].WellFormed()
    ensures WorldEnabled(w, Within(0, l)) && Placed(WorldApply(w, Within(0, l)), Apply(c, l), n)
  {
    hide WorldInv, Channel.WellFormed, Apply, Enabled, IsInternal;
  }

  /** One step of the channel is a step of the broker, given an attach call for each one that begins. */
  lemma StepOfRun(ws: seq<World>, c: Channel, l: Label, n: nat) returns (ws': seq<World>)
    requires IsRun(ws) && Placed(Last(ws), c, n + 1) && c.WellFormed() && Enabled(c, l)
    ensures IsRun(ws') && Placed(Last(ws'), Apply(c, l), n)
  {
    var w := Last(ws);
    RunIsWellFormed(ws);
    FewerPlaced(w, c, n);
    assert 0 in w.objs && w.objs[0] == c;
    hide WorldInv, Channel.WellFormed, IsRun, Apply, WorldApply, WorldEnabled, Placed;
    if l.Call? && l.call.InsertWaiter? {
      CallBegins(w, c, l.sid, n);
      ws' := ExtendRun(ws, TakeSid(n, l.sid));
    } else if l == Loop(AbortUnmap) || l == Loop(Unmap) {
      UnmappedIsStep(w, c, l, n);
      ws' := ExtendRun(ws, UnmapId(0));
    } else if l == Loop(DropSessions) || l == Loop(DropWaiters) || l == Loop(AbortClose) {
      DrainedIsStep(w, c, l.loop, n);
      ws' := ExtendRun(ws, DrainLabel(l.loop));
    } else {
      StepWithin(w, c, l, n);
      ws' := ExtendRun(ws, Within(0, l));
    }
  }

  /** Every sequence of a channel's own steps is the channel's part of a run. */
  lemma {:induction false} ExecIsRun(ls: seq<Label>, c: Channel, id: Uuid, n: nat) returns (ws: seq<World>)
    requires Exec(ls) == Some(c)
    ensures IsRun(ws) && Placed(Last(ws), c, n)
    decreases |ls|
  {
    if ls == [] {
      ws := LookedUp(id, n);
    } else {
      var before, l := Exec(ls[..|ls| - 1]).value, ls[|ls| - 1];
      hide IsRun, Placed, Apply;
      ws := ExecIsRun(ls[..|ls| - 1], before, id, n + 1);
      ws := StepOfRun(ws, before, l, n);
    }
  }

  lemma Dialled(x: Uuid) returns (ls: seq<Label>, c: Channel)
    ensures Exec(ls) == Some(c) && c.WellFormed()
    ensures c.p == ProviderSide({x}, []) && c.b == BrokerSide({}, {x}, true, [Reply, Attach(x)]) && c.upCur == 0
    ensures c.loop == Reading && c.prov == Acking(x, true) && c.downCur == 2
    ensures c.At(x) == NO_SESSION.(call := Waiting, dialed := true, pump := Pumping)
  {
    ls, c := [], NEW_CHANNEL;
    ls, c := Extend(ls, c, Loop(WriteReply(true)));
    ls, c := Extend(ls, c, Loop(Start));
    ls, c := Extend(ls, c, Call(x, InsertWaiter));
    ls, c := Extend(ls, c, Call(x, WriteAttach(true)));
    assert c.b == BrokerSide({}, {x}, true, [Reply, Attach(x)]);
    ls, c := Extend(ls, c, Prov(ProvRead(true)));
    assert c.prov == Serving;
    ls, c := Extend(ls, c, Prov(ProvRead(true)));
  }

  /** The provider has dialled, and its pump has written `chunk` before the ack. */
  lemma EarlyChunk(x: Uuid, chunk: Bytes) returns (ls: seq<Label>, c: Channel)
    ensures Exec(ls) == Some(c) && c.WellFormed()
    ensures c.p == ProviderSide({x}, [UpBinary(Frame(x, chunk)), Attached(x, true)])
    ensures c.b == BrokerSide({}, {x}, true, [Reply, Attach(x)]) && c.upCur == 0
    ensures c.loop == Reading && c.prov == Serving
    ensures c.At(x) == NO_SESSION.(call := Waiting, dialed := true, pump := Pumping, pumped := [chunk])
  {
    ls, c := Dialled(x);
    ls, c := Extend(ls, c, Pump(x, PumpRead(chunk)));
    ls, c := Extend(ls, c, Pump(x, PumpWrite(true)));
    ls, c := Extend(ls, c, Prov(ProvAck(true)));
  }

  /** The broker reads the chunk, drops it, and takes the ack. */
  lemma EarlyChunkRead(x: Uuid, chunk: Bytes) returns (ls: seq<Label>, c: Channel)
    ensures Exec(ls) == Some(c) && c.WellFormed()
    ensures c.p == ProviderSide({x}, [UpBinary(Frame(x, chunk)), Attached(x, true)])
    ensures c.b == BrokerSide({}, {}, true, [Reply, Attach(x)]) && c.upCur == 2
    ensures c.loop == Reading && c.prov == Serving
    ensures c.At(x) == NO_SESSION.(call := Waiting, inbox := [true], offers := 1,
                                   dialed := true, pump := Pumping, pumped := [chunk])
  {
    ls, c := EarlyChunk(x, chunk);
    ParseIffFrame(Frame(x, chunk), x, chunk);
    ls, c := Extend(ls, c, Loop(Read));
    assert c.loop == Reading;
    ls, c := Extend(ls, c, Loop(Read));
    assert c.loop == Answering(x, true);
    ls, c := Extend(ls, c, Loop(Answer));
  }

  lemma NothingSeen(log: seq<UpMsg>, x: Uuid)
    ensures UpPartOf(log, 0, x).seen == []
  {
    assert log[..0] == [];
  }

  lemma SeenOne(x: Uuid, chunk: Bytes)
    ensures UpPartOf([UpBinary(Frame(x, chunk)), Attached(x, true)], 2, x).seen == [chunk]
  {
    var log := [UpBinary(Frame(x, chunk)), Attached(x, true)];
    NothingSeen(log, x);
    hide UpPartOf;
    ParseIffFrame(Frame(x, chunk), x, chunk);
    PulledUp(log, 0, x);
    PulledUp(log, 1, x);
  }

  /** The session is registered after its first chunk has been read. */
  lemma RegisteredLate(x: Uuid, chunk: Bytes) returns (ls: seq<Label>, c: Channel)
    ensures Exec(ls) == Some(c) && c.WellFormed()
    ensures c.p.up == [UpBinary(Frame(x, chunk)), Attached(x, true)] && c.upCur == 2
    ensures c.b.sessions == {x} && c.loop == Reading
    ensures c.At(x).pump == Pumping && c.At(x).pumped == [chunk] && c.At(x).out == [] && c.At(x).skipped == 1
  {
    ls, c := EarlyChunkRead(x, chunk);
    SeenOne(x, chunk);
    hide UpPartOf;
    ls, c := Extend(ls, c, Call(x, TakeResult));
    ls, c := Extend(ls, c, Call(x, Register));
  }

  /** The consumer has got the second chunk, and not the first. */
  lemma SecondChunkOnly(x: Uuid) returns (ls: seq<Label>, c: Channel)
    ensures Exec(ls) == Some(c)
    ensures c.At(x).pumped == [[1], [2]] && c.At(x).out == [[2]] && c.At(x).skipped == 1
  {
    ls, c := RegisteredLate(x, [1]);
    ParseIffFrame(Frame(x, [2]), x, [2]);
    ls, c := Extend(ls, c, Pump(x, PumpRead([2])));
    ls, c := Extend(ls, c, Pump(x, PumpWrite(true)));
    assert c.p.up[2] == UpBinary(Frame(x, [2]));
    ls, c := Extend(ls, c, Loop(Read));
    ls, c := Extend(ls, c, Loop(Deliver(true)));
  }

  /**
   Delivery to the consumer need not be a prefix of what the pump wrote: a chunk
   written before the ack is read before the session is registered, and dropped.
   */
  lemma DeliveryCanStartLate(x: Uuid, id: Uuid) returns (ws: seq<World>)
    ensures IsRun(ws) && 0 in Last(ws).objs
    ensures var s := Last(ws).objs[0].At(x); s.pumped == [[1], [2]] && s.out == [[2]] && s.skipped == 1
  {
    var ls, c := SecondChunkOnly(x);
    hide IsRun, Exec;
    ws := ExecIsRun(ls, c, id, 0);
  }

  // ---- Registration after the drain ----

  /** The provider goes right after its ack: the attach call has its result, and the channel is unmapped. */
  lemma AckedThenGone(x: Uuid) returns (ls: seq<Label>, c: Channel)
    ensures Exec(ls) == Some(c) && c.WellFormed()
    ensures c.loop == DrainSessions && c.b == BrokerSide({}, {}, false, [Reply, Attach(x)])
    ensures c.At(x).call == Waiting && c.At(x).inbox == [true]
  {
    ls, c := EarlyChunkRead(x, [1]);
    ls, c := Extend(ls, c, Loop(ReadFails));
    ls, c := Extend(ls, c, Loop(CloseAgent));
    ls, c := Extend(ls, c, Loop(Unmap));
  }

  lemma DrainedWithResult(x: Uuid) returns (ls: seq<Label>, c: Channel)
    ensures Exec(ls) == Some(c) && c.WellFormed()
    ensures c.loop == Ended && c.b == BrokerSide({}, {}, false, [Reply, Attach(x)])
    ensures c.At(x).call == Waiting && c.At(x).inbox == [true]
  {
    ls, c := AckedThenGone(x);
    ls, c := Extend(ls, c, Loop(DropSessions));
    ls, c := Extend(ls, c, Loop(DropWaiters));
  }

  lemma DrainedThenRegistered(x: Uuid) returns (ls: seq<Label>, c: Channel)
    ensures Exec(ls) == Some(c)
    ensures c.loop == Ended && c.b.sessions == {x} && !c.b.open
  {
    ls, c := DrainedWithResult(x);
    hide UpPartOf;
    ls, c := Extend(ls, c, Call(x, TakeResult));
    ls, c := Extend(ls, c, Call(x, Register));
  }

  /** An attach acknowledged just before the provider goes registers on a channel that is drained already. */
  lemma RegistersAfterTheDrain(x: Uuid, id: Uuid) returns (ws: seq<World>)
    ensures IsRun(ws) && 0 in Last(ws).objs
    ensures var c := Last(ws).objs[0]; c.loop == Ended && c.b.sessions == {x} && !c.b.open
  {
    var ls, c := DrainedThenRegistered(x);
    hide IsRun, Exec;
    ws := ExecIsRun(ls, c, id, 0);
  }

  /** The handler has unmapped the channel, and is about to drain it or has done so. */
  predicate Draining(c: Channel) {
    c.loop.DrainSessions? || c.loop.DrainWaiters? || c.loop.Ended?
  }

  /** The attach call holds an ok result. */
  predicate HoldsOk(s: Session) {
    s.call.Acked? || (s.call.Waiting? && s.inbox == [true])
  }

  predicate ShutOut(c: Channel, x: Uuid) {
    Draining(c) && x !in c.b.sessions && !HoldsOk(c.At(x))
  }

  lemma StaysShutOut(c: Channel, l: Label, x: Uuid)
    requires c.Inv() && Enabled(c, l) && ShutOut(c, x)
    ensures ShutOut(Apply(c, l), x)
  {
    assert c.WellFormed() && c.ViewOf(x).Inv();
    assert !c.b.open && |c.At(x).inbox| <= 1;
    hide Channel.Inv, ShutOut, Apply, Enabled;
    if l.Call? {
      CallStaysShutOut(c, l.sid, l.call, x);
    } else if l.Loop? {
      LoopStaysShutOut(c, l.loop, x);
    } else if l.Prov? {
      ProvStaysShutOut(c, l.prov, x);
    } else {
      PumpStaysShutOut(c, l.pid, l.pump, x);
    }
  }

  lemma CallStaysShutOut(c: Channel, y: Uuid, step: CallStep, x: Uuid)
    requires c.WellFormed() && Enabled(c, Call(y, step)) && ShutOut(c, x) && !c.b.open && |c.At(x).inbox| <= 1
    ensures ShutOut(Apply(c, Call(y, step)), x)
  {
    hide UpPartOf;
  }

  lemma LoopStaysShutOut(c: Channel, step: LoopStep, x: Uuid)
    requires c.WellFormed() && Enabled(c, Loop(step)) && ShutOut(c, x)
    ensures ShutOut(Apply(c, Loop(step)), x)
  {
  }

  lemma ProvStaysShutOut(c: Channel, step: ProvStep, x: Uuid)
    requires c.WellFormed() && Enabled(c, Prov(step)) && ShutOut(c, x)
    ensures ShutOut(Apply(c, Prov(step)), x)
  {
    hide Parse;
  }

  lemma PumpStaysShutOut(c: Channel, y: Uuid, step: PumpStep, x: Uuid)
    requires c.WellFormed() && Enabled(c, Pump(y, step)) && ShutOut(c, x)
    ensures ShutOut(Apply(c, Pump(y, step)), x)
  {
  }

  /** In the continuation of the run the session is registered at the end. */
  ghost predicate RegistersIn(ws: seq<World>, more: seq<World>, r: Ref, x: Uuid) {
    more != [] && IsRun(ws + more) && r in Last(ws + more).objs && x in Last(ws + more).objs[r].b.sessions
  }

  lemma HoldingOkRegisters(ws: seq<World>, r: Ref, x: Uuid) returns (more: seq<World>)
    requires IsRun(ws) && r in Last(ws).objs && HoldsOk(Last(ws).objs[r].At(x))
    ensures RegistersIn(ws, more, r, x)
  {
    more := [];
    var now := ws;
    if Last(now).objs[r].At(x).call.Waiting? {
      now, more := WithinRun(ws, now, more, r, Call(x, TakeResult));
    }
    now, more := WithinRun(ws, now, more, r, Call(x, Register));
  }

  lemma WithinRun(ws: seq<World>, now: seq<World>, more: seq<World>, r: Ref, l: Label)
    returns (now': seq<World>, more': seq<World>)
    requires IsRun(now) && now == ws + more && r in Last(now).objs
    requires Last(now).objs[r].WellFormed() ==> Enabled(Last(now).objs[r], l)
    requires IsInternal(l)
    ensures IsRun(now')
    ensures now' == ws + more'
    ensures more' != []
    ensures Last(now).objs[r].WellFormed()
    ensures Enabled(Last(now).objs[r], l)
    ensures r in Last(now').objs && Last(now').objs[r] == Apply(Last(now).objs[r], l)
  {
    RunIsWellFormed(now);
    hide IsRun, Apply, WorldInv;
    now' := ExtendRun(now, Within(r, l));
    more' := more + [now'[|now'| - 1]];
  }

  /**
   Once the handler has unmapped a channel, a session that is not registered can
   still be registered exactly if its attach call holds an ok result by then.
   */
  lemma RegistersAfterDrainIff(ws: seq<World>, r: Ref, x: Uuid)
    requires IsRun(ws) && r in Last(ws).objs && Draining(Last(ws).objs[r]) && x !in Last(ws).objs[r].b.sessions
    ensures (exists more :: RegistersIn(ws, more, r, x)) <==> HoldsOk(Last(ws).objs[r].At(x))
  {
    if HoldsOk(Last(ws).objs[r].At(x)) {
      var more := HoldingOkRegisters(ws, r, x);
    } else {
      forall more | RegistersIn(ws, more, r, x)
        ensures false
      {
        ShutOutInRun(ws + more, |ws| - 1, |ws + more| - 1, r, x);
      }
    }
  }

  lemma ShutOutInRun(ws: seq<World>, j: nat, k: nat, r: Ref, x: Uuid)
    requires IsRun(ws) && j <= k < |ws| && r in ws[j].objs && ShutOut(ws[j].objs[r], x)
    ensures r in ws[k].objs && ShutOut(ws[k].objs[r], x)
  {
    hide View.Inv, ShutOut, Apply;
    forall c: Channel, l: Label | c.Inv() && Enabled(c, l) && ShutOut(c, x)
      ensures ShutOut(Apply(c, l), x)
    {
      StaysShutOut(c, l, x);
    }
    KeptInRun(ws, j, k, r, c => ShutOut(c, x));
  }

  // ---- Attach calls that fail ----

  lemma TimedOut(x: Uuid) returns (ls: seq<Label>, c: Channel)
    ensures Exec(ls) == Some(c)
    ensures c.At(x).call == Finished && c.p.tcp == {x} && c.b.down == [Reply, Attach(x)] && c.downCur == 2
    ensures x !in c.b.ackWait && x !in c.b.sessions
  {
    ls, c := Dialled(x);
    ls, c := Extend(ls, c, Call(x, Timeout));
    ls, c := Extend(ls, c, Call(x, CleanUp));
  }

  /** An attach that times out tells the provider nothing: the dialled connection stays mapped. */
  lemma TimeoutLeavesConnection(x: Uuid, id: Uuid) returns (ws: seq<World>)
    ensures IsRun(ws) && 0 in Last(ws).objs
    ensures var c := Last(ws).objs[0];
      && c.At(x).call == Finished && c.p.tcp == {x} && c.b.down == [Reply, Attach(x)] && c.downCur == 2
      && x !in c.b.ackWait && x !in c.b.sessions
  {
    var ls, c := TimedOut(x);
    hide IsRun, Exec;
    ws := ExecIsRun(ls, c, id, 0);
  }

  /** The attach call is over, and neither the relay nor the read loop has anything of the session in hand. */
  predicate Over(c: Channel, x: Uuid) {
    && (c.At(x).call.Failing? || c.At(x).call.Finished?)
    && x !in c.b.sessions
    && !((c.loop.Delivering? || c.loop.CloseDelete? || c.loop.CloseDetach?) && c.loop.sid == x)
  }

  lemma OtherFramesAreSilent(y: Uuid, payload: Bytes, x: Uuid)
    requires y != x
    ensures DownEventOf(DownBinary(Frame(y, payload)), x) == []
  {
    ParseIffFrame(Frame(y, payload), y, payload);
  }

  lemma StaysOver(c: Channel, l: Label, x: Uuid)
    requires c.Inv() && Enabled(c, l) && Over(c, x)
    ensures Over(Apply(c, l), x) && Down(Apply(c, l).b.down, x) == Down(c.b.down, x)
  {
    assert c.WellFormed();
    hide Channel.Inv, Down, UpPartOf, DownPartOf, Parse, Frame;
    match l
    case Call(y, step) => CallStaysOver(c, y, step, x);
    case Loop(step) => LoopStaysOver(c, step, x);
    case Prov(_) =>
    case Pump(_, _) =>
  }

  lemma CallStaysOver(c: Channel, y: Uuid, step: CallStep, x: Uuid)
    requires c.WellFormed() && Enabled(c, Call(y, step)) && Over(c, x)
    ensures var c' := Apply(c, Call(y, step)); Over(c', x) && Down(c'.b.down, x) == Down(c.b.down, x)
  {
    var s := c.At(y);
    hide Down, UpPartOf, DownPartOf, Parse, Frame;
    if step.RelayWrite? {
      DownPush(c.b.down, DownBinary(Frame(y, s.call.payload)), x);
      OtherFramesAreSilent(y, s.call.payload, x);
    } else if step.WriteAttach? {
      DownPush(c.b.down, Attach(y), x);
    } else if step.RelayDetach? {
      DownPush(c.b.down, Detach(y, ByRelay), x);
    }
  }

  lemma LoopStaysOver(c: Channel, step: LoopStep, x: Uuid)
    requires c.WellFormed() && Enabled(c, Loop(step)) && Over(c, x)
    ensures var c' := Apply(c, Loop(step)); Over(c', x) && Down(c'.b.down, x) == Down(c.b.down, x)
  {
    hide Down, UpPartOf, DownPartOf, Parse;
    if step.WriteReply? {
      DownPush(c.b.down, Reply, x);
    } else if step.WriteDetach? {
      DownPush(c.b.down, Detach(c.loop.sid, ByLoop), x);
    }
  }

  /** A failing attach is unregistered, nobody delivers for it, and at most its attach has been sent. */
  lemma FailingIsOver(c: Channel, x: Uuid)
    requires c.Inv() && c.At(x).call.Failing?
    ensures Over(c, x) && |Down(c.b.down, x)| <= 1
  {
    assert c.ViewOf(x).Inv();
    var down := Down(c.b.down, x);
    hide Channel.Inv, Down, View.WindowInv, View.AckInv, View.WaiterInv;
    if |down| > 1 {
      LongWire(down);
    }
  }

  /**
   As long as the provider has read at most the attach of a session, the session is
   mapped exactly from its dial to the end of its pump.
   */
  predicate PumpDecides(c: Channel, x: Uuid)
    requires c.WellFormed()
  {
    |Down(c.b.down[..c.downCur], x)| <= 1 ==>
      && (x in c.p.tcp <==> c.At(x).dialed && !c.At(x).pump.PumpDone?)
      && !((c.prov.Writing? || c.prov.Dropping?) && c.prov.sid == x)
  }

  lemma AttachIsFirst(done: seq<DownEvent>, e: seq<DownEvent>, all: seq<DownEvent>)
    requires done + e <= all && |e| == 1 && WireOf(all) != Broken
    ensures done == [] <==> e[0].EvAttach?
  {
    hide WireOf;
    WirePrefix(done + e, all);
    WireMeaning(done + e);
    assert (done + e)[|done|] == e[0];
  }

  lemma NotDialledYet(c: Channel, x: Uuid)
    requires c.WellFormed() && c.ViewOf(x).Inv() && Down(c.b.down[..c.downCur], x) == []
    ensures !c.At(x).dialed && x !in c.p.tcp
  {
    hide View.WindowInv, View.WaiterInv, View.DeliveryInv, View.WireInv, WireOf, Down, Payloads, Concat, UpPartOf;
  }

  lemma NotBroken(c: Channel, x: Uuid)
    requires c.WellFormed() && c.ViewOf(x).Inv()
    ensures WireOf(Down(c.b.down, x)) != Broken
  {
    hide View.WindowInv, View.WaiterInv, View.DeliveryInv, View.AckInv, WireOf, Down, Payloads, Concat, UpPartOf;
  }

  lemma OneEvent(m: DownMsg, x: Uuid)
    ensures |DownEventOf(m, x)| <= 1
  {
  }

  lemma ReadEvents(c: Channel, x: Uuid)
    requires c.WellFormed() && c.downCur < |c.b.down|
    ensures var e := DownEventOf(c.b.down[c.downCur], x);
      && Down(c.b.down[..c.downCur + 1], x) == Down(c.b.down[..c.downCur], x) + e
      && Down(c.b.down[..c.downCur + 1], x) <= Down(c.b.down, x)
  {
    var log, n := c.b.down, c.downCur;
    assert log[..n + 1] == log[..n] + [log[n]];
    hide Down;
    DownPush(log[..n], log[n], x);
    DownPrefix(log, n + 1, x);
  }

  /** The first message of a session that the provider reads is its attach. */
  ghost predicate AttachFirst(c: Channel, x: Uuid)
    requires c.WellFormed()
  {
    var done := Down(c.b.down[..c.downCur], x);
    && (c.downCur < |c.b.down| ==>
          var e := DownEventOf(c.b.down[c.downCur], x);
          && Down(c.b.down[..c.downCur + 1], x) == done + e
          && (e != [] ==> (done == [] <==> e[0].EvAttach?)))
    && (done == [] ==> !c.At(x).dialed && x !in c.p.tcp)
  }

  lemma AttachComesFirst(c: Channel, x: Uuid)
    requires c.Inv() && c.WellFormed()
    ensures AttachFirst(c, x)
  {
    assert c.ViewOf(x).Inv();
    hide Channel.Inv, View.Inv, Down, DownEventOf, WireOf, Channel.ViewOf;
    NotBroken(c, x);
    if Down(c.b.down[..c.downCur], x) == [] {
      NotDialledYet(c, x);
    }
    if c.downCur < |c.b.down| {
      var e := DownEventOf(c.b.down[c.downCur], x);
      ReadEvents(c, x);
      OneEvent(c.b.down[c.downCur], x);
      if e != [] {
        AttachIsFirst(Down(c.b.down[..c.downCur], x), e, Down(c.b.down, x));
      }
    }
  }

  lemma StillDecides(c: Channel, l: Label, x: Uuid)
    requires c.Inv() && Enabled(c, l) && PumpDecides(c, x)
    ensures Apply(c, l).WellFormed() && PumpDecides(Apply(c, l), x)
  {
    StepKeeps(c, l);
    assert c.WellFormed();
    AttachComesFirst(c, x);
    hide Channel.Inv;
    match l
    case Call(y, step) => CallDecides(c, y, step, x);
    case Loop(step) => LoopDecides(c, step, x);
    case Prov(step) => ProvDecides(c, step, x);
    case Pump(y, step) => PumpDecidesOn(c, y, step, x);
  }

  lemma CallDecides(c: Channel, y: Uuid, step: CallStep, x: Uuid)
    requires c.WellFormed() && Enabled(c, Call(y, step)) && PumpDecides(c, x)
    ensures var c' := Apply(c, Call(y, step)); c'.WellFormed() && PumpDecides(c', x)
  {
    CallLeavesProvider(c, y, step, x);
    var c' := Apply(c, Call(y, step));
    hide Down, Apply, Enabled;
    assert c'.b.down[..c.downCur] == c.b.down[..c.downCur];
  }

  lemma CallLeavesProvider(c: Channel, y: Uuid, step: CallStep, x: Uuid)
    requires c.WellFormed() && Enabled(c, Call(y, step))
    ensures var c' := Apply(c, Call(y, step));
      && c'.p == c.p && c'.downCur == c.downCur && c'.prov == c.prov && c.b.down <= c'.b.down && c'.WellFormed()
      && c'.At(x).dialed == c.At(x).dialed && c'.At(x).pump == c.At(x).pump
  {
    hide UpPartOf, Frame;
  }

  lemma LoopLeavesProvider(c: Channel, step: LoopStep, x: Uuid)
    requires c.WellFormed() && Enabled(c, Loop(step))
    ensures var c' := Apply(c, Loop(step));
      && c'.p == c.p && c'.downCur == c.downCur && c'.prov == c.prov && c.b.down <= c'.b.down && c'.WellFormed()
      && c'.At(x).dialed == c.At(x).dialed && c'.At(x).pump == c.At(x).pump
  {
    hide Parse;
  }

  lemma LoopDecides(c: Channel, step: LoopStep, x: Uuid)
    requires c.WellFormed() && Enabled(c, Loop(step)) && PumpDecides(c, x)
    ensures var c' := Apply(c, Loop(step)); c'.WellFormed() && PumpDecides(c', x)
  {
    LoopLeavesProvider(c, step, x);
    var c' := Apply(c, Loop(step));
    hide Down, Apply, Enabled;
    assert c'.b.down[..c.downCur] == c.b.down[..c.downCur];
  }

  lemma PumpDecidesOn(c: Channel, y: Uuid, step: PumpStep, x: Uuid)
    requires c.Inv() && Enabled(c, Pump(y, step)) && PumpDecides(c, x)
    ensures var c' := Apply(c, Pump(y, step)); c'.WellFormed() && PumpDecides(c', x)
  {
    hide Down, Frame, View.Inv;
  }

  lemma ProvDecides(c: Channel, step: ProvStep, x: Uuid)
    requires c.WellFormed() && Enabled(c, Prov(step)) && PumpDecides(c, x)
    requires AttachFirst(c, x)
    ensures var c' := Apply(c, Prov(step)); c'.WellFormed() && PumpDecides(c', x)
  {
    if step.ProvRead? {
      ReadDecides(c, step.dialOk, x);
    }
    hide Down, Parse, ReadDown, AttachFirst, DownEventOf;
  }

  lemma ReadDecides(c: Channel, dialOk: bool, x: Uuid)
    requires c.WellFormed() && ProvEnabled(c, ProvRead(dialOk)) && PumpDecides(c, x) && AttachFirst(c, x)
    ensures var c' := ReadDown(c, dialOk); c'.WellFormed() && PumpDecides(c', x)
  {
    hide Down, DownEventOf, ReadDown;
    if DownEventOf(c.b.down[c.downCur], x) == [] {
      ReadDownOtherFields(c, dialOk, x);
    } else if c.prov.Serving? {
      ReadDownOwnFields(c, dialOk, x);
    } else {
      HandshakeReads(c, dialOk);
    }
  }

  lemma HandshakeReads(c: Channel, dialOk: bool)
    requires ProvEnabled(c, ProvRead(dialOk)) && c.prov.Handshaking?
    ensures var c' := ReadDown(c, dialOk);
      c' == c.(downCur := c.downCur + 1, prov := if c.b.down[c.downCur].Reply? then Serving else Stopped)
  {
  }

  lemma OverInRun(ws: seq<World>, j: nat, k: nat, r: Ref, x: Uuid, es: seq<DownEvent>)
    requires IsRun(ws)
    requires j <= k < |ws|
    requires r in ws[j].objs
    requires Over(ws[j].objs[r], x)
    requires Down(ws[j].objs[r].b.down, x) == es
    ensures r in ws[k].objs && Over(ws[k].objs[r], x) && Down(ws[k].objs[r].b.down, x) == es
  {
    hide View.Inv, Over, Apply, Down;
    forall c: Channel, l: Label | c.Inv() && Enabled(c, l) && Over(c, x) && Down(c.b.down, x) == es
      ensures Over(Apply(c, l), x) && Down(Apply(c, l).b.down, x) == es
    {
      StaysOver(c, l, x);
    }
    KeptInRun(ws, j, k, r, c => Over(c, x) && Down(c.b.down, x) == es);
  }

  /** A new object of the broker is a new channel. */
  lemma NewObjects(w: World, l: WorldLabel, r: Ref)
    requires WorldInv(w) && WorldEnabled(w, l) && r !in w.objs
    requires forall r :: r in w.objs ==> w.objs[r].WellFormed()
    ensures r in WorldApply(w, l).objs ==> WorldApply(w, l).objs[r] == NEW_CHANNEL
  {
    hide Channel.Inv, Channel.WellFormed, Apply, Enabled;
    match l
    case DropSessionsOf(t) => OwnsAt(w, t);
    case DropWaitersOf(t) => OwnsAt(w, t);
    case CloseAborted(t) => OwnsAt(w, t);
    case _ =>
  }

  /** What holds of a new channel, and no step of a channel ends, holds in all states of all runs. */
  lemma {:induction false} AlwaysInRun(ws: seq<World>, k: nat, r: Ref, P: Channel -> bool)
    requires IsRun(ws) && k < |ws| && r in ws[k].objs && P(NEW_CHANNEL) && Preserved(P)
    ensures P(ws[k].objs[r])
  {
    hide Channel.Inv, Apply, WorldApply, Preserved;
    if k > 0 {
      RunKeeps(ws, k - 1);
      assert Next(ws[k - 1], ws[k]);
      if r in ws[k - 1].objs {
        AlwaysInRun(ws, k - 1, r, P);
        KeptInRun(ws, k - 1, k, r, P);
      } else {
        var l :| WorldEnabled(ws[k - 1], l) && ws[k] == WorldApply(ws[k - 1], l);
        NewObjects(ws[k - 1], l, r);
      }
    }
  }

  lemma DecidesInRun(ws: seq<World>, k: nat, r: Ref, x: Uuid)
    requires IsRun(ws) && k < |ws| && r in ws[k].objs
    ensures ws[k].objs[r].WellFormed() && PumpDecides(ws[k].objs[r], x)
  {
    assert PumpDecides(NEW_CHANNEL, x);
    hide View.Inv, PumpDecides, Apply;
    forall c: Channel, l: Label | c.Inv() && Enabled(c, l) && c.WellFormed() && PumpDecides(c, x)
      ensures Apply(c, l).WellFormed() && PumpDecides(Apply(c, l), x)
    {
      StillDecides(c, l, x);
    }
    AlwaysInRun(ws, k, r, (c: Channel) => c.WellFormed() && PumpDecides(c, x));
  }

  /**
   A failed attach is never taken back: whatever follows, no more of its session is
   sent than its attach, it is never registered, and its connection at the provider
   is mapped exactly from the dial to the end of the connection's own pump.
   */
  lemma FailedAttachEndsWithItsPump(ws: seq<World>, j: nat, k: nat, r: Ref, x: Uuid)
    requires IsRun(ws) && j <= k < |ws| && r in ws[j].objs && ws[j].objs[r].At(x).call.Failing?
    ensures r in ws[k].objs && ws[k].objs[r].WellFormed()
    ensures var (c, c') := (ws[j].objs[r], ws[k].objs[r]);
      && Down(c'.b.down, x) == Down(c.b.down, x) && |Down(c'.b.down, x)| <= 1
      && x !in c'.b.sessions
      && (x in c'.p.tcp <==> c'.At(x).dialed && !c'.At(x).pump.PumpDone?)
  {
    var c := ws[j].objs[r];
    RunKeeps(ws, j);
    FailingIsOver(c, x);
    OverInRun(ws, j, k, r, x, Down(c.b.down, x));
    SessionAt(ws, k, r, x);
    DecidesInRun(ws, k, r, x);
    var c' := ws[k].objs[r];
    DownPrefix(c'.b.down, c'.downCur, x);
    hide View.Inv, Down;
  }
}
