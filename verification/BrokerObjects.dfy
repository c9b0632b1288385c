/**
 The broker as objects with maps, buffers and loops. Each method is one atomic
 section of the code, and takes the channel's state of the transition system
 exactly along the step that models it.
 */
module BrokerObjects {
  import opened Base
  import opened Text
  import opened Frames
  import opened Sessions
  import opened Channels
  import opened ChannelProofs

  /** The provider's WebSocket. A write fails once it is closed, and may fail before. */
  class Agent {
    var open: bool
    var down: seq<DownMsg>

    constructor ()
      ensures open && down == []
    {
      open, down := true, [];
    }

    method WriteMessage(m: DownMsg, fails: bool) returns (ok: bool)
      modifies this`down
      ensures ok == (open && !fails)
      ensures down == if ok then old(down) + [m] else old(down)
    {
      ok := open && !fails;
      if ok {
        down := down + [m];
      }
    }

    method Close()
      modifies this`open
      ensures !open
    {
      open := false;
    }
  }

  class Consumer {
    var open: bool
    var out: seq<Bytes>

    method WriteMessage(body: Bytes, fails: bool) returns (ok: bool)
      modifies this`out
      ensures ok == !fails
      ensures out == if ok then old(out) + [body] else old(out)
    {
      ok := !fails;
      if ok {
        out := out + [body];
      }
    }

    method Close()
      modifies this`open
      ensures !open
    {
      open := false;
    }
  }

  /** A channel of capacity one for the result of an attach. */
  class Waiter {
    var buf: seq<bool>

    constructor ()
      ensures buf == []
    {
      buf := [];
    }

    /** select with a default branch: a full buffer drops the result. */
    method TrySend(ok: bool)
      modifies this
      ensures buf == if old(buf) == [] then [ok] else old(buf)
    {
      if buf == [] {
        buf := [ok];
      }
    }
  }

  predicate Relayed(pc: CallPc) {
    pc.Relaying? || pc.Holding? || pc.ExitDelete? || pc.ExitDetach? || pc.Finished?
  }

  /** The waiter of the session shows what it did. */
  ghost predicate SameInbox(c: Channel, c': Channel, x: Uuid) {
    c'.At(x).inbox == c.At(x).inbox && (!c.At(x).call.Idle? ==> !c'.At(x).call.Idle?)
  }

  /** And so does its consumer. */
  ghost predicate SameOut(c: Channel, c': Channel, x: Uuid) {
    c'.At(x).out == c.At(x).out && (Relayed(c.At(x).call) ==> Relayed(c'.At(x).call))
  }

  lemma RelayComesToDetach(c: Channel, sid: Uuid)
    requires c.WellFormed() && c.At(sid).call.ExitDelete?
    ensures Apply(c, Call(sid, RelayDelete)).At(sid).call.ExitDetach?
  {
    hide UpPartOf;
  }

  /**
   A step of an attach call or relay changes the broker's side, and no session's
   waiter or consumer but a taken result.
   */
  lemma CallEffect(c: Channel, x: Uuid, l: CallStep)
    requires c.Inv() && Enabled(c, Call(x, l))
    ensures var c' := Apply(c, Call(x, l));
      && c'.WellFormed() && c'.Inv()
      && c'.b == CallBroker(c.b, x, c.At(x), l)
      && !c'.At(x).call.Idle?
      && (l.Register? ==> Relayed(c'.At(x).call))
      && (l.TakeResult? ==> c'.At(x).inbox == c.At(x).inbox[1..])
      && (forall y: Uuid :: y != x || !l.TakeResult? ==> SameInbox(c, c', y))
      && (forall y: Uuid :: SameOut(c, c', y))
  {
    StepKeeps(c, Call(x, l));
    hide Channel.Inv;
    var c' := Apply(c, Call(x, l));
    assert c'.At(x) == CallSession(c.At(x), |UpPartOf(c.p.up, c.upCur, x).seen|, l);
    assert forall y: Uuid :: y != x ==> c'.At(y) == c.At(y);
  }

  /** So does a step of the handler and its read loop, but for the one waiter or consumer it serves. */
  lemma LoopEffect(c: Channel, l: LoopStep)
    requires c.Inv() && Enabled(c, Loop(l)) && !l.DropWaiters?
    ensures var c' := Apply(c, Loop(l));
      && c'.WellFormed() && c'.Inv()
      && (forall y: Uuid :: (l.Answer? && y == c.loop.sid) || SameInbox(c, c', y))
      && (forall y: Uuid :: (l.Deliver? && y == c.loop.sid) || SameOut(c, c', y))
  {
    StepKeeps(c, Loop(l));
    hide Channel.Inv;
    var c' := Apply(c, Loop(l));
    assert forall y: Uuid :: (OnSession(l) && y == c.loop.sid) || c'.At(y) == c.At(y);
  }

  lemma ElsewhereEffect(c: Channel, l: Label)
    requires c.Inv() && Enabled(c, l)
    requires l.Prov? || l.Pump? || (l.Call? && (l.call.RelayRead? || l.call.RelayEnd?))
             || (l.Loop? && (l.loop.Start? || l.loop.ReadFails?))
    ensures Apply(c, l).WellFormed() && Apply(c, l).Inv() && Apply(c, l).b == c.b
    ensures forall y: Uuid :: SameInbox(c, Apply(c, l), y)
    ensures forall y: Uuid :: SameOut(c, Apply(c, l), y)
  {
    StepKeeps(c, l);
    hide Channel.Inv;
    if l.Call? {
      CallEffect(c, l.sid, l.call);
    } else if l.Loop? {
      LoopEffect(c, l.loop);
    } else if l.Pump? {
      PumpsElsewhere(c, l.pid, l.pump);
    } else {
      ProviderElsewhere(c, l.prov);
    }
    hide Apply;
  }

  lemma PumpsElsewhere(c: Channel, x: Uuid, l: PumpStep)
    requires c.WellFormed() && Enabled(c, Pump(x, l))
    ensures var c' := Apply(c, Pump(x, l));
      c'.b == c.b && forall y: Uuid :: SameInbox(c, c', y) && SameOut(c, c', y)
  {
  }

  lemma ProviderElsewhere(c: Channel, l: ProvStep)
    requires c.Inv() && Enabled(c, Prov(l))
    ensures var c' := Apply(c, Prov(l));
      c'.b == c.b && forall y: Uuid :: SameInbox(c, c', y) && SameOut(c, c', y)
  {
    hide Channel.Inv, Parse;
  }

  /** The buffer of a waiter that is about to be answered is empty: no result is ever dropped. */
  lemma AnswerFits(c: Channel, x: Uuid)
    requires c.Inv() && (c.loop == Answering(x, true) || c.loop == Answering(x, false) || x in c.b.ackWait)
    ensures c.At(x).inbox == [] && !c.At(x).call.Idle?
  {
    assert c.ViewOf(x).Inv();
  }

  lemma FreshSession(c: Channel, x: Uuid)
    requires c.Inv() && c.At(x).call.Idle?
    ensures c.At(x) == NO_SESSION
  {
    assert c.ViewOf(x).Inv();
  }

  lemma NothingOutYet(c: Channel, x: Uuid)
    requires c.Inv() && c.At(x).call.Acked?
    ensures c.At(x).out == []
  {
    assert c.ViewOf(x).Inv();
  }

  class ChannelObject {
    const id: Uuid
    const agent: Agent
    var sessions: map<Uuid, Consumer>
    var ackWait: map<Uuid, Waiter>
    /** The same channel in the transition system, and every waiter and consumer it has had. */
    ghost var state: Channel
    ghost var waiters: map<Uuid, Waiter>
    ghost var consumers: map<Uuid, Consumer>

    ghost predicate Valid()
      reads this, agent, waiters.Values, consumers.Values
    {
      && state.WellFormed() && state.Inv()
      && state.b == BrokerSide(sessions.Keys, ackWait.Keys, agent.open, agent.down)
      && WaitersValid() && ConsumersValid()
    }

    ghost predicate WaitersValid()
      reads this, waiters.Values
    {
      && (forall x :: x in ackWait ==> x in waiters && waiters[x] == ackWait[x])
      && (forall x, y :: x in waiters && y in waiters && waiters[x] == waiters[y] ==> x == y)
      && (forall x :: x in waiters ==> waiters[x].buf == state.At(x).inbox && !state.At(x).call.Idle?)
    }

    ghost predicate ConsumersValid()
      reads this, consumers.Values
    {
      && (forall x :: x in sessions ==> x in consumers && consumers[x] == sessions[x])
      && (forall x, y :: x in consumers && y in consumers && consumers[x] == consumers[y] ==> x == y)
      && (forall x :: x in consumers ==> consumers[x].out == state.At(x).out && Relayed(state.At(x).call))
    }

    twostate lemma WaitersStay()
      requires old(WaitersValid())
      requires waiters == old(waiters)
      requires forall x :: x in ackWait ==> x in old(ackWait) && ackWait[x] == old(ackWait)[x]
      requires forall x :: x in waiters ==> waiters[x].buf == old(waiters[x].buf) && SameInbox(old(state), state, x)
      ensures WaitersValid()
    {
    }

    twostate lemma ConsumersStay()
      requires old(ConsumersValid())
      requires consumers == old(consumers)
      requires forall x :: x in sessions ==> x in old(sessions) && sessions[x] == old(sessions)[x]
      requires forall x :: x in consumers ==> consumers[x].out == old(consumers[x].out) && SameOut(old(state), state, x)
      ensures ConsumersValid()
    {
    }

    constructor (id: Uuid, agent: Agent)
      requires agent.open && agent.down == []
      ensures Valid() && this.id == id && this.agent == agent && state == NEW_CHANNEL
      ensures waiters == map[] && consumers == map[]
    {
      this.id, this.agent := id, agent;
      sessions, ackWait := map[], map[];
      state, waiters, consumers := NEW_CHANNEL, map[], map[];
      NewChannelInv();
      hide Channel.Inv;
    }

    twostate lemma WaiterAdded(sid: Uuid, new w: Waiter)
      requires old(WaitersValid())
      requires w !in old(waiters).Values
      requires w.buf == state.At(sid).inbox
      requires !state.At(sid).call.Idle?
      requires waiters == old(waiters)[sid := w] && ackWait == old(ackWait)[sid := w]
      requires forall x :: x in old(waiters) ==>
                 old(waiters)[x].buf == old(waiters[x].buf) && SameInbox(old(state), state, x)
      ensures WaitersValid()
    {
    }

    twostate lemma WaiterTaken(sid: Uuid)
      requires old(WaitersValid())
      requires sid in waiters
      requires waiters[sid].buf == state.At(sid).inbox
      requires !state.At(sid).call.Idle?
      requires waiters == old(waiters) && ackWait == old(ackWait)
      requires forall x :: x in waiters && x != sid ==>
                 waiters[x].buf == old(waiters[x].buf) && SameInbox(old(state), state, x)
      ensures WaitersValid()
    {
    }

    twostate lemma ConsumerAdded(sid: Uuid, new cons: Consumer)
      requires old(ConsumersValid()) && cons !in old(consumers).Values
      requires cons.out == state.At(sid).out && Relayed(state.At(sid).call)
      requires consumers == old(consumers)[sid := cons] && sessions == old(sessions)[sid := cons]
      requires forall x :: x in old(consumers) ==>
                 old(consumers)[x].out == old(consumers[x].out) && SameOut(old(state), state, x)
      ensures ConsumersValid()
    {
    }

    lemma WaitersAreApart()
      requires WaitersValid()
      ensures forall x, y :: x in ackWait && y in ackWait && ackWait[x] == ackWait[y] ==> x == y
      ensures forall x, y :: x in waiters && y in waiters && waiters[x] == waiters[y] ==> x == y
      ensures forall x :: x in ackWait ==> x in waiters && ackWait[x] == waiters[x]
      ensures forall x :: x in waiters ==> waiters[x].buf == state.At(x).inbox
    {
    }

    lemma ConsumersAreApart()
      requires ConsumersValid()
      ensures forall x, y :: x in consumers && y in consumers && consumers[x] == consumers[y] ==> x == y
      ensures forall x :: x in sessions ==> x in consumers && sessions[x] == consumers[x]
      ensures forall x :: x in consumers ==> consumers[x].out == state.At(x).out && Relayed(state.At(x).call)
    {
    }

    // ---- Moves of others, and moves that touch no object ----

    ghost method Elsewhere(l: Label)
      requires Valid() && Enabled(state, l)
      requires l.Prov? || l.Pump? || (l.Call? && (l.call.RelayRead? || l.call.RelayEnd?))
               || (l.Loop? && (l.loop.Start? || l.loop.ReadFails?))
      modifies this`state
      ensures Valid() && state == Apply(old(state), l)
    {
      ElsewhereEffect(state, l);
      hide Channel.Inv, WaitersValid, ConsumersValid, SameInbox, SameOut, Apply, Enabled;
      state := Apply(state, l);
      WaitersStay();
      ConsumersStay();
    }

    /** RTunnelProvider writes the reply to a provider it has registered. */
    method WriteReply(fails: bool) returns (ok: bool)
      requires Valid() && state.loop.Registered?
      modifies this`state, agent
      ensures Valid() && ok == (agent.open && !fails)
      ensures var l := Loop(LoopStep.WriteReply(ok)); Enabled(old(state), l) && state == Apply(old(state), l)
    {
      hide Channel.Inv, WaitersValid, ConsumersValid, SameInbox, SameOut;
      LoopEffect(state, LoopStep.WriteReply(agent.open && !fails));
      ok := agent.WriteMessage(Reply, fails);
      state := Apply(state, Loop(LoopStep.WriteReply(ok)));
      WaitersStay();
      ConsumersStay();
    }

    // ---- AttachConsumer ----

    method InsertWaiter(sid: Uuid) returns (w: Waiter)
      requires Valid() && state.At(sid).call.Idle?
      modifies this
      ensures Valid() && state == Apply(old(state), Call(sid, CallStep.InsertWaiter))
      ensures fresh(w) && waiters == old(waiters)[sid := w] && consumers == old(consumers)
      ensures ackWait == old(ackWait)[sid := w] && w.buf == [] && sessions == old(sessions)
    {
      hide Channel.Inv, Apply, WaitersValid, ConsumersValid;
      FreshSession(state, sid);
      CallEffect(state, sid, CallStep.InsertWaiter);
      w := new Waiter();
      ackWait := ackWait[sid := w];
      waiters := waiters[sid := w];
      state := Apply(state, Call(sid, CallStep.InsertWaiter));
      assert SameInbox(old(state), state, sid);
      hide SameInbox, SameOut;
      WaiterAdded(sid, w);
      ConsumersStay();
    }

    method WriteAttach(sid: Uuid, fails: bool) returns (ok: bool)
      requires Valid() && state.At(sid).call.Inserted?
      modifies this`state, agent
      ensures Valid() && ok == (agent.open && !fails)
      ensures Enabled(old(state), Call(sid, CallStep.WriteAttach(ok)))
      ensures state == Apply(old(state), Call(sid, CallStep.WriteAttach(ok)))
      ensures agent.down == if ok then old(agent.down) + [Attach(sid)] else old(agent.down)
    {
      hide Channel.Inv, Apply, WaitersValid, ConsumersValid, SameInbox, SameOut;
      ok := agent.WriteMessage(Attach(sid), fails);
      CallEffect(state, sid, CallStep.WriteAttach(ok));
      state := Apply(state, Call(sid, CallStep.WriteAttach(ok)));
      WaitersStay();
      ConsumersStay();
    }

    /** The select of AttachConsumer, when a result is in the buffer or the timer has fired. */
    method Wait(sid: Uuid, w: Waiter, timeout: bool) returns (ok: bool)
      requires Valid() && state.At(sid).call.Waiting? && sid in waiters && waiters[sid] == w
      requires timeout || w.buf != []
      modifies this`state, w
      ensures Valid() && waiters == old(waiters)
      ensures ok == (!timeout && old(w.buf)[0])
      ensures var l := Call(sid, if timeout then Timeout else TakeResult);
        Enabled(old(state), l) && state == Apply(old(state), l)
    {
      hide Channel.Inv, Apply, WaitersValid, ConsumersValid, SameInbox, SameOut;
      WaitersAreApart();
      CallEffect(state, sid, if timeout then Timeout else TakeResult);
      if timeout {
        state := Apply(state, Call(sid, Timeout));
        ok := false;
        WaitersStay();
        ConsumersStay();
      } else {
        ok := w.buf[0];
        state := Apply(state, Call(sid, TakeResult));
        w.buf := w.buf[1..];
        WaiterTaken(sid);
        ConsumersStay();
      }
    }

    /** The end of an attach call that has failed. */
    method CleanUp(sid: Uuid, cons: Consumer)
      requires Valid() && state.At(sid).call.Failing?
      modifies this`ackWait, this`state, cons`open
      ensures Valid() && state == Apply(old(state), Call(sid, CallStep.CleanUp))
      ensures sid !in ackWait && !cons.open
    {
      hide Channel.Inv, Apply, WaitersValid, ConsumersValid, SameInbox, SameOut;
      CallEffect(state, sid, CallStep.CleanUp);
      ackWait := ackWait - {sid};
      cons.Close();
      state := Apply(state, Call(sid, CallStep.CleanUp));
      WaitersStay();
      ConsumersStay();
    }

    /** The consumer is a connection of its own, and nothing has been written to it yet. */
    method Register(sid: Uuid, cons: Consumer)
      requires Valid() && state.At(sid).call.Acked?
      requires cons !in consumers.Values && cons.out == []
      modifies this
      ensures Valid() && state == Apply(old(state), Call(sid, CallStep.Register))
      ensures consumers == old(consumers)[sid := cons] && waiters == old(waiters)
      ensures sessions == old(sessions)[sid := cons] && ackWait == old(ackWait)
    {
      hide Channel.Inv, Apply, WaitersValid, ConsumersValid;
      NothingOutYet(state, sid);
      CallEffect(state, sid, CallStep.Register);
      sessions := sessions[sid := cons];
      consumers := consumers[sid := cons];
      state := Apply(state, Call(sid, CallStep.Register));
      assert SameOut(old(state), state, sid);
      hide SameInbox, SameOut;
      WaitersStay();
      ConsumerAdded(sid, cons);
    }

    // ---- The relay goroutine ----

    /** A binary message of the consumer, prefixed and written to the agent. */
    method Relay(sid: Uuid, payload: Bytes, fails: bool) returns (ok: bool)
      requires Valid() && state.At(sid).call == Holding(payload)
      modifies this`state, agent
      ensures Valid() && ok == (agent.open && !fails)
      ensures Enabled(old(state), Call(sid, RelayWrite(ok))) && state == Apply(old(state), Call(sid, RelayWrite(ok)))
      ensures agent.down == if ok then old(agent.down) + [DownBinary(Frame(sid, payload))] else old(agent.down)
    {
      hide Channel.Inv, Apply, WaitersValid, ConsumersValid, SameInbox, SameOut;
      ok := agent.WriteMessage(DownBinary(Frame(sid, payload)), fails);
      CallEffect(state, sid, RelayWrite(ok));
      state := Apply(state, Call(sid, RelayWrite(ok)));
      WaitersStay();
      ConsumersStay();
    }

    /** closeSession, as the relay goroutine calls it on its way out. */
    method RelayUnregisters(sid: Uuid)
      requires Valid() && state.At(sid).call.ExitDelete?
      modifies this`sessions, this`state, if sid in sessions then {sessions[sid]} else {}
      ensures Valid() && state == Apply(old(state), Call(sid, RelayDelete)) && sessions == old(sessions) - {sid}
      ensures sid in old(sessions) ==> !old(sessions)[sid].open
      ensures state.At(sid).call.ExitDetach?
    {
      hide Channel.Inv, Apply, WaitersValid, ConsumersValid, SameInbox, SameOut;
      RelayComesToDetach(state, sid);
      CallEffect(state, sid, RelayDelete);
      if sid in sessions {
        sessions[sid].Close();
      }
      sessions := sessions - {sid};
      state := Apply(state, Call(sid, RelayDelete));
      WaitersStay();
      ConsumersStay();
    }

    method RelayDetaches(sid: Uuid, fails: bool)
      requires Valid() && state.At(sid).call.ExitDetach?
      modifies this`state, agent
      ensures Valid()
      ensures var l := Call(sid, RelayDetach(old(agent.open) && !fails));
        Enabled(old(state), l) && state == Apply(old(state), l)
      ensures agent.down == old(agent.down) + if agent.open && !fails then [Detach(sid, ByRelay)] else []
    {
      hide Channel.Inv, Apply, WaitersValid, ConsumersValid, SameInbox, SameOut;
      var ok := agent.WriteMessage(Detach(sid, ByRelay), fails);
      CallEffect(state, sid, RelayDetach(ok));
      state := Apply(state, Call(sid, RelayDetach(ok)));
      WaitersStay();
      ConsumersStay();
    }
  
    // ---- agentReadLoop ----

    /** An `attached` message: its waiter is taken out of the map, if it is still there. */
    method ReadAttached(sid: Uuid, ok: bool) returns (waiter: Option<Waiter>)
      requires Valid() && Enabled(state, Loop(Read)) && state.p.up[state.upCur] == Attached(sid, ok)
      modifies this`ackWait, this`state
      ensures Valid() && state == Apply(old(state), Loop(Read))
      ensures if waiter.Some? then state.loop == Answering(sid, ok) && sid in waiters && waiters[sid] == waiter.value
              else state.loop.Reading?
      ensures ackWait == old(ackWait) - {sid}
      ensures waiter == if sid in old(ackWait) then Some(old(ackWait)[sid]) else None
    {
      hide Channel.Inv, WaitersValid, ConsumersValid, SameInbox, SameOut, Apply, Enabled, Parse;
      LoopEffect(state, Read);
      ReadEffect(state);
      WaitersAreApart();
      waiter := if sid in ackWait then Some(ackWait[sid]) else None;
      ackWait := ackWait - {sid};
      state := Apply(state, Loop(Read));
      WaitersStay();
      ConsumersStay();
    }

    /** A binary message: it is for the session its first 16 bytes name, if that is registered. */
    method ReadBinary(data: Bytes) returns (consumer: Option<Consumer>)
      requires Valid() && Enabled(state, Loop(Read)) && state.p.up[state.upCur] == UpBinary(data)
      modifies this`state
      ensures Valid() && state == Apply(old(state), Loop(Read))
      ensures if consumer.Some?
              then state.loop.Delivering? && data == Frame(state.loop.sid, state.loop.body)
                   && state.loop.sid in consumers && consumers[state.loop.sid] == consumer.value
              else state.loop.Reading?
    {
      hide Channel.Inv, WaitersValid, ConsumersValid, SameInbox, SameOut, Apply, Enabled, Parse;
      LoopEffect(state, Read);
      ReadEffect(state);
      ConsumersAreApart();
      if Parse(data).Some? {
        ParseIffFrame(data, Parse(data).value.0, Parse(data).value.1);
      }
      var frame := Parse(data);
      consumer := if frame.Some? && frame.value.0 in sessions then Some(sessions[frame.value.0]) else None;
      state := Apply(state, Loop(Read));
      WaitersStay();
      ConsumersStay();
    }

    twostate lemma ConsumerServed(sid: Uuid)
      requires old(ConsumersValid())
      requires sid in consumers
      requires consumers[sid].out == state.At(sid).out
      requires Relayed(state.At(sid).call)
      requires consumers == old(consumers) && sessions == old(sessions)
      requires forall x :: x in consumers && x != sid ==>
                 consumers[x].out == old(consumers[x].out) && SameOut(old(state), state, x)
      ensures ConsumersValid()
    {
    }

    /** The result always finds room. */
    method Answer(sid: Uuid, ok: bool, w: Waiter)
      requires Valid() && state.loop == Answering(sid, ok) && sid in waiters && waiters[sid] == w
      modifies this`state, w
      ensures Valid() && state == Apply(old(state), Loop(LoopStep.Answer)) && w.buf == [ok]
    {
      hide Channel.Inv, WaitersValid, ConsumersValid, SameInbox, SameOut;
      AnswerFits(state, sid);
      LoopEffect(state, LoopStep.Answer);
      WaitersAreApart();
      w.TrySend(ok);
      state := Apply(state, Loop(LoopStep.Answer));
      WaiterTaken(sid);
      ConsumersStay();
    }

    method Deliver(sid: Uuid, body: Bytes, cons: Consumer, fails: bool) returns (ok: bool)
      requires Valid() && state.loop == Delivering(sid, body) && sid in consumers && consumers[sid] == cons
      modifies this`state, cons
      ensures Valid() && ok == !fails && state == Apply(old(state), Loop(LoopStep.Deliver(ok)))
      ensures cons.out == if ok then old(cons.out) + [body] else old(cons.out)
    {
      hide Channel.Inv, WaitersValid, ConsumersValid, SameInbox, SameOut;
      LoopEffect(state, LoopStep.Deliver(!fails));
      ConsumersAreApart();
      ok := cons.WriteMessage(body, fails);
      state := Apply(state, Loop(LoopStep.Deliver(ok)));
      WaitersStay();
      ConsumerServed(sid);
    }

    /** closeSession, as the read loop calls it after a failed write. */
    method LoopUnregisters(sid: Uuid)
      requires Valid() && Enabled(state, Loop(Unregister)) && state.loop.sid == sid
      modifies this`sessions, this`state, if sid in sessions then {sessions[sid]} else {}
      ensures Valid() && state == Apply(old(state), Loop(Unregister)) && sessions == old(sessions) - {sid}
      ensures sid in old(sessions) ==> !old(sessions)[sid].open
    {
      hide Channel.Inv, WaitersValid, ConsumersValid, SameInbox, SameOut;
      LoopEffect(state, Unregister);
      if sid in sessions {
        sessions[sid].Close();
      }
      sessions := sessions - {sid};
      state := Apply(state, Loop(Unregister));
      WaitersStay();
      ConsumersStay();
    }

    method LoopDetaches(sid: Uuid, fails: bool)
      requires Valid() && state.loop == CloseDetach(sid)
      modifies this`state, agent
      ensures Valid()
      ensures var l := Loop(WriteDetach(old(agent.open) && !fails));
        Enabled(old(state), l) && state == Apply(old(state), l)
      ensures agent.down == old(agent.down) + if agent.open && !fails then [Detach(sid, ByLoop)] else []
    {
      hide Channel.Inv, WaitersValid, ConsumersValid, SameInbox, SameOut;
      LoopEffect(state, WriteDetach(agent.open && !fails));
      var ok := agent.WriteMessage(Detach(sid, ByLoop), fails);
      state := Apply(state, Loop(WriteDetach(ok)));
      WaitersStay();
      ConsumersStay();
    }

    // ---- removeChannel and AbortProviderRegistration ----

    ghost method Unmap()
      requires Valid() && state.loop.Unmapping?
      modifies this`state
      ensures Valid() && state == Apply(old(state), Loop(LoopStep.Unmap)) && state.loop.DrainSessions?
    {
      hide Channel.Inv, WaitersValid, ConsumersValid, SameInbox, SameOut;
      LoopEffect(state, LoopStep.Unmap);
      state := Apply(state, Loop(LoopStep.Unmap));
      WaitersStay();
      ConsumersStay();
    }

    ghost method UnmapAborted()
      requires Valid() && state.loop.Aborting?
      modifies this`state
      ensures Valid() && state == Apply(old(state), Loop(AbortUnmap)) && state.loop.AbortClosing?
    {
      hide Channel.Inv, WaitersValid, ConsumersValid, SameInbox, SameOut;
      LoopEffect(state, AbortUnmap);
      state := Apply(state, Loop(AbortUnmap));
      WaitersStay();
      ConsumersStay();
    }

    method CloseAborted()
      requires Valid() && state.loop.AbortClosing?
      modifies this`state, agent`open
      ensures Valid() && state == Apply(old(state), Loop(AbortClose)) && !agent.open
    {
      hide Channel.Inv, WaitersValid, ConsumersValid, SameInbox, SameOut;
      LoopEffect(state, AbortClose);
      agent.Close();
      state := Apply(state, Loop(AbortClose));
      WaitersStay();
      ConsumersStay();
    }

    /** The read loop ends: the agent is closed first. */
    method CloseAgent()
      requires Valid() && state.loop.Closing?
      modifies this`state, agent`open
      ensures Valid() && state == Apply(old(state), Loop(LoopStep.CloseAgent)) && !agent.open
    {
      hide Channel.Inv, WaitersValid, ConsumersValid, SameInbox, SameOut;
      LoopEffect(state, LoopStep.CloseAgent);
      agent.Close();
      state := Apply(state, Loop(LoopStep.CloseAgent));
      WaitersStay();
      ConsumersStay();
    }

    /** Every registered consumer is closed, and none is left. */
    method DropSessions()
      requires Valid() && state.loop.DrainSessions?
      modifies this`sessions, this`state, sessions.Values`open
      ensures Valid() && state == Apply(old(state), Loop(LoopStep.DropSessions)) && sessions == map[]
      ensures state.loop.DrainWaiters?
      ensures forall x :: x in old(sessions) ==> !old(sessions)[x].open
    {
      hide Channel.Inv, WaitersValid, ConsumersValid, SameInbox, SameOut;
      LoopEffect(state, LoopStep.DropSessions);
      CloseSessions();
      state := Apply(state, Loop(LoopStep.DropSessions));
      WaitersStay();
      ConsumersStay();
    }

    method CloseSessions()
      modifies this`sessions, sessions.Values`open
      ensures sessions == map[] && forall x :: x in old(sessions) ==> !old(sessions)[x].open
    {
      while sessions != map[]
        invariant forall x :: x in sessions ==> x in old(sessions) && sessions[x] == old(sessions)[x]
        invariant forall x :: x in old(sessions) && x !in sessions ==> !old(sessions)[x].open
        decreases |sessions|
      {
        var x :| x in sessions;
        sessions[x].Close();
        sessions := sessions - {x};
      }
    }

    /** Every attach call that still waits is told so: its buffer had room. */
    method DropWaiters()
      requires Valid() && state.loop.DrainWaiters?
      modifies this`ackWait, this`state, ackWait.Values
      ensures Valid() && state == Apply(old(state), Loop(LoopStep.DropWaiters)) && ackWait == map[]
      ensures forall x :: x in old(ackWait) ==> old(ackWait)[x].buf == [false]
    {
      hide Channel.Inv, ConsumersValid, WaitersValid, SameInbox, SameOut, Apply;
      DrainEffect(state);
      WaitersAreApart();
      AnswerWaiters();
      state := Apply(state, Loop(LoopStep.DropWaiters));
      WaitersAnswered();
      ConsumersStay();
    }

    method AnswerWaiters()
      requires forall x, y :: x in ackWait && y in ackWait && ackWait[x] == ackWait[y] ==> x == y
      requires forall x :: x in ackWait ==> ackWait[x].buf == []
      modifies this`ackWait, ackWait.Values
      ensures ackWait == map[] && forall x :: x in old(ackWait) ==> old(ackWait)[x].buf == [false]
    {
      while ackWait != map[]
        invariant forall x :: x in ackWait ==> x in old(ackWait) && ackWait[x] == old(ackWait)[x]
        invariant forall x :: x in ackWait ==> ackWait[x].buf == []
        invariant forall x :: x in old(ackWait) && x !in ackWait ==> old(ackWait)[x].buf == [false]
        decreases |ackWait|
      {
        var x :| x in ackWait;
        ackWait[x].TrySend(false);
        ackWait := ackWait - {x};
      }
    }

    /** The end of removeChannel, once the channel is out of the broker's map: the two drains, one after the other. */
    method Drain()
      requires Valid() && state.loop.Unmapping?
      modifies this`sessions, this`ackWait, this`state, sessions.Values`open, ackWait.Values
      ensures Valid() && state == AfterRemoval(old(state)) && sessions == map[] && ackWait == map[]
      ensures forall x :: x in old(sessions) ==> !old(sessions)[x].open
      ensures forall x :: x in old(ackWait) ==> old(ackWait)[x].buf == [false]
    {
      hide Channel.Inv, WaitersValid, ConsumersValid, Apply;
      Unmap();
      DropSessions();
      DropWaiters();
    }

    twostate lemma WaitersAnswered()
      requires old(WaitersValid()) && waiters == old(waiters) && ackWait == map[]
      requires forall x :: x in old(ackWait) ==>
                 old(ackWait)[x].buf == [false] && state.At(x).inbox == [false] && !state.At(x).call.Idle?
      requires forall x :: x in waiters && x !in old(ackWait) ==>
                 waiters[x].buf == old(waiters[x].buf) && SameInbox(old(state), state, x)
      ensures WaitersValid()
    {
    }
  }

  /** The exit of the read loop, from the unmapping on. */
  ghost function AfterRemoval(c: Channel): Channel
    requires c.WellFormed() && c.loop.Unmapping?
  {
    var c1 := Apply(c, Loop(LoopStep.Unmap));
    var c2 := Apply(c1, Loop(LoopStep.DropSessions));
    Apply(c2, Loop(LoopStep.DropWaiters))
  }

  ghost function AfterAbort(c: Channel): Channel
    requires c.WellFormed() && c.loop.Aborting?
  {
    Apply(Apply(c, Loop(AbortUnmap)), Loop(AbortClose))
  }

  /** The first message of a provider. */
  datatype Offer = Offer(localHost: string, localPort: int, channelId: string)

  datatype RegisterError = BadPort | BadChannelId | AlreadyActive

  class Broker {
    /** uuid.Parse. */
    const parseUuid: string -> Option<Uuid>
    var channels: map<Uuid, ChannelObject>

    constructor (parseUuid: string -> Option<Uuid>)
      ensures channels == map[] && this.parseUuid == parseUuid
    {
      this.parseUuid := parseUuid;
      channels := map[];
    }

    /** The id a provider asks for, or a new one if it asks for none. */
    function RequestedId(offer: Offer, newId: Uuid): Option<Uuid> {
      if TrimSpace(offer.channelId) == "" then Some(newId) else parseUuid(TrimSpace(offer.channelId))
    }

    /** A registered channel is a new object under an id that was free; a rejected offer changes nothing. */
    method RegisterProvider(agent: Agent, offer: Offer, newId: Uuid) returns (r: Result<ChannelObject, RegisterError>)
      requires agent.open && agent.down == []
      modifies this
      ensures r == Err(BadPort) <==> !(1 <= offer.localPort <= 65535)
      ensures r == Err(BadChannelId) <==> 1 <= offer.localPort <= 65535 && RequestedId(offer, newId).None?
      ensures r == Err(AlreadyActive) <==>
                && 1 <= offer.localPort <= 65535
                && RequestedId(offer, newId).Some? && RequestedId(offer, newId).value in old(channels)
      ensures r.Err? ==> channels == old(channels)
      ensures r.Ok? ==>
                && fresh(r.value) && r.value.Valid() && r.value.state == NEW_CHANNEL && r.value.agent == agent
                && Some(r.value.id) == RequestedId(offer, newId)
                && channels == old(channels)[r.value.id := r.value]
    {
      if offer.localPort < 1 || offer.localPort > 65535 {
        return Err(BadPort);
      }
      var id := newId;
      var s := TrimSpace(offer.channelId);
      if s != "" {
        var parsed := parseUuid(s);
        if parsed.None? {
          return Err(BadChannelId);
        }
        id := parsed.value;
      }
      if id in channels {
        return Err(AlreadyActive);
      }
      var ch := new ChannelObject(id, agent);
      hide *;
      channels := channels[id := ch];
      return Ok(ch);
    }

    /** The lookup of an attach call: the channel of the id, or the consumer is turned away. */
    method LookUp(chId: Uuid, cons: Consumer) returns (ch: Option<ChannelObject>)
      modifies cons`open
      ensures ch == if chId in channels then Some(channels[chId]) else None
      ensures cons.open == (ch.Some? && old(cons.open))
    {
      if chId !in channels {
        cons.Close();
        return None;
      }
      return Some(channels[chId]);
    }

    /** Undoes a registration whose reply could not be written. The object under the id is the caller's own. */
    method AbortProviderRegistration(id: Uuid)
      requires id in channels ==> channels[id].Valid() && channels[id].state.loop.Aborting?
      modifies this, if id in channels then {channels[id], channels[id].agent} else {}
      ensures channels == old(channels) - {id}
      ensures id in old(channels) ==>
                var ch := old(channels)[id];
                && ch.Valid() && !ch.agent.open
                && ch.state == AfterAbort(old(channels[id].state))
    {
      if id in channels {
        var ch := channels[id];
        channels := channels - {id};
        hide Channel.Inv, ChannelObject.WaitersValid, ChannelObject.ConsumersValid, Apply;
        ch.UnmapAborted();
        ch.CloseAborted();
      }
    }

    /**
     The exit of the read loop of the channel under the id: no session and no
     waiter is left, every consumer is closed and every waiting call answered.
     */
    method RemoveChannel(id: Uuid)
      requires id in channels ==> channels[id].Valid() && channels[id].state.loop.Unmapping?
      modifies this`channels, (if id in channels then {channels[id]} else {})`sessions
      modifies (if id in channels then {channels[id]} else {})`ackWait
      modifies (if id in channels then {channels[id]} else {})`state
      modifies (if id in channels then channels[id].sessions.Values else {})`open
      modifies if id in channels then channels[id].ackWait.Values else {}
      ensures channels == old(channels) - {id}
      ensures id in old(channels) ==>
                var ch := old(channels)[id];
                && ch.Valid() && ch.sessions == map[] && ch.ackWait == map[]
                && ch.state == AfterRemoval(old(channels[id].state))
                && (forall x :: x in old(channels[id].sessions) ==> !old(channels[id].sessions)[x].open)
                && (forall x :: x in old(channels[id].ackWait) ==> old(channels[id].ackWait)[x].buf == [false])
    {
      if id !in channels {
        return;
      }
      hide ChannelObject.Valid, AfterRemoval;
      var ch := channels[id];
      channels := channels - {id};
      ch.Drain();
    }
  }

  lemma ReadEffect(c: Channel)
    requires c.Inv() && Enabled(c, Loop(Read))
    ensures var (m, c') := (c.p.up[c.upCur], Apply(c, Loop(Read)));
      && (m.Attached? ==>
            && c'.b == c.b.(ackWait := c.b.ackWait - {m.sid})
            && c'.loop == if m.sid in c.b.ackWait then Answering(m.sid, m.ok) else Reading)
      && c'.b.sessions == c.b.sessions
      && (m.UpBinary? ==>
            && c'.b == c.b
            && c'.loop == if Parse(m.data).Some? && Parse(m.data).value.0 in c.b.sessions
                          then Delivering(Parse(m.data).value.0, Parse(m.data).value.1) else Reading)
  {
    hide Channel.Inv, Parse;
  }

  lemma DrainEffect(c: Channel)
    requires c.Inv() && c.loop.DrainWaiters?
    ensures var c' := Apply(c, Loop(LoopStep.DropWaiters));
      && c'.WellFormed() && c'.Inv()
      && c'.b == c.b.(ackWait := {})
      && (forall y: Uuid :: y in c.b.ackWait ==>
            c.At(y).inbox == [] && c'.At(y).inbox == [false] && !c'.At(y).call.Idle?)
      && (forall y: Uuid :: y !in c.b.ackWait ==> SameInbox(c, c', y))
      && (forall y: Uuid :: SameOut(c, c', y))
  {
    StepKeeps(c, Loop(LoopStep.DropWaiters));
    forall y: Uuid | y in c.b.ackWait
      ensures c.At(y).inbox == [] && !c.At(y).call.Idle?
    {
      AnswerFits(c, y);
    }
    hide Channel.Inv;
  }
}
