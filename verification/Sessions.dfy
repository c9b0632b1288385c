/**
 One tunnel session as both processes see it: the attach call and relay
 goroutine on the broker, the dialled TCP connection and its pump on the
 provider, and the part of the two message logs that concerns the session.
 */
module Sessions {
  import opened Base
  import opened Frames

  /** Which of its two writers a detach message comes from. The tag is not on the wire. */
  datatype Party = ByRelay | ByLoop

  /** What the broker writes to the provider. */
  datatype DownMsg =
    | Reply
    | Attach(sid: Uuid)
    | Detach(sid: Uuid, who: Party)
    | DownBinary(data: Bytes)

  /** What the provider writes to the broker. */
  datatype UpMsg =
    | Attached(sid: Uuid, ok: bool)
    | UpBinary(data: Bytes)

  datatype DownEvent = EvAttach | EvData(payload: Bytes) | EvDetach(who: Party)
  {
    predicate IsDetach(p: Party) {
      EvDetach? && (who.ByRelay? <==> p.ByRelay?)
    }
  }

  datatype UpEvent = EvAck(ok: bool) | EvBody(body: Bytes)

  function DownEventOf(m: DownMsg, x: Uuid): seq<DownEvent> {
    match m
    case Reply => []
    case Attach(sid) => if sid == x then [EvAttach] else []
    case Detach(sid, who) => if sid == x then [EvDetach(who)] else []
    case DownBinary(data) =>
      match Parse(data)
      case None => []
      case Some(frame) => if frame.0 == x then [EvData(frame.1)] else []
  }

  function UpEventOf(m: UpMsg, x: Uuid): seq<UpEvent> {
    match m
    case Attached(sid, ok) => if sid == x then [EvAck(ok)] else []
    case UpBinary(data) =>
      match Parse(data)
      case None => []
      case Some(frame) => if frame.0 == x then [EvBody(frame.1)] else []
  }

  /** The projection of a log on session `x`. */
  function Down(log: seq<DownMsg>, x: Uuid): seq<DownEvent> {
    if log == [] then [] else Down(log[..|log| - 1], x) + DownEventOf(log[|log| - 1], x)
  }

  function Up(log: seq<UpMsg>, x: Uuid): seq<UpEvent> {
    if log == [] then [] else Up(log[..|log| - 1], x) + UpEventOf(log[|log| - 1], x)
  }

  lemma DownPush(log: seq<DownMsg>, m: DownMsg, x: Uuid)
    ensures Down(log + [m], x) == Down(log, x) + DownEventOf(m, x)
  {
    assert (log + [m])[..|log|] == log;
  }

  lemma UpPush(log: seq<UpMsg>, m: UpMsg, x: Uuid)
    ensures Up(log + [m], x) == Up(log, x) + UpEventOf(m, x)
  {
    assert (log + [m])[..|log|] == log;
  }

  lemma {:induction false} DownPrefix(log: seq<DownMsg>, n: nat, x: Uuid)
    requires n <= |log|
    ensures Down(log[..n], x) <= Down(log, x)
    decreases |log|
  {
    if n < |log| {
      var init := log[..|log| - 1];
      DownPrefix(init, n, x);
      assert init[..n] == log[..n];
    } else {
      assert log[..n] == log;
    }
  }

  lemma {:induction false} UpPrefix(log: seq<UpMsg>, n: nat, x: Uuid)
    requires n <= |log|
    ensures Up(log[..n], x) <= Up(log, x)
    decreases |log|
  {
    if n < |log| {
      var init := log[..|log| - 1];
      UpPrefix(init, n, x);
      assert init[..n] == log[..n];
    } else {
      assert log[..n] == log;
    }
  }

  /** The payloads among the events of one session, in order. */
  function Payloads(es: seq<DownEvent>): seq<Bytes> {
    if es == [] then []
    else
      var e := es[|es| - 1];
      Payloads(es[..|es| - 1]) + (if e.EvData? then [e.payload] else [])
  }

  function Bodies(es: seq<UpEvent>): seq<Bytes> {
    if es == [] then []
    else
      var e := es[|es| - 1];
      Bodies(es[..|es| - 1]) + (if e.EvBody? then [e.body] else [])
  }

  lemma PayloadsPush(es: seq<DownEvent>, e: DownEvent)
    ensures Payloads(es + [e]) == Payloads(es) + (if e.EvData? then [e.payload] else [])
  {
    assert (es + [e])[..|es|] == es;
  }

  lemma BodiesPush(es: seq<UpEvent>, e: UpEvent)
    ensures Bodies(es + [e]) == Bodies(es) + (if e.EvBody? then [e.body] else [])
  {
    assert (es + [e])[..|es|] == es;
  }

  lemma {:induction false} PayloadsPrefix(a: seq<DownEvent>, b: seq<DownEvent>)
    requires a <= b
    ensures Payloads(a) <= Payloads(b)
    decreases |b|
  {
    if a != b {
      PayloadsPrefix(a, b[..|b| - 1]);
    }
  }

  lemma {:induction false} BodiesPrefix(a: seq<UpEvent>, b: seq<UpEvent>)
    requires a <= b
    ensures Bodies(a) <= Bodies(b)
    decreases |b|
  {
    if a != b {
      BodiesPrefix(a, b[..|b| - 1]);
    }
  }

  /** How far the messages of one session towards the provider have got. */
  datatype Wire = Silent | Open | LoopDetached | RelayDetached | BothDetached | Broken

  function Advance(w: Wire, e: DownEvent): Wire {
    match w
    case Silent => if e.EvAttach? then Open else Broken
    case Open => if e.EvData? then Open else if e.IsDetach(ByLoop) then LoopDetached
                 else if e.IsDetach(ByRelay) then RelayDetached else Broken
    case LoopDetached => if e.EvData? then LoopDetached else if e.IsDetach(ByRelay) then BothDetached else Broken
    case RelayDetached => if e.IsDetach(ByLoop) then BothDetached else Broken
    case _ => Broken
  }

  function WireOf(es: seq<DownEvent>): Wire {
    if es == [] then Silent else Advance(WireOf(es[..|es| - 1]), es[|es| - 1])
  }

  lemma WirePush(es: seq<DownEvent>, e: DownEvent)
    ensures WireOf(es + [e]) == Advance(WireOf(es), e)
  {
    assert (es + [e])[..|es|] == es;
  }

  /** A prefix of: attach data* (detach data*)? detach. */
  ghost predicate WirePattern(es: seq<DownEvent>) {
    && (forall i :: 0 <= i < |es| ==> (es[i].EvAttach? <==> i == 0))
    && (forall i, j :: 0 <= i < j < |es| && es[i].EvDetach? && es[j].EvDetach? ==> j == |es| - 1)
  }

  ghost predicate TwoDetaches(es: seq<DownEvent>) {
    exists i, j :: 0 <= i < j < |es| && es[i].EvDetach? && es[j].EvDetach?
  }

  /** The states of the automaton, in terms of the events seen. */
  lemma {:induction false} WireMeaning(es: seq<DownEvent>)
    requires WireOf(es) != Broken
    ensures WirePattern(es)
    ensures WireOf(es) == Silent <==> es == []
    ensures WireOf(es) in {LoopDetached, BothDetached} <==> EvDetach(ByLoop) in es
    ensures WireOf(es) in {RelayDetached, BothDetached} <==> EvDetach(ByRelay) in es
    ensures WireOf(es) in {RelayDetached, BothDetached} ==> es[|es| - 1].EvDetach?
    ensures TwoDetaches(es) ==> WireOf(es) == BothDetached
    decreases |es|
  {
    if es != [] {
      var init, e := es[..|es| - 1], es[|es| - 1];
      WireMeaning(init);
      assert es == init + [e];
      assert forall i :: 0 <= i < |init| ==> es[i] == init[i];
      if i, j :| 0 <= i < j < |es| && es[i].EvDetach? && es[j].EvDetach? {
        assert j < |init| ==> TwoDetaches(init);
        assert init[i] in init;
        assert init[i] == EvDetach(ByLoop) || init[i] == EvDetach(ByRelay);
      }
    }
  }

  /** Nothing but one more detach follows the detach of the relay goroutine. */
  lemma {:induction false} NoDataAfterRelayDetach(a: seq<DownEvent>, b: seq<DownEvent>)
    requires a + [EvDetach(ByRelay)] <= b
    requires WireOf(b) != Broken
    ensures Payloads(b) == Payloads(a)
    ensures WireOf(b) in {RelayDetached, BothDetached}
    decreases |b|
  {
    var init, e := b[..|b| - 1], b[|b| - 1];
    assert b == init + [e];
    if |b| == |a| + 1 {
      assert init == a;
      WirePush(init, e);
    } else {
      assert a + [EvDetach(ByRelay)] <= init;
      NoDataAfterRelayDetach(a, init);
    }
  }

  lemma {:induction false} WirePrefix(a: seq<DownEvent>, b: seq<DownEvent>)
    requires a <= b
    requires WireOf(b) != Broken
    ensures WireOf(a) != Broken
    decreases |b|
  {
    if a != b {
      WirePrefix(a, b[..|b| - 1]);
    }
  }

  /** AttachConsumer, and the relay goroutine it leaves behind, between two atomic sections. */
  datatype CallPc =
    | Idle
    | Inserted
    | Waiting
    | Failing
    | Acked
    | Relaying
    | Holding(payload: Bytes)
    | ExitDelete
    | ExitDetach
    | Finished

  datatype PumpPc = NoPump | Pumping | PumpHolding(chunk: Bytes) | PumpExiting | PumpDone

  /** agentReadLoop and the handler that registers its channel. */
  datatype LoopPc =
    | Registered
    | Replied
    | Aborting
    | AbortClosing
    | Aborted
    | Reading
    | Answering(sid: Uuid, ok: bool)
    | Delivering(sid: Uuid, body: Bytes)
    | CloseDelete(sid: Uuid)
    | CloseDetach(sid: Uuid)
    | Closing
    | Unmapping
    | DrainSessions
    | DrainWaiters
    | Ended

  /** ServeReverseProvider. */
  datatype ProvPc =
    | Handshaking
    | Serving
    | Acking(sid: Uuid, ok: bool)
    | Writing(sid: Uuid, body: Bytes)
    | Dropping(sid: Uuid)
    | Stopped

  /**
   How a session came to its end, as history: it was registered; the relay's detach
   could not be written; the consumer refused a body; the read loop's detach could
   not be written.
   */
  datatype Trail = Trail(registered: bool, relayLost: bool, refused: bool, loopLost: bool)

  /**
   inbox    the buffer of the waiter channel (true for an ok result)
   offers   results sent on that channel; lost counts those its full buffer refused
   read     payloads the relay read from the consumer; sent of them reached the agent,
            unsent holds one in hand, or whose write failed
   out      bodies written to the consumer; skipped counts those read before registration
   written  bytes written to the dialled TCP connection
   pumped   chunks the pump wrote to the broker
   */
  datatype Session = Session(
    call: CallPc, inbox: seq<bool>, offers: nat, lost: nat,
    read: seq<Bytes>, sent: seq<Bytes>, unsent: seq<Bytes>, out: seq<Bytes>, skipped: nat,
    dialed: bool, written: Bytes, pump: PumpPc, pumped: seq<Bytes>, trail: Trail)

  const NO_SESSION :=
    Session(Idle, [], 0, 0, [], [], [], [], 0, false, [], NoPump, [], Trail(false, false, false, false))

  /**
   What the log to the provider says about one session: wire and sent summarise
   all of it, started and received the part already read.
   */
  datatype DownPart = DownPart(wire: Wire, sent: seq<Bytes>, started: bool, received: Bytes)
  {
    function Pushed(es: seq<DownEvent>): DownPart {
      if es == [] then this
      else this.(wire := Advance(wire, es[0]), sent := sent + if es[0].EvData? then [es[0].payload] else [])
    }

    function Pulled(es: seq<DownEvent>): DownPart {
      if es == [] then this
      else this.(started := true, received := received + if es[0].EvData? then es[0].payload else [])
    }
  }

  /** The same for the log to the broker: acked and seen summarise the part already read. */
  datatype UpPart = UpPart(any: bool, ackOk: bool, bodies: seq<Bytes>, acked: bool, seen: seq<Bytes>)
  {
    function Pushed(es: seq<UpEvent>): UpPart {
      if es == [] then this
      else this.(any := true, ackOk := ackOk || es[0] == EvAck(true),
                 bodies := bodies + if es[0].EvBody? then [es[0].body] else [])
    }

    function Pulled(es: seq<UpEvent>): UpPart {
      if es == [] then this
      else this.(acked := acked || es[0] == EvAck(true), seen := seen + if es[0].EvBody? then [es[0].body] else [])
    }
  }

  function DownPartOf(log: seq<DownMsg>, cur: nat, x: Uuid): DownPart
    requires cur <= |log|
  {
    var (all, done) := (Down(log, x), Down(log[..cur], x));
    DownPart(WireOf(all), Payloads(all), done != [], Concat(Payloads(done)))
  }

  function UpPartOf(log: seq<UpMsg>, cur: nat, x: Uuid): UpPart
    requires cur <= |log|
  {
    var (all, done) := (Up(log, x), Up(log[..cur], x));
    UpPart(all != [], EvAck(true) in all, Bodies(all), EvAck(true) in done, Bodies(done))
  }

  /** Everything in a channel's state that concerns session x. */
  datatype View = View(
    x: Uuid, s: Session, waiting: bool, registered: bool, mapped: bool, open: bool,
    loop: LoopPc, prov: ProvPc, d: DownPart, u: UpPart)
  {
    predicate Unregistered() {
      s.call.Idle? || s.call.Inserted? || s.call.Waiting? || s.call.Failing? || s.call.Acked?
    }

    /** The relay goroutine has not yet written its detach. */
    predicate Live() {
      s.call.Relaying? || s.call.Holding? || s.call.ExitDelete? || s.call.ExitDetach?
    }

    predicate Answers() {
      loop.Answering? && loop.sid == x
    }

    /** The read loop is between looking x up in `sessions` and being done with its message. */
    predicate Delivers() {
      (loop.Delivering? || loop.CloseDelete? || loop.CloseDetach?) && loop.sid == x
    }

    predicate ProviderBusy() {
      (prov.Acking? || prov.Writing? || prov.Dropping?) && prov.sid == x
    }

    /** At most one result per waiter, and nobody waits without one to come. */
    ghost predicate WaiterInv() {
      && s.lost == 0 && |s.inbox| <= s.offers <= 1
      && (waiting ==> s.offers == 0 && (s.call.Inserted? || s.call.Waiting? || s.call.Failing?))
      && (Answers() ==> !waiting && s.offers == 0 && !s.call.Idle?)
      && (s.call.Waiting? ==> waiting || Answers() || |s.inbox| == 1)
      && (s.call.Waiting? && waiting ==> !loop.Ended?)
      && (s.call.Inserted? && !waiting ==> !open)
    }

    /** Only an acknowledged session, dialled by the provider, gets past the wait. */
    ghost predicate AckInv() {
      && (s.inbox == [true] || (Answers() && loop.ok) || s.call.Acked? || Live() || s.read != [] ==> u.acked)
      && (!d.wire.Silent? && !d.wire.Open? ==> u.acked)
      && (Delivers() ==> u.acked)
      && (u.acked || u.ackOk || (prov.Acking? && prov.sid == x && prov.ok) || mapped || !s.pump.NoPump? ==> s.dialed)
      && (!d.started ==> !s.dialed && !u.any && !ProviderBusy() && d.received == [])
      && (prov.Handshaking? ==> !s.dialed)
      && (d.started ==> !d.wire.Silent?)
    }

    ghost predicate WireInv() {
      && !d.wire.Broken?
      && (s.call.Idle? || s.call.Inserted? ==> d.wire.Silent?)
      && (s.call.Failing? ==> d.wire.Silent? || d.wire.Open?)
      && (s.call.Waiting? || s.call.Acked? ==> d.wire.Open?)
      && (Live() ==> d.wire.Open? || d.wire.LoopDetached?)
      && (registered ==> Live() && !s.call.ExitDetach? && d.wire.Open?)
      && (Delivers() ==> !Unregistered() && (d.wire.Open? || d.wire.RelayDetached?))
      && (Delivers() && loop.CloseDetach? ==> !registered)
    }

    /** Consumer to provider. */
    ghost predicate DeliveryInv() {
      && d.sent == s.sent
      && (s.call.Holding? ==> s.unsent == [s.call.payload])
      && (s.unsent != [] ==> s.call.Holding? || s.call.ExitDelete? || s.call.ExitDetach? || s.call.Finished?)
      && |s.unsent| <= 1
      && s.read == s.sent + s.unsent
      && (Unregistered() ==> s.read == [])
      && (!s.dialed ==> s.written == [])
      && s.written <= d.received
      && (if ProviderBusy() && prov.Writing? then s.dialed && s.written + prov.body == d.received
          else mapped && !(ProviderBusy() && prov.Dropping?) ==> s.written == d.received)
    }

    /** Provider to consumer. */
    ghost predicate WindowInv() {
      && s.pumped == u.bodies
      && s.skipped <= |u.seen|
      && (Unregistered() ==> s.out == [] && s.skipped == 0)
      && s.out <= u.seen[s.skipped..]
      && (if Delivers() && loop.Delivering?
          then s.out + [loop.body] <= u.seen[s.skipped..]
               && (registered ==> s.out + [loop.body] == u.seen[s.skipped..])
          else registered && !Delivers() ==> s.out == u.seen[s.skipped..])
    }

    ghost predicate Inv() {
      && (s.call.Idle? ==> s == NO_SESSION && !waiting && !registered && !mapped)
      && (loop.Unmapping? || loop.DrainSessions? || loop.DrainWaiters? || loop.Ended? || loop.Aborted? ==> !open)
      && WaiterInv() && AckInv() && WireInv() && DeliveryInv() && WindowInv()
    }
  }
}
