/**
 One provider connection: the broker's `channel`, the provider process behind
 it and the two message logs between them, as a labelled transition system.
 A queue is a log with a read cursor: what has been written and what has been
 read are prefixes of the same sequence. Every step is one atomic section.
 */
module Channels {
  import opened Base
  import opened Frames
  import opened Sessions

  /** The broker's `channel` struct: its two maps (their keys), and the agent connection. */
  datatype BrokerSide = BrokerSide(sessions: set<Uuid>, ackWait: set<Uuid>, open: bool, down: seq<DownMsg>)
  {
    /** Writing fails once the agent is closed, and may fail before. */
    function Write(m: DownMsg, ok: bool): BrokerSide {
      if ok then this.(down := down + [m]) else this
    }
  }

  datatype ProviderSide = ProviderSide(tcp: set<Uuid>, up: seq<UpMsg>)
  {
    function Write(m: UpMsg, ok: bool): ProviderSide {
      if ok then this.(up := up + [m]) else this
    }
  }

  /** A non-blocking send on a waiter channel of capacity one. */
  function Offer(s: Session, ok: bool): Session {
    if s.inbox == [] then s.(inbox := [ok], offers := s.offers + 1)
    else s.(lost := s.lost + 1, offers := s.offers + 1)
  }

  datatype Channel = Channel(
    b: BrokerSide, p: ProviderSide, downCur: nat, upCur: nat,
    loop: LoopPc, prov: ProvPc, sess: map<Uuid, Session>)
  {
    function At(x: Uuid): Session {
      if x in sess then sess[x] else NO_SESSION
    }

    function Put(x: Uuid, s: Session): Channel {
      this.(sess := sess[x := s])
    }

    /** removeChannel empties `sessions`, and then answers every waiter left. */
    function WithoutSessions(): Channel {
      this.(b := b.(sessions := {}))
    }

    function WithoutWaiters(): Channel {
      this.(b := b.(ackWait := {}),
            sess := map x | x in sess :: if x in b.ackWait then Offer(sess[x], false) else sess[x])
    }

    predicate WellFormed() {
      downCur <= |b.down| && upCur <= |p.up|
    }

    ghost function ViewOf(x: Uuid): View
      requires WellFormed()
    {
      View(x, At(x), x in b.ackWait, x in b.sessions, x in p.tcp, b.open, loop, prov,
           DownPartOf(b.down, downCur, x), UpPartOf(p.up, upCur, x))
    }

    ghost predicate Inv() {
      WellFormed() && forall x: Uuid :: ViewOf(x).Inv()
    }
  }

  /** A channel as RegisterProvider makes it, with the provider waiting for the reply. */
  const NEW_CHANNEL := Channel(BrokerSide({}, {}, true, []), ProviderSide({}, []), 0, 0, Registered, Handshaking, map[])

  datatype CallStep =
    | InsertWaiter
    | WriteAttach(ok: bool)
    | TakeResult
    | Timeout
    | CleanUp
    | Register
    | RelayRead(payload: Bytes)
    | RelayEnd
    | RelayWrite(ok: bool)
    | RelayDelete
    | RelayDetach(ok: bool)

  datatype LoopStep =
    | WriteReply(ok: bool)
    | AbortUnmap
    | AbortClose
    | Start
    | Read
    | ReadFails
    | Answer
    | Deliver(ok: bool)
    | Unregister
    | WriteDetach(ok: bool)
    | CloseAgent
    | Unmap
    | DropSessions
    | DropWaiters

  datatype ProvStep =
    | ProvRead(dialOk: bool)
    | ProvAck(ok: bool)
    | ProvWrite(n: nat, ok: bool)
    | ProvDrop
    | ProvStop

  datatype PumpStep =
    | PumpRead(chunk: Bytes)
    | PumpWrite(ok: bool)
    | PumpEnd
    | PumpUnmap

  datatype Label =
    | Call(sid: Uuid, call: CallStep)
    | Loop(loop: LoopStep)
    | Prov(prov: ProvStep)
    | Pump(pid: Uuid, pump: PumpStep)

  // ---- AttachConsumer and its relay goroutine ----

  predicate CallReady(s: Session, open: bool, l: CallStep) {
    match l
    case InsertWaiter => s.call.Idle?
    case WriteAttach(ok) => s.call.Inserted? && (ok ==> open)
    case TakeResult => s.call.Waiting? && s.inbox != []
    case Timeout => s.call.Waiting?
    case CleanUp => s.call.Failing?
    case Register => s.call.Acked?
    case RelayRead(_) => s.call.Relaying?
    case RelayEnd => s.call.Relaying?
    case RelayWrite(ok) => s.call.Holding? && (ok ==> open)
    case RelayDelete => s.call.ExitDelete?
    case RelayDetach(ok) => s.call.ExitDetach? && (ok ==> open)
  }

  /** `seen` counts the frames of the session that have been read before this step. */
  function CallSession(s: Session, seen: nat, l: CallStep): Session
    requires CallReady(s, true, l)
  {
    match l
    case InsertWaiter => s.(call := Inserted)
    case WriteAttach(ok) => s.(call := if ok then Waiting else Failing)
    case TakeResult => s.(call := if s.inbox[0] then Acked else Failing, inbox := s.inbox[1..])
    case Timeout => s.(call := Failing)
    case CleanUp => s.(call := Finished)
    case Register => s.(call := Relaying, skipped := seen, trail := s.trail.(registered := true))
    case RelayRead(payload) => s.(call := Holding(payload), read := s.read + [payload], unsent := [payload])
    case RelayEnd => s.(call := ExitDelete)
    case RelayWrite(ok) =>
      if ok then s.(call := Relaying, sent := s.sent + [s.call.payload], unsent := [])
      else s.(call := ExitDelete)
    case RelayDelete => s.(call := ExitDetach)
    case RelayDetach(ok) => s.(call := Finished, trail := s.trail.(relayLost := !ok))
  }

  function CallBroker(b: BrokerSide, x: Uuid, s: Session, l: CallStep): BrokerSide
    requires CallReady(s, true, l)
  {
    match l
    case InsertWaiter => b.(ackWait := b.ackWait + {x})
    case WriteAttach(ok) => b.Write(Attach(x), ok)
    case CleanUp => b.(ackWait := b.ackWait - {x})
    case Register => b.(sessions := b.sessions + {x})
    case RelayWrite(ok) => b.Write(DownBinary(Frame(x, s.call.payload)), ok)
    case RelayDelete => b.(sessions := b.sessions - {x})
    case RelayDetach(ok) => b.Write(Detach(x, ByRelay), ok)
    case _ => b
  }

  function CallApply(c: Channel, x: Uuid, l: CallStep): Channel
    requires c.WellFormed()
    requires CallReady(c.At(x), c.b.open, l)
  {
    var seen := |UpPartOf(c.p.up, c.upCur, x).seen|;
    c.(b := CallBroker(c.b, x, c.At(x), l)).Put(x, CallSession(c.At(x), seen, l))
  }

  // ---- The provider handler of the API, agentReadLoop and removeChannel ----

  predicate LoopEnabled(c: Channel, l: LoopStep) {
    match l
    case WriteReply(ok) => c.loop.Registered? && (ok ==> c.b.open)
    case AbortUnmap => c.loop.Aborting?
    case AbortClose => c.loop.AbortClosing?
    case Start => c.loop.Replied?
    case Read => c.loop.Reading? && c.upCur < |c.p.up|
    case ReadFails => c.loop.Reading?
    case Answer => c.loop.Answering?
    case Deliver(_) => c.loop.Delivering?
    case Unregister => c.loop.CloseDelete?
    case WriteDetach(ok) => c.loop.CloseDetach? && (ok ==> c.b.open)
    case CloseAgent => c.loop.Closing?
    case Unmap => c.loop.Unmapping?
    case DropSessions => c.loop.DrainSessions?
    case DropWaiters => c.loop.DrainWaiters?
  }

  function ReadUp(c: Channel): Channel
    requires c.upCur < |c.p.up|
  {
    var c' := c.(upCur := c.upCur + 1);
    match c.p.up[c.upCur]
    case Attached(sid, ok) =>
      if sid in c.b.ackWait
      then c'.(b := c.b.(ackWait := c.b.ackWait - {sid}), loop := Answering(sid, ok))
      else c'
    case UpBinary(data) =>
      match Parse(data)
      case None => c'
      case Some(frame) => if frame.0 in c.b.sessions then c'.(loop := Delivering(frame.0, frame.1)) else c'
  }

  function LoopApply(c: Channel, l: LoopStep): Channel
    requires c.WellFormed()
    requires LoopEnabled(c, l)
  {
    match l
    case WriteReply(ok) => c.(b := c.b.Write(Reply, ok), loop := if ok then Replied else Aborting)
    case AbortUnmap => c.(loop := AbortClosing)
    case AbortClose => c.(b := c.b.(open := false), loop := Aborted)
    case Start => c.(loop := Reading)
    case Read => ReadUp(c)
    case ReadFails => c.(loop := Closing)
    case Answer => c.(loop := Reading).Put(c.loop.sid, Offer(c.At(c.loop.sid), c.loop.ok))
    case Deliver(ok) =>
      var s := c.At(c.loop.sid);
      if ok then c.(loop := Reading).Put(c.loop.sid, s.(out := s.out + [c.loop.body]))
      else c.(loop := CloseDelete(c.loop.sid)).Put(c.loop.sid, s.(trail := s.trail.(refused := true)))
    case Unregister => c.(b := c.b.(sessions := c.b.sessions - {c.loop.sid}), loop := CloseDetach(c.loop.sid))
    case WriteDetach(ok) =>
      var s := c.At(c.loop.sid);
      c.(b := c.b.Write(Detach(c.loop.sid, ByLoop), ok), loop := Reading)
       .Put(c.loop.sid, s.(trail := s.trail.(loopLost := !ok)))
    case CloseAgent => c.(b := c.b.(open := false), loop := Unmapping)
    case Unmap => c.(loop := DrainSessions)
    case DropSessions => c.WithoutSessions().(loop := DrainWaiters)
    case DropWaiters => c.WithoutWaiters().(loop := Ended)
  }

  // ---- ServeReverseProvider ----

  predicate ProvEnabled(c: Channel, l: ProvStep) {
    match l
    case ProvRead(_) => (c.prov.Handshaking? || c.prov.Serving?) && c.downCur < |c.b.down|
    case ProvAck(_) => c.prov.Acking?
    case ProvWrite(n, ok) => c.prov.Writing? && n <= |c.prov.body| && (ok ==> n == |c.prov.body|)
    case ProvDrop => c.prov.Dropping?
    case ProvStop => c.prov.Handshaking? || c.prov.Serving?
  }

  function ReadDown(c: Channel, dialOk: bool): Channel
    requires c.downCur < |c.b.down|
  {
    var m := c.b.down[c.downCur];
    var c' := c.(downCur := c.downCur + 1);
    if c.prov.Handshaking? then c'.(prov := if m.Reply? then Serving else Stopped)
    else
      match m
      case Reply => c'
      case Attach(sid) =>
        if dialOk then
          c'.(p := c.p.(tcp := c.p.tcp + {sid}), prov := Acking(sid, true))
            .Put(sid, c.At(sid).(dialed := true, written := [], pump := Pumping))
        else c'.(prov := Acking(sid, false))
      case Detach(sid, _) => c'.(p := c.p.(tcp := c.p.tcp - {sid}))
      case DownBinary(data) =>
        match Parse(data)
        case None => c'
        case Some(frame) => if frame.0 in c.p.tcp then c'.(prov := Writing(frame.0, frame.1)) else c'
  }

  function ProvApply(c: Channel, l: ProvStep): Channel
    requires c.WellFormed()
    requires ProvEnabled(c, l)
  {
    match l
    case ProvRead(dialOk) => ReadDown(c, dialOk)
    case ProvAck(ok) =>
      c.(p := c.p.Write(Attached(c.prov.sid, c.prov.ok), ok), prov := if ok then Serving else Stopped)
    case ProvWrite(n, ok) =>
      var s := c.At(c.prov.sid);
      c.(prov := if ok then Serving else Dropping(c.prov.sid))
       .Put(c.prov.sid, s.(written := s.written + c.prov.body[..n]))
    case ProvDrop => c.(p := c.p.(tcp := c.p.tcp - {c.prov.sid}), prov := Serving)
    case ProvStop => c.(prov := Stopped)
  }

  // ---- pumpReverseTCPToWS ----

  predicate PumpReady(s: Session, l: PumpStep) {
    match l
    case PumpRead(_) => s.pump.Pumping?
    case PumpWrite(_) => s.pump.PumpHolding?
    case PumpEnd => s.pump.Pumping?
    case PumpUnmap => s.pump.PumpExiting?
  }

  function PumpSession(s: Session, l: PumpStep): Session
    requires PumpReady(s, l)
  {
    match l
    case PumpRead(chunk) => s.(pump := PumpHolding(chunk))
    case PumpWrite(ok) =>
      if ok then s.(pump := Pumping, pumped := s.pumped + [s.pump.chunk]) else s.(pump := PumpExiting)
    case PumpEnd => s.(pump := PumpExiting)
    case PumpUnmap => s.(pump := PumpDone)
  }

  function PumpApply(c: Channel, x: Uuid, l: PumpStep): Channel
    requires c.WellFormed()
    requires PumpReady(c.At(x), l)
  {
    var s := c.At(x);
    var p := match l
      case PumpWrite(ok) => c.p.Write(UpBinary(Frame(x, s.pump.chunk)), ok)
      case PumpUnmap => c.p.(tcp := c.p.tcp - {x})
      case _ => c.p;
    c.(p := p).Put(x, PumpSession(s, l))
  }

  predicate Enabled(c: Channel, l: Label) {
    match l
    case Call(x, step) => CallReady(c.At(x), c.b.open, step)
    case Loop(step) => LoopEnabled(c, step)
    case Prov(step) => ProvEnabled(c, step)
    case Pump(x, step) => PumpReady(c.At(x), step)
  }

  function Apply(c: Channel, l: Label): Channel
    requires c.WellFormed()
    requires Enabled(c, l)
  {
    match l
    case Call(x, step) => CallApply(c, x, step)
    case Loop(step) => LoopApply(c, step)
    case Prov(step) => ProvApply(c, step)
    case Pump(x, step) => PumpApply(c, x, step)
  }
}
