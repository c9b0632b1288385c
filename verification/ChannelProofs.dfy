/** Every step of a channel keeps the invariant of every session. */
module ChannelProofs {
  import opened Base
  import opened Frames
  import opened Sessions
  import opened Channels

  // ---- Steps of AttachConsumer and the relay goroutine, on the view of their session ----

  function CallEvents(s: Session, l: CallStep): seq<DownEvent>
    requires CallReady(s, true, l)
  {
    match l
    case WriteAttach(ok) => if ok then [EvAttach] else []
    case RelayWrite(ok) => if ok then [EvData(s.call.payload)] else []
    case RelayDetach(ok) => if ok then [EvDetach(ByRelay)] else []
    case _ => []
  }

  function CallView(v: View, l: CallStep): View
    requires CallReady(v.s, true, l)
  {
    v.(s := CallSession(v.s, |v.u.seen|, l),
       waiting := if l.InsertWaiter? then true else if l.CleanUp? then false else v.waiting,
       registered := if l.Register? then true else if l.RelayDelete? then false else v.registered,
       d := v.d.Pushed(CallEvents(v.s, l)))
  }

  lemma AttachKeeps(v: View, l: CallStep)
    requires v.Inv() && CallReady(v.s, v.open, l)
    requires l.InsertWaiter? || l.WriteAttach?
    ensures CallView(v, l).Inv()
  {
  }

  lemma TakeResultKeeps(v: View)
    requires v.Inv() && CallReady(v.s, v.open, TakeResult)
    ensures CallView(v, TakeResult).Inv()
  {
  }

  lemma TimeoutKeeps(v: View)
    requires v.Inv() && v.s.call.Waiting?
    ensures CallView(v, Timeout).Inv()
  {
  }

  lemma CleanUpKeeps(v: View)
    requires v.Inv() && v.s.call.Failing?
    ensures CallView(v, CleanUp).Inv()
  {
  }

  lemma RelayKeeps(v: View, l: CallStep)
    requires v.Inv() && CallReady(v.s, v.open, l)
    requires l.Register? || l.RelayRead? || l.RelayEnd? || l.RelayDelete?
    ensures CallView(v, l).Inv()
  {
  }

  lemma RelayWriteKeeps(v: View)
    requires v.Inv() && v.s.call.Holding?
    ensures CallView(v, RelayWrite(true)).Inv()
  {
  }

  lemma RelayDetachKeeps(v: View)
    requires v.Inv() && v.s.call.ExitDetach?
    ensures CallView(v, RelayDetach(true)).Inv()
  {
  }

  lemma RelayFailureKeeps(v: View, l: CallStep)
    requires v.Inv() && CallReady(v.s, v.open, l)
    requires l == RelayWrite(false) || l == RelayDetach(false)
    ensures CallView(v, l).Inv()
  {
  }

  lemma CallViewKeeps(v: View, l: CallStep)
    requires v.Inv() && CallReady(v.s, v.open, l)
    ensures CallView(v, l).Inv()
  {
    hide View.Inv, CallView;
    match l
    case InsertWaiter => AttachKeeps(v, l);
    case WriteAttach(_) => AttachKeeps(v, l);
    case TakeResult => TakeResultKeeps(v);
    case Timeout => TimeoutKeeps(v);
    case CleanUp => CleanUpKeeps(v);
    case Register => RelayKeeps(v, l);
    case RelayRead(_) => RelayKeeps(v, l);
    case RelayEnd => RelayKeeps(v, l);
    case RelayWrite(ok) => if ok { RelayWriteKeeps(v); } else { RelayFailureKeeps(v, l); }
    case RelayDelete => RelayKeeps(v, l);
    case RelayDetach(ok) => if ok { RelayDetachKeeps(v); } else { RelayFailureKeeps(v, l); }
  }

  // ---- Steps of the read loop ----

  /** The read loop moves on without touching the session. */
  lemma LoopMoves(v: View, loop: LoopPc, open: bool)
    requires v.Inv() && !v.Answers() && !v.Delivers()
    requires var v' := v.(loop := loop); !v'.Answers() && !v'.Delivers()
    requires open ==> v.open
    requires loop.Unmapping? || loop.DrainSessions? || loop.DrainWaiters? || loop.Ended? || loop.Aborted? ==> !open
    requires loop.Ended? ==> !v.waiting || !v.s.call.Waiting?
    ensures v.(loop := loop, open := open).Inv()
  {
  }

  lemma UnregisterKeeps(v: View)
    requires v.Inv()
    ensures v.(registered := false).Inv()
  {
  }

  /** The read loop reads an ack of the session. */
  lemma ReadAckKeeps(v: View, ok: bool)
    requires v.Inv() && v.loop.Reading? && v.u.any && (ok ==> v.u.ackOk)
    ensures v.(u := v.u.Pulled([EvAck(ok)]), waiting := false,
               loop := if v.waiting then Answering(v.x, ok) else Reading).Inv()
  {
  }

  /** The read loop reads a frame of the session. */
  lemma ReadBodyKeeps(v: View, body: Bytes)
    requires v.Inv() && v.loop.Reading? && v.u.any
    ensures v.(u := v.u.Pulled([EvBody(body)]),
               loop := if v.registered then Delivering(v.x, body) else Reading).Inv()
  {
    assert forall n :: 0 <= n <= |v.u.seen| ==> (v.u.seen + [body])[n..] == v.u.seen[n..] + [body];
  }

  lemma AnswerKeeps(v: View)
    requires v.Inv() && v.Answers()
    ensures v.(s := Offer(v.s, v.loop.ok), loop := Reading).Inv()
  {
  }

  lemma DeliverKeeps(v: View, ok: bool)
    requires v.Inv() && v.Delivers() && v.loop.Delivering?
    ensures (if ok then v.(s := v.s.(out := v.s.out + [v.loop.body]), loop := Reading)
             else v.(s := v.s.(trail := v.s.trail.(refused := true)), loop := CloseDelete(v.x))).Inv()
  {
  }

  /** closeSession, called by the read loop. */
  lemma LoopClosesSession(v: View, ok: bool)
    requires v.Inv() && v.Delivers()
    ensures v.loop.CloseDelete? ==> v.(registered := false, loop := CloseDetach(v.x)).Inv()
    ensures v.loop.CloseDetach? ==>
      v.(d := v.d.Pushed(if ok then [EvDetach(ByLoop)] else []), loop := Reading,
         s := v.s.(trail := v.s.trail.(loopLost := !ok))).Inv()
  {
  }

  lemma DropWaitersKeeps(v: View)
    requires v.Inv() && v.loop.DrainWaiters?
    ensures v.(s := if v.waiting then Offer(v.s, false) else v.s, waiting := false, loop := Ended).Inv()
  {
  }

  // ---- Steps of the provider and its pumps ----

  /** The provider loop moves on without touching the session. */
  lemma ProvMoves(v: View, prov: ProvPc)
    requires v.Inv() && !v.ProviderBusy() && !v.(prov := prov).ProviderBusy()
    requires !prov.Handshaking?
    ensures v.(prov := prov).Inv()
  {
  }

  lemma UnmapKeeps(v: View)
    requires v.Inv()
    ensures v.(mapped := false).Inv()
  {
  }

  /** The provider loop reads an event of the session that it does not act on. */
  lemma ProvIgnores(v: View, prov: ProvPc, e: DownEvent)
    requires v.Inv() && !v.ProviderBusy() && !v.d.wire.Silent?
    requires prov.Serving? || prov.Stopped? || prov == Acking(v.x, false)
    requires !v.mapped || !e.EvData?
    ensures v.(d := v.d.Pulled([e]), prov := prov).Inv()
  {
  }

  lemma DialKeeps(v: View)
    requires v.Inv() && v.prov.Serving? && !v.d.started && !v.d.wire.Silent?
    ensures v.(d := v.d.Pulled([EvAttach]), mapped := true, prov := Acking(v.x, true),
               s := v.s.(dialed := true, written := [], pump := Pumping)).Inv()
  {
  }

  lemma ReadDataKeeps(v: View, p: Bytes)
    requires v.Inv() && v.prov.Serving? && v.mapped && !v.d.wire.Silent?
    ensures v.(d := v.d.Pulled([EvData(p)]), prov := Writing(v.x, p)).Inv()
  {
  }

  lemma ProvAckKeeps(v: View, ok: bool)
    requires v.Inv() && v.ProviderBusy() && v.prov.Acking?
    ensures v.(u := v.u.Pushed(if ok then [EvAck(v.prov.ok)] else []), prov := if ok then Serving else Stopped).Inv()
  {
  }

  lemma ProvWriteKeeps(v: View, n: nat, ok: bool)
    requires v.Inv() && v.ProviderBusy() && v.prov.Writing?
    requires n <= |v.prov.body| && (ok ==> n == |v.prov.body|)
    ensures var s := v.s.(written := v.s.written + v.prov.body[..n]);
      v.(s := s, prov := if ok then Serving else Dropping(v.x)).Inv()
  {
  }

  lemma ProvDropKeeps(v: View)
    requires v.Inv() && v.ProviderBusy() && v.prov.Dropping?
    ensures v.(mapped := false, prov := Serving).Inv()
  {
  }

  function PumpView(v: View, l: PumpStep): View
    requires PumpReady(v.s, l)
  {
    v.(s := PumpSession(v.s, l), mapped := if l.PumpUnmap? then false else v.mapped,
       u := v.u.Pushed(if l == PumpWrite(true) then [EvBody(v.s.pump.chunk)] else []))
  }

  lemma PumpMoves(v: View, l: PumpStep)
    requires v.Inv() && PumpReady(v.s, l) && l != PumpWrite(true)
    ensures PumpView(v, l).Inv()
  {
  }

  lemma PumpWriteKeeps(v: View)
    requires v.Inv() && v.s.pump.PumpHolding?
    ensures PumpView(v, PumpWrite(true)).Inv()
  {
  }

  // ---- What writing and reading one message changes ----

  lemma PushedDown(log: seq<DownMsg>, cur: nat, m: DownMsg, x: Uuid)
    requires cur <= |log|
    ensures DownPartOf(log + [m], cur, x) == DownPartOf(log, cur, x).Pushed(DownEventOf(m, x))
  {
    var d, es := Down(log, x), DownEventOf(m, x);
    assert (log + [m])[..cur] == log[..cur];
    DownPush(log, m, x);
    if es == [] {
      assert d + es == d;
    } else {
      assert es == [es[0]];
      WirePush(d, es[0]);
      PayloadsPush(d, es[0]);
    }
  }

  lemma PushedUp(log: seq<UpMsg>, cur: nat, m: UpMsg, x: Uuid)
    requires cur <= |log|
    ensures UpPartOf(log + [m], cur, x) == UpPartOf(log, cur, x).Pushed(UpEventOf(m, x))
  {
    var u, es := Up(log, x), UpEventOf(m, x);
    assert (log + [m])[..cur] == log[..cur];
    UpPush(log, m, x);
    if es == [] {
      assert u + es == u;
    } else {
      assert es == [es[0]];
      BodiesPush(u, es[0]);
    }
  }

  lemma AtMostOneEvent(m: DownMsg, x: Uuid)
    ensures var es := DownEventOf(m, x); es != [] ==> es == [es[0]]
  {
    hide Parse;
  }

  lemma PulledDown(log: seq<DownMsg>, cur: nat, x: Uuid)
    requires cur < |log|
    requires !DownPartOf(log, cur, x).wire.Broken?
    ensures var (d, es) := (DownPartOf(log, cur, x), DownEventOf(log[cur], x));
      && DownPartOf(log, cur + 1, x) == d.Pulled(es)
      && (es != [] ==> !d.wire.Silent? && es == [es[0]] && (es[0].EvAttach? ==> !d.started))
  {
    var done, es := Down(log[..cur], x), DownEventOf(log[cur], x);
    hide Down, DownEventOf, WireOf, Payloads, Concat;
    AtMostOneEvent(log[cur], x);
    assert log[..cur + 1] == log[..cur] + [log[cur]];
    DownPush(log[..cur], log[cur], x);
    if es == [] {
      assert done + es == done;
    } else {
      DownPrefix(log, cur + 1, x);
      PulledEvent(done, es[0], Down(log, x));
    }
  }

  lemma PulledEvent(d: seq<DownEvent>, e: DownEvent, all: seq<DownEvent>)
    requires d + [e] <= all && WireOf(all) != Broken
    ensures !WireOf(all).Silent?
    ensures e.EvAttach? ==> d == []
    ensures Concat(Payloads(d + [e])) == Concat(Payloads(d)) + (if e.EvData? then e.payload else [])
  {
    WireMeaning(all);
    assert all[|d|] == e;
    PayloadsPush(d, e);
    if e.EvData? {
      ConcatPush(Payloads(d), e.payload);
    } else {
      assert Payloads(d) + [] == Payloads(d);
    }
  }

  lemma PulledUp(log: seq<UpMsg>, cur: nat, x: Uuid)
    requires cur < |log|
    ensures var (u, es) := (UpPartOf(log, cur, x), UpEventOf(log[cur], x));
      && UpPartOf(log, cur + 1, x) == u.Pulled(es)
      && (es != [] ==> u.any && es == [es[0]] && (es[0] == EvAck(true) ==> u.ackOk))
  {
    var done, es := Up(log[..cur], x), UpEventOf(log[cur], x);
    assert es != [] ==> es == [es[0]];
    hide Up, UpEventOf, Bodies;
    assert log[..cur + 1] == log[..cur] + [log[cur]];
    UpPush(log[..cur], log[cur], x);
    if es == [] {
      assert done + es == done;
    } else {
      UpPrefix(log, cur + 1, x);
      PulledUpEvent(done, es[0], Up(log, x));
    }
  }

  lemma PulledUpEvent(u: seq<UpEvent>, e: UpEvent, all: seq<UpEvent>)
    requires u + [e] <= all
    ensures all != [] && (e == EvAck(true) ==> EvAck(true) in all)
    ensures EvAck(true) in u + [e] <==> EvAck(true) in u || e == EvAck(true)
    ensures Bodies(u + [e]) == Bodies(u) + (if e.EvBody? then [e.body] else [])
  {
    assert all[|u|] == e;
    BodiesPush(u, e);
    hide Bodies;
  }

  // ---- Every step keeps the invariant of every session ----

  /** A step of session y writes its own events to the provider, and none of another session. */
  lemma CallLogs(c: Channel, y: Uuid, l: CallStep, x: Uuid)
    requires c.WellFormed() && CallReady(c.At(y), c.b.open, l)
    ensures var c' := CallApply(c, y, l);
      && c'.WellFormed()
      && DownPartOf(c'.b.down, c.downCur, x)
         == DownPartOf(c.b.down, c.downCur, x).Pushed(if x == y then CallEvents(c.At(y), l) else [])
  {
    hide DownPartOf, UpPartOf;
    if l.RelayWrite? {
      var p := c.At(y).call.payload;
      ParseIffFrame(Frame(y, p), y, p);
      PushedDown(c.b.down, c.downCur, DownBinary(Frame(y, p)), x);
    } else {
      PushedDown(c.b.down, c.downCur, if l.WriteAttach? then Attach(y) else Detach(y, ByRelay), x);
    }
  }

  lemma CallKeeps(c: Channel, y: Uuid, l: CallStep, x: Uuid)
    requires c.Inv() && CallReady(c.At(y), c.b.open, l)
    ensures CallApply(c, y, l).WellFormed() && CallApply(c, y, l).ViewOf(x).Inv()
  {
    hide View.Inv, DownPartOf, UpPartOf;
    var v, c' := c.ViewOf(x), CallApply(c, y, l);
    CallLogs(c, y, l, x);
    if x == y {
      assert c'.ViewOf(x) == CallView(v, l);
      CallViewKeeps(v, l);
    } else {
      assert c'.ViewOf(x) == v;
    }
  }

  lemma ReadOther(c: Channel, x: Uuid)
    requires c.Inv() && LoopEnabled(c, Read) && UpEventOf(c.p.up[c.upCur], x) == []
    ensures ReadUp(c).WellFormed() && ReadUp(c).ViewOf(x).Inv()
  {
    hide View.Inv, DownPartOf, UpPartOf, Parse;
    var v, c' := c.ViewOf(x), ReadUp(c);
    PulledUp(c.p.up, c.upCur, x);
    LoopMoves(v, c'.loop, v.open);
    assert c'.ViewOf(x) == v.(loop := c'.loop);
  }

  lemma ReadOwn(c: Channel, x: Uuid)
    requires c.Inv() && LoopEnabled(c, Read) && UpEventOf(c.p.up[c.upCur], x) != []
    ensures ReadUp(c).WellFormed() && ReadUp(c).ViewOf(x).Inv()
  {
    hide View.Inv, DownPartOf, UpPartOf, Parse, UpPart.Pulled;
    var v, c', m := c.ViewOf(x), ReadUp(c), c.p.up[c.upCur];
    PulledUp(c.p.up, c.upCur, x);
    if m.Attached? {
      ReadAckKeeps(v, m.ok);
      assert c'.ViewOf(x) == v.(u := v.u.Pulled([EvAck(m.ok)]), waiting := false,
                                loop := if v.waiting then Answering(v.x, m.ok) else Reading);
    } else {
      var body := UpEventOf(m, x)[0].body;
      ReadBodyKeeps(v, body);
      assert c'.ViewOf(x) == v.(u := v.u.Pulled([EvBody(body)]),
                                loop := if v.registered then Delivering(v.x, body) else Reading);
    }
  }

  predicate OnSession(l: LoopStep) {
    l.Answer? || l.Deliver? || l.Unregister? || l.WriteDetach?
  }

  /** A step of the read loop on session c.loop.sid. */
  lemma OnSessionOther(c: Channel, l: LoopStep, x: Uuid)
    requires c.Inv() && LoopEnabled(c, l) && OnSession(l) && c.loop.sid != x
    ensures LoopApply(c, l).WellFormed() && LoopApply(c, l).ViewOf(x).Inv()
  {
    hide View.Inv, DownPartOf, UpPartOf;
    var v, c' := c.ViewOf(x), LoopApply(c, l);
    PushedDown(c.b.down, c.downCur, Detach(c.loop.sid, ByLoop), x);
    LoopMoves(v, c'.loop, v.open);
    assert c'.ViewOf(x) == v.(loop := c'.loop);
  }

  lemma OnSessionOwn(c: Channel, l: LoopStep)
    requires c.Inv() && LoopEnabled(c, l) && OnSession(l)
    ensures LoopApply(c, l).WellFormed() && LoopApply(c, l).ViewOf(c.loop.sid).Inv()
  {
    hide View.Inv, DownPartOf, UpPartOf;
    var v := c.ViewOf(c.loop.sid);
    PushedDown(c.b.down, c.downCur, Detach(v.x, ByLoop), v.x);
    match l
    case Answer => AnswerKeeps(v);
    case Deliver(ok) => DeliverKeeps(v, ok);
    case Unregister => LoopClosesSession(v, true);
    case WriteDetach(ok) => LoopClosesSession(v, ok);
  }

  lemma ClosedAtTheEnd(v: View)
    requires v.Inv()
    ensures v.loop.Unmapping? || v.loop.DrainSessions? || v.loop.DrainWaiters? || v.loop.Ended? || v.loop.Aborted? ==>
              !v.open
  {
  }

  /** The steps that change no more than the position of the loop and the agent's state. */
  lemma LoopMovesKeeps(c: Channel, l: LoopStep, x: Uuid)
    requires c.Inv() && LoopEnabled(c, l)
    requires !OnSession(l) && !l.Read? && !l.DropSessions? && !l.DropWaiters?
    ensures LoopApply(c, l).WellFormed() && LoopApply(c, l).ViewOf(x).Inv()
  {
    hide DownPartOf, UpPartOf, View.Inv;
    assert c.WellFormed() && c.ViewOf(x).Inv();
    hide Channel.Inv;
    ClosedAtTheEnd(c.ViewOf(x));
    var v, c' := c.ViewOf(x), LoopApply(c, l);
    PushedDown(c.b.down, c.downCur, Reply, x);
    assert c'.ViewOf(x) == v.(loop := c'.loop, open := c'.b.open);
    LoopMoves(v, c'.loop, c'.b.open);
  }

  lemma DrainKeeps(c: Channel, l: LoopStep, x: Uuid)
    requires c.Inv() && LoopEnabled(c, l) && (l.DropSessions? || l.DropWaiters?)
    ensures LoopApply(c, l).WellFormed() && LoopApply(c, l).ViewOf(x).Inv()
  {
    hide DownPartOf, UpPartOf;
    var v, c' := c.ViewOf(x), LoopApply(c, l);
    if l.DropSessions? {
      UnregisterKeeps(v);
      LoopMoves(v.(registered := false), DrainWaiters, v.open);
    } else {
      DropWaitersKeeps(v);
      assert c'.ViewOf(x) == v.(s := if v.waiting then Offer(v.s, false) else v.s, waiting := false, loop := Ended);
    }
  }

  lemma LoopKeeps(c: Channel, l: LoopStep, x: Uuid)
    requires c.Inv() && LoopEnabled(c, l)
    ensures LoopApply(c, l).WellFormed() && LoopApply(c, l).ViewOf(x).Inv()
  {
    hide View.Inv, ReadUp, UpEventOf;
    if OnSession(l) {
      if c.loop.sid == x { OnSessionOwn(c, l); } else { OnSessionOther(c, l, x); }
    } else if l.Read? {
      if UpEventOf(c.p.up[c.upCur], x) == [] { ReadOther(c, x); } else { ReadOwn(c, x); }
    } else if l.DropSessions? || l.DropWaiters? {
      DrainKeeps(c, l, x);
    } else {
      LoopMovesKeeps(c, l, x);
    }
  }

  lemma DownNotBroken(c: Channel, x: Uuid)
    requires c.Inv()
    ensures !DownPartOf(c.b.down, c.downCur, x).wire.Broken?
  {
    assert c.ViewOf(x).WireInv();
  }

  /** What no message from the broker changes. */
  predicate OnlyReadsDown(c: Channel, c': Channel) {
    && c'.b == c.b && c'.p.up == c.p.up && c'.upCur == c.upCur && c'.loop == c.loop && c'.downCur == c.downCur + 1
  }

  lemma ReadDownOtherFields(c: Channel, dialOk: bool, x: Uuid)
    requires ProvEnabled(c, ProvRead(dialOk)) && DownEventOf(c.b.down[c.downCur], x) == []
    ensures var c' := ReadDown(c, dialOk);
      OnlyReadsDown(c, c') && c'.At(x) == c.At(x) && (x in c'.p.tcp <==> x in c.p.tcp)
      && (c'.prov.Dropping? ==> c.prov.Dropping? && c'.prov.sid == c.prov.sid)
      && ((c'.prov.Acking? || c'.prov.Writing? || c'.prov.Dropping?) ==> c'.prov.sid != x)
      && !c'.prov.Handshaking?
  {
    hide Parse;
  }

  lemma ReadDownOther(c: Channel, dialOk: bool, x: Uuid)
    requires c.Inv() && ProvEnabled(c, ProvRead(dialOk))
    requires DownEventOf(c.b.down[c.downCur], x) == []
    ensures ReadDown(c, dialOk).WellFormed() && ReadDown(c, dialOk).ViewOf(x).Inv()
  {
    hide View.Inv, DownPartOf, UpPartOf, ReadDown, DownEventOf;
    DownNotBroken(c, x);
    assert c.WellFormed() && c.ViewOf(x).Inv();
    hide Channel.Inv;
    var v, c' := c.ViewOf(x), ReadDown(c, dialOk);
    PulledDown(c.b.down, c.downCur, x);
    ReadDownOtherFields(c, dialOk, x);
    ProvMoves(v, c'.prov);
    assert c'.ViewOf(x) == v.(prov := c'.prov);
  }

  lemma ReadDownOwnFields(c: Channel, dialOk: bool, x: Uuid)
    requires ProvEnabled(c, ProvRead(dialOk)) && c.prov.Serving? && DownEventOf(c.b.down[c.downCur], x) != []
    ensures var (m, c', e) := (c.b.down[c.downCur], ReadDown(c, dialOk), DownEventOf(c.b.down[c.downCur], x)[0]);
      && OnlyReadsDown(c, c')
      && (if m.Attach? && dialOk
          then x in c'.p.tcp && c'.prov == Acking(x, true)
               && c'.At(x) == c.At(x).(dialed := true, written := [], pump := Pumping)
          else c'.At(x) == c.At(x))
      && (m.Detach? ==> x !in c'.p.tcp && c'.prov == Serving)
      && (!m.Detach? && !(m.Attach? && dialOk) ==> (x in c'.p.tcp <==> x in c.p.tcp))
      && (m.DownBinary? ==> e.EvData? && c'.prov == if x in c.p.tcp then Writing(x, e.payload) else Serving)
      && (m.Attach? ==> e.EvAttach?)
      && (m.Attach? && !dialOk ==> c'.prov == Acking(x, false))
      && (m.Detach? ==> e.EvDetach?)
      && !m.Reply?
  {
    hide Parse;
  }

  lemma ReadDownOwn(c: Channel, dialOk: bool, x: Uuid)
    requires c.Inv() && ProvEnabled(c, ProvRead(dialOk)) && c.prov.Serving?
    requires DownEventOf(c.b.down[c.downCur], x) != []
    ensures ReadDown(c, dialOk).WellFormed() && ReadDown(c, dialOk).ViewOf(x).Inv()
  {
    hide View.Inv, DownPartOf, UpPartOf, DownPart.Pulled, ReadDown, DownEventOf;
    DownNotBroken(c, x);
    assert c.WellFormed() && c.ViewOf(x).Inv();
    hide Channel.Inv;
    var v, c', m := c.ViewOf(x), ReadDown(c, dialOk), c.b.down[c.downCur];
    var e := DownEventOf(m, x)[0];
    PulledDown(c.b.down, c.downCur, x);
    ReadDownOwnFields(c, dialOk, x);
    if m.Detach? {
      UnmapKeeps(v);
      ProvIgnores(v.(mapped := false), Serving, e);
      assert c'.ViewOf(x) == v.(mapped := false, d := v.d.Pulled([e]), prov := Serving);
    } else if m.DownBinary? && v.mapped {
      ReadDataKeeps(v, e.payload);
      assert c'.ViewOf(x) == v.(d := v.d.Pulled([e]), prov := Writing(v.x, e.payload));
    } else if m.Attach? && dialOk {
      DialKeeps(v);
      assert c'.ViewOf(x) == v.(d := v.d.Pulled([e]), mapped := true, prov := Acking(v.x, true),
                                s := v.s.(dialed := true, written := [], pump := Pumping));
    } else {
      ProvIgnores(v, c'.prov, e);
      assert c'.ViewOf(x) == v.(d := v.d.Pulled([e]), prov := c'.prov);
    }
  }

  /** The handshake takes a message of some session for its reply, and fails. */
  lemma HandshakeFails(c: Channel, dialOk: bool, x: Uuid)
    requires c.Inv() && ProvEnabled(c, ProvRead(dialOk)) && c.prov.Handshaking?
    requires DownEventOf(c.b.down[c.downCur], x) != []
    ensures ReadDown(c, dialOk).WellFormed() && ReadDown(c, dialOk).ViewOf(x).Inv()
  {
    hide View.Inv, DownPartOf, UpPartOf, Parse, DownPart.Pulled;
    var v, e := c.ViewOf(x), DownEventOf(c.b.down[c.downCur], x)[0];
    DownNotBroken(c, x);
    PulledDown(c.b.down, c.downCur, x);
    NothingMapped(v);
    ProvIgnores(v, Stopped, e);
    assert ReadDown(c, dialOk).ViewOf(x) == v.(d := v.d.Pulled([e]), prov := Stopped);
  }

  lemma NothingMapped(v: View)
    requires v.Inv() && v.prov.Handshaking?
    ensures !v.mapped
  {
  }

  lemma ProvKeeps(c: Channel, l: ProvStep, x: Uuid)
    requires c.Inv() && ProvEnabled(c, l)
    ensures ProvApply(c, l).WellFormed() && ProvApply(c, l).ViewOf(x).Inv()
  {
    hide View.Inv, DownPartOf, UpPartOf, ReadDown, Parse;
    if !l.ProvRead? {
      ProvOwnSteps(c, l, x);
    } else if DownEventOf(c.b.down[c.downCur], x) == [] {
      ReadDownOther(c, l.dialOk, x);
    } else if c.prov.Handshaking? {
      HandshakeFails(c, l.dialOk, x);
    } else {
      ReadDownOwn(c, l.dialOk, x);
    }
  }

  /** The provider writes an ack, writes to a TCP connection, gives one up, or stops. */
  lemma ProvOwnSteps(c: Channel, l: ProvStep, x: Uuid)
    requires c.Inv() && ProvEnabled(c, l) && !l.ProvRead?
    ensures ProvApply(c, l).WellFormed() && ProvApply(c, l).ViewOf(x).Inv()
  {
    hide View.Inv, DownPartOf, UpPartOf;
    assert c.WellFormed() && c.ViewOf(x).Inv();
    hide Channel.Inv;
    var v, c' := c.ViewOf(x), ProvApply(c, l);
    if l.ProvAck? {
      PushedUp(c.p.up, c.upCur, Attached(c.prov.sid, c.prov.ok), x);
    }
    if l.ProvStop? || c.prov.sid != x {
      ProvMoves(v, c'.prov);
      assert c'.ViewOf(x) == v.(prov := c'.prov);
    } else {
      match l
      case ProvAck(ok) => ProvAckKeeps(v, ok);
      case ProvWrite(n, ok) => ProvWriteKeeps(v, n, ok);
      case ProvDrop => ProvDropKeeps(v);
    }
  }

  lemma PumpKeeps(c: Channel, y: Uuid, l: PumpStep, x: Uuid)
    requires c.Inv() && PumpReady(c.At(y), l)
    ensures PumpApply(c, y, l).WellFormed() && PumpApply(c, y, l).ViewOf(x).Inv()
  {
    hide View.Inv, DownPartOf, UpPartOf;
    var v, c' := c.ViewOf(x), PumpApply(c, y, l);
    if l.PumpWrite? {
      var chunk := c.At(y).pump.chunk;
      ParseIffFrame(Frame(y, chunk), y, chunk);
      PushedUp(c.p.up, c.upCur, UpBinary(Frame(y, chunk)), x);
    }
    if x != y {
      assert c'.ViewOf(x) == v;
    } else {
      assert c'.ViewOf(x) == PumpView(v, l);
      if l == PumpWrite(true) { PumpWriteKeeps(v); } else { PumpMoves(v, l); }
    }
  }

  lemma StepKeepsView(c: Channel, l: Label, x: Uuid)
    requires c.Inv() && Enabled(c, l)
    ensures Apply(c, l).WellFormed() && Apply(c, l).ViewOf(x).Inv()
  {
    hide View.Inv, CallApply, LoopApply, ProvApply, PumpApply;
    match l
    case Call(y, step) => CallKeeps(c, y, step, x);
    case Loop(step) => LoopKeeps(c, step, x);
    case Prov(step) => ProvKeeps(c, step, x);
    case Pump(y, step) => PumpKeeps(c, y, step, x);
  }

  lemma StepKeeps(c: Channel, l: Label)
    requires c.Inv() && Enabled(c, l)
    ensures Apply(c, l).Inv()
  {
    hide View.Inv, Apply;
    var any: Uuid := UUID(seq(SESSION_ID_SIZE, _ => 0));
    StepKeepsView(c, l, any);
    forall x: Uuid
      ensures Apply(c, l).ViewOf(x).Inv()
    {
      StepKeepsView(c, l, x);
    }
  }

  lemma NewChannelInv()
    ensures NEW_CHANNEL.Inv()
  {
  }
}
