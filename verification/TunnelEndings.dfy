/**
 How channels begin and how sessions end: the reply and who waits for it, what the
 two callers of closeSession send, what the provider does on a detach, and that
 every attach and every ack is answered.
 */
module TunnelEndings {
  import opened Base
  import opened Frames
  import opened Sessions
  import opened Channels
  import opened ChannelProofs
  import opened BrokerRuns
  import opened TunnelGuarantees
  import opened TunnelLimits

  // ---- Logs only grow ----

  lemma LogsGrow(c: Channel, l: Label)
    requires c.WellFormed() && Enabled(c, l)
    ensures var c' := Apply(c, l);
      c.b.down <= c'.b.down && c.p.up <= c'.p.up && c.downCur <= c'.downCur && c.upCur <= c'.upCur
  {
    hide UpPartOf, Parse, Frame;
    match l
    case Call(_, _) =>
    case Loop(_) =>
    case Prov(_) =>
    case Pump(_, _) =>
  }

  lemma EventsStay(c: Channel, l: Label, x: Uuid, e: DownEvent)
    requires c.WellFormed() && Enabled(c, l) && e in Down(c.b.down, x)
    ensures e in Down(Apply(c, l).b.down, x)
  {
    LogsGrow(c, l);
    var log, log' := c.b.down, Apply(c, l).b.down;
    hide Down, Apply;
    DownPrefix(log', |log|, x);
    assert log'[..|log|] == log;
  }

  // ---- The reply ----

  /**
   The reply has been written exactly if the handler has gone on to its read loop,
   and has not if it aborts; the provider serves only with the reply as its first
   message.
   */
  predicate RepliedFirst(c: Channel)
    requires c.WellFormed()
  {
    && (Reply in c.b.down <==> !(c.loop.Registered? || c.loop.Aborting? || c.loop.AbortClosing? || c.loop.Aborted?))
    && (c.prov.Handshaking? ==> c.downCur == 0)
    && (c.prov.Handshaking? || c.prov.Stopped? || (0 < c.downCur && c.b.down[0] == Reply))
  }

  lemma CallsWriteNoReply(c: Channel, y: Uuid, l: CallStep)
    requires c.WellFormed() && Enabled(c, Call(y, l))
    ensures var c' := Apply(c, Call(y, l));
      && (Reply in c'.b.down <==> Reply in c.b.down)
      && c'.loop == c.loop && c'.prov == c.prov && c'.downCur == c.downCur
  {
    hide UpPartOf, Frame;
  }

  lemma LoopReplies(c: Channel, l: LoopStep)
    requires c.WellFormed() && Enabled(c, Loop(l))
    ensures var c' := Apply(c, Loop(l));
      && (Reply in c'.b.down <==> Reply in c.b.down || l == WriteReply(true))
      && c'.prov == c.prov && c'.downCur == c.downCur
      && (c'.loop.Registered? || c'.loop.Aborting? || c'.loop.AbortClosing? || c'.loop.Aborted? <==>
            l == WriteReply(false) || l.AbortUnmap? || l.AbortClose?)
      && (c.loop.Registered? || c.loop.Aborting? || c.loop.AbortClosing? || c.loop.Aborted? <==>
            l.WriteReply? || l.AbortUnmap? || l.AbortClose?)
  {
    hide Parse;
  }

  lemma StillRepliedFirst(c: Channel, l: Label)
    requires c.WellFormed() && Enabled(c, l) && RepliedFirst(c)
    ensures Apply(c, l).WellFormed() && RepliedFirst(Apply(c, l))
  {
    LogsGrow(c, l);
    match l
    case Call(y, step) => CallsWriteNoReply(c, y, step); hide Apply; StaysWellFormed(c, l);
    case Loop(step) => LoopReplies(c, step); hide Apply; StaysWellFormed(c, l);
    case Prov(step) => hide Parse;
    case Pump(y, step) => hide Frame;
  }

  lemma StaysWellFormed(c: Channel, l: Label)
    requires c.WellFormed() && Enabled(c, l)
    ensures Apply(c, l).WellFormed()
  {
    hide UpPartOf, Parse, Frame;
    match l
    case Call(_, _) =>
    case Loop(_) =>
    case Prov(_) =>
    case Pump(_, _) =>
  }

  /** So it is in every state of every run; and a channel past its read loop has its agent closed. */
  lemma ReplyComesFirst(ws: seq<World>, k: nat, r: Ref)
    requires IsRun(ws) && k < |ws| && r in ws[k].objs
    ensures var c := ws[k].objs[r];
      && c.WellFormed() && RepliedFirst(c)
      && (c.loop.Unmapping? || c.loop.DrainSessions? || c.loop.DrainWaiters? || c.loop.Ended? || c.loop.Aborted? ==>
            !c.b.open)
  {
    SessionAt(ws, k, r, UUID(seq(SESSION_ID_SIZE, _ => 0)));
    assert RepliedFirst(NEW_CHANNEL);
    hide View.WaiterInv, View.AckInv, View.WireInv, View.DeliveryInv, View.WindowInv, RepliedFirst, Apply;
    forall c: Channel, l: Label | c.Inv() && Enabled(c, l) && c.WellFormed() && RepliedFirst(c)
      ensures Apply(c, l).WellFormed() && RepliedFirst(Apply(c, l))
    {
      StillRepliedFirst(c, l);
    }
    AlwaysInRun(ws, k, r, (c: Channel) => c.WellFormed() && RepliedFirst(c));
  }

  // ---- The relay's detach ----

  predicate RelayRuns(s: Session) {
    s.call.Relaying? || s.call.Holding? || s.call.ExitDelete? || s.call.ExitDetach?
  }

  /** A registered session's relay runs, or it is finished and has sent its detach, if that could be written. */
  predicate RelayCloses(c: Channel, x: Uuid) {
    var s := c.At(x);
    && (s.trail.registered ==> RelayRuns(s) || s.call.Finished?)
    && (RelayRuns(s) ==> s.trail.registered)
    && (s.trail.registered && s.call.Finished? && !s.trail.relayLost ==> EvDetach(ByRelay) in Down(c.b.down, x))
  }

  /** An attach call or relay leaves another session's part alone. */
  lemma CallLeavesOthers(c: Channel, y: Uuid, l: CallStep, x: Uuid)
    requires c.WellFormed() && Enabled(c, Call(y, l))
    ensures x != y ==> Apply(c, Call(y, l)).At(x) == c.At(x)
    ensures x == y ==> Apply(c, Call(y, l)).At(x) == CallSession(c.At(x), |UpPartOf(c.p.up, c.upCur, x).seen|, l)
  {
    hide UpPartOf, Frame, CallBroker;
  }

  lemma DetachIsSent(c: Channel, x: Uuid)
    requires c.WellFormed() && Enabled(c, Call(x, RelayDetach(true)))
    ensures EvDetach(ByRelay) in Down(Apply(c, Call(x, RelayDetach(true))).b.down, x)
  {
    DownPush(c.b.down, Detach(x, ByRelay), x);
    hide Down, UpPartOf;
  }

  lemma CallStillCloses(c: Channel, y: Uuid, l: CallStep, x: Uuid)
    requires c.WellFormed() && Enabled(c, Call(y, l)) && RelayCloses(c, x)
    ensures RelayCloses(Apply(c, Call(y, l)), x)
  {
    hide Apply, Down, UpPartOf;
    CallLeavesOthers(c, y, l, x);
    if EvDetach(ByRelay) in Down(c.b.down, x) {
      EventsStay(c, Call(y, l), x, EvDetach(ByRelay));
    }
    if x == y && l == RelayDetach(true) {
      DetachIsSent(c, x);
    }
  }

  /** No step but the session's own attach call and relay touches what the relay leaves behind. */
  lemma OthersLeaveCall(c: Channel, l: Label, x: Uuid)
    requires c.WellFormed() && Enabled(c, l) && !l.Call?
    ensures var (s, s') := (c.At(x), Apply(c, l).At(x));
      s'.call == s.call && s'.trail.registered == s.trail.registered && s'.trail.relayLost == s.trail.relayLost
  {
    if l.Loop? {
      LoopLeavesCall(c, l.loop, x);
    } else {
      ProviderLeavesTrail(c, l, x);
    }
    hide Apply, Enabled;
  }

  lemma LoopLeavesCall(c: Channel, l: LoopStep, x: Uuid)
    requires c.WellFormed() && Enabled(c, Loop(l))
    ensures var (s, s') := (c.At(x), Apply(c, Loop(l)).At(x));
      s'.call == s.call && s'.trail.registered == s.trail.registered && s'.trail.relayLost == s.trail.relayLost
  {
    hide Parse;
  }

  /** The provider's side touches neither the broker nor what a session's end is recorded in. */
  lemma ProviderLeavesTrail(c: Channel, l: Label, x: Uuid)
    requires c.WellFormed() && Enabled(c, l) && (l.Prov? || l.Pump?)
    ensures var (c', s, s') := (Apply(c, l), c.At(x), Apply(c, l).At(x));
      s'.call == s.call && s'.trail == s.trail && c'.loop == c.loop && c'.b == c.b
  {
    hide Parse, Frame;
    match l
    case Prov(_) =>
    case Pump(_, _) =>
  }

  lemma StillCloses(c: Channel, l: Label, x: Uuid)
    requires c.Inv() && Enabled(c, l) && RelayCloses(c, x)
    ensures RelayCloses(Apply(c, l), x)
  {
    assert c.WellFormed();
    hide Channel.Inv, Apply, Enabled, Down;
    if l.Call? {
      CallStillCloses(c, l.sid, l.call, x);
    } else {
      OthersLeaveCall(c, l, x);
      if EvDetach(ByRelay) in Down(c.b.down, x) {
        EventsStay(c, l, x, EvDetach(ByRelay));
      }
    }
  }

  /**
   A session that was registered at some point of a run and whose relay has finished
   by a later one has sent its detach, unless the detach could not be written.
   */
  lemma FinishedRelayHasDetached(ws: seq<World>, j: nat, k: nat, r: Ref, x: Uuid)
    requires IsRun(ws) && j <= k < |ws| && r in ws[j].objs && x in ws[j].objs[r].b.sessions
    ensures r in ws[k].objs
    ensures var (c, s) := (ws[k].objs[r], ws[k].objs[r].At(x));
      && (RelayRuns(s) || s.call.Finished?)
      && (s.call.Finished? ==> EvDetach(ByRelay) in Down(c.b.down, x) || s.trail.relayLost)
  {
    SessionAt(ws, j, r, x);
    RegisteredRelays(ws[j].objs[r].ViewOf(x));
    ClosesInRun(ws, j, r, x);
    RegisteredStays(ws, j, k, r, x);
    ClosesInRun(ws, k, r, x);
    hide Down, View.Inv;
  }

  lemma RegisteredRelays(v: View)
    requires v.Inv() && v.registered
    ensures RelayRuns(v.s)
  {
  }

  lemma ClosesInRun(ws: seq<World>, k: nat, r: Ref, x: Uuid)
    requires IsRun(ws) && k < |ws| && r in ws[k].objs
    ensures RelayCloses(ws[k].objs[r], x)
  {
    assert RelayCloses(NEW_CHANNEL, x);
    hide View.Inv, RelayCloses, Apply;
    forall c: Channel, l: Label | c.Inv() && Enabled(c, l) && RelayCloses(c, x)
      ensures RelayCloses(Apply(c, l), x)
    {
      StillCloses(c, l, x);
    }
    AlwaysInRun(ws, k, r, c => RelayCloses(c, x));
  }

  predicate HasRegistered(c: Channel, x: Uuid) {
    c.At(x).trail.registered
  }

  lemma StaysRegistered(c: Channel, l: Label, x: Uuid)
    requires c.WellFormed() && Enabled(c, l) && HasRegistered(c, x)
    ensures HasRegistered(Apply(c, l), x)
  {
    hide UpPartOf, Frame;
    if !l.Call? {
      OthersLeaveCall(c, l, x);
    } else {
      CallLeavesOthers(c, l.sid, l.call, x);
      assert l.sid == x ==> CallReady(c.At(x), c.b.open, l.call);
    }
    hide Apply;
  }

  lemma RegisteredStays(ws: seq<World>, j: nat, k: nat, r: Ref, x: Uuid)
    requires IsRun(ws) && j <= k < |ws| && r in ws[j].objs && HasRegistered(ws[j].objs[r], x)
    ensures r in ws[k].objs && HasRegistered(ws[k].objs[r], x)
  {
    hide View.Inv, HasRegistered, Apply;
    forall c: Channel, l: Label | c.Inv() && Enabled(c, l) && HasRegistered(c, x)
      ensures HasRegistered(Apply(c, l), x)
    {
      StaysRegistered(c, l, x);
    }
    KeptInRun(ws, j, k, r, c => HasRegistered(c, x));
  }

  // ---- The read loop's detach ----

  /** The read loop is in the middle of closing the session. */
  predicate LoopCloses(c: Channel, x: Uuid) {
    (c.loop.CloseDelete? || c.loop.CloseDetach?) && c.loop.sid == x
  }

  /** A consumer that refused a body is being unregistered and detached, or that is done, if it could be written. */
  predicate RefusalCloses(c: Channel, x: Uuid) {
    var s := c.At(x);
    && (LoopCloses(c, x) ==> s.trail.refused)
    && (s.trail.refused ==> s.trail.registered)
    && (s.trail.refused && !(LoopCloses(c, x) && c.loop.CloseDelete?) ==> x !in c.b.sessions)
    && (c.loop.Delivering? && c.loop.sid == x ==> !s.trail.refused)
    && (s.trail.refused && !LoopCloses(c, x) && !s.trail.loopLost ==> EvDetach(ByLoop) in Down(c.b.down, x))
  }

  lemma CallLeavesRefusal(c: Channel, y: Uuid, l: CallStep, x: Uuid)
    requires c.WellFormed() && Enabled(c, Call(y, l)) && RefusalCloses(c, x) && RelayCloses(c, x)
    ensures RefusalCloses(Apply(c, Call(y, l)), x)
  {
    hide Apply, Down, UpPartOf;
    CallLeavesOthers(c, y, l, x);
    CallLeavesLoop(c, y, l);
    if EvDetach(ByLoop) in Down(c.b.down, x) {
      EventsStay(c, Call(y, l), x, EvDetach(ByLoop));
    }
  }

  lemma CallLeavesLoop(c: Channel, y: Uuid, l: CallStep)
    requires c.WellFormed() && Enabled(c, Call(y, l))
    ensures var c' := Apply(c, Call(y, l));
      && c'.loop == c.loop
      && c'.b.sessions <= if l.Register? then c.b.sessions + {y} else c.b.sessions
  {
    hide UpPartOf, Frame;
  }

  /** What a step of the read loop does to one session's end. */
  lemma LoopOnEnd(c: Channel, l: LoopStep, x: Uuid)
    requires c.WellFormed() && Enabled(c, Loop(l))
    ensures var (c', s, s') := (Apply(c, Loop(l)), c.At(x), Apply(c, Loop(l)).At(x));
      var own := OnSession(l) && c.loop.sid == x;
      && c'.b.sessions <= c.b.sessions
      && s'.trail.registered == s.trail.registered
      && s'.trail.refused == (s.trail.refused || (own && l == Deliver(false)))
      && (s'.trail.loopLost == if own && l.WriteDetach? then !l.ok else s.trail.loopLost)
      && (LoopCloses(c', x) <==> own && (l == Deliver(false) || l.Unregister?))
      && (own && l.Unregister? ==> c'.loop.CloseDetach? && x !in c'.b.sessions)
      && (own && l == Deliver(false) ==> c'.loop.CloseDelete? && c.loop.Delivering?)
      && (LoopCloses(c, x) ==> own && if c.loop.CloseDelete? then l.Unregister? else l.WriteDetach?)
      && (c'.loop.Delivering? && c'.loop.sid == x ==> l.Read? && x in c.b.sessions)
  {
    hide Parse;
  }

  lemma LoopDetachIsSent(c: Channel, x: Uuid)
    requires c.WellFormed() && Enabled(c, Loop(WriteDetach(true))) && c.loop.sid == x
    ensures EvDetach(ByLoop) in Down(Apply(c, Loop(WriteDetach(true))).b.down, x)
  {
    DownPush(c.b.down, Detach(x, ByLoop), x);
    hide Down;
  }

  lemma LoopKeepsRefusal(c: Channel, l: LoopStep, x: Uuid)
    requires c.WellFormed() && Enabled(c, Loop(l)) && RefusalCloses(c, x)
    requires c.loop.Delivering? && c.loop.sid == x ==> c.At(x).trail.registered
    requires x in c.b.sessions ==> c.At(x).trail.registered
    ensures RefusalCloses(Apply(c, Loop(l)), x)
  {
    hide Apply, Down;
    LoopOnEnd(c, l, x);
    if EvDetach(ByLoop) in Down(c.b.down, x) {
      EventsStay(c, Loop(l), x, EvDetach(ByLoop));
    }
    if l == WriteDetach(true) && c.loop.sid == x {
      LoopDetachIsSent(c, x);
    }
  }

  lemma ProviderLeavesRefusal(c: Channel, l: Label, x: Uuid)
    requires c.WellFormed() && Enabled(c, l) && (l.Prov? || l.Pump?) && RefusalCloses(c, x)
    ensures RefusalCloses(Apply(c, l), x)
  {
    ProviderLeavesTrail(c, l, x);
    hide Down, Apply, Enabled;
  }

  /** Only a registered session is delivered to. */
  lemma DeliversToRegistered(v: View)
    requires v.Inv() && (v.registered || v.Delivers())
    ensures RelayRuns(v.s) || v.s.call.Finished?
    ensures v.registered ==> RelayRuns(v.s)
  {
  }

  /** Both callers of closeSession leave the session closed. */
  ghost predicate Closing(c: Channel, x: Uuid) {
    RelayCloses(c, x) && RefusalCloses(c, x) && (c.loop.Delivering? && c.loop.sid == x ==> c.At(x).trail.registered)
  }

  lemma StillClosing(c: Channel, l: Label, x: Uuid)
    requires c.Inv() && Enabled(c, l) && Closing(c, x)
    ensures Closing(Apply(c, l), x)
  {
    assert c.WellFormed() && c.ViewOf(x).Inv();
    if x in c.b.sessions {
      RegisteredRelays(c.ViewOf(x));
    }
    StillCloses(c, l, x);
    DeliveringStays(c, l, x);
    hide Channel.Inv, View.Inv, Apply, Enabled, RefusalCloses, Down;
    if l.Call? {
      CallLeavesRefusal(c, l.sid, l.call, x);
    } else if l.Loop? {
      LoopKeepsRefusal(c, l.loop, x);
    } else {
      ProviderLeavesRefusal(c, l, x);
    }
  }

  lemma DeliveringStays(c: Channel, l: Label, x: Uuid)
    requires c.WellFormed() && Enabled(c, l)
    requires c.loop.Delivering? && c.loop.sid == x ==> c.At(x).trail.registered
    requires x in c.b.sessions ==> c.At(x).trail.registered
    ensures var c' := Apply(c, l); c'.loop.Delivering? && c'.loop.sid == x ==> c'.At(x).trail.registered
  {
    if c.At(x).trail.registered {
      StaysRegistered(c, l, x);
    }
    hide UpPartOf, Parse, Frame;
    match l
    case Call(_, _) =>
    case Loop(_) =>
    case Prov(_) =>
    case Pump(_, _) =>
  }

  /**
   A session whose consumer refused a body is unregistered once the read loop is done
   with it, and has the read loop's detach sent, unless that could not be written.
   */
  lemma RefusedSessionIsDetached(ws: seq<World>, k: nat, r: Ref, x: Uuid)
    requires IsRun(ws) && k < |ws| && r in ws[k].objs
    requires ws[k].objs[r].At(x).trail.refused && !LoopCloses(ws[k].objs[r], x)
    ensures var c := ws[k].objs[r];
      x !in c.b.sessions && (EvDetach(ByLoop) in Down(c.b.down, x) || c.At(x).trail.loopLost)
  {
    assert Closing(NEW_CHANNEL, x);
    hide View.Inv, Closing, Apply;
    forall c: Channel, l: Label | c.Inv() && Enabled(c, l) && Closing(c, x)
      ensures Closing(Apply(c, l), x)
    {
      StillClosing(c, l, x);
    }
    AlwaysInRun(ws, k, r, c => Closing(c, x));
    assert RefusalCloses(ws[k].objs[r], x) by {
      hide *;
      ClosingMeans(ws[k].objs[r], x);
    }
  }

  lemma ClosingMeans(c: Channel, x: Uuid)
    requires Closing(c, x)
    ensures RefusalCloses(c, x)
  {
  }

  // ---- The provider's answers ----

  predicate HasDetach(es: seq<DownEvent>) {
    EvDetach(ByRelay) in es || EvDetach(ByLoop) in es
  }

  predicate HasAck(es: seq<UpEvent>) {
    EvAck(true) in es || EvAck(false) in es
  }

  function ReadDownOf(c: Channel, x: Uuid): seq<DownEvent>
    requires c.WellFormed()
  {
    Down(c.b.down[..c.downCur], x)
  }

  function ReadUpOf(c: Channel, x: Uuid): seq<UpEvent>
    requires c.WellFormed()
  {
    Up(c.p.up[..c.upCur], x)
  }

  /** After a detach, and after the end of its pump, a session is not mapped. */
  predicate Unmaps(c: Channel, x: Uuid)
    requires c.WellFormed()
  {
    && (HasDetach(ReadDownOf(c, x)) ==> x !in c.p.tcp)
    && (c.At(x).pump.PumpDone? ==> x !in c.p.tcp)
  }

  /** An attach that has been read is answered, or its answer is next, or the provider has stopped. */
  predicate Answers(c: Channel, x: Uuid)
    requires c.WellFormed()
  {
    ReadDownOf(c, x) != [] ==> HasAck(Up(c.p.up, x)) || (c.prov.Acking? && c.prov.sid == x) || c.prov.Stopped?
  }

  /** An ack that has been read has taken its waiter out of the map. */
  predicate AckTaken(c: Channel, x: Uuid)
    requires c.WellFormed()
  {
    HasAck(ReadUpOf(c, x)) ==> x !in c.b.ackWait
  }

  /** Steps that read nothing at the provider map nothing there, and start no pump. */
  lemma MapsNothing(c: Channel, l: Label, x: Uuid)
    requires c.WellFormed() && Enabled(c, l) && !(l.Prov? && l.prov.ProvRead?)
    ensures var c' := Apply(c, l);
      && c'.downCur == c.downCur
      && c'.p.tcp <= c.p.tcp
      && (c'.At(x).pump.PumpDone? ==> c.At(x).pump.PumpDone? || x !in c'.p.tcp)
  {
    hide Down, UpPartOf, Parse, Frame;
    match l
    case Call(_, _) =>
    case Loop(_) =>
    case Prov(_) =>
    case Pump(_, _) =>
  }

  lemma SameDownRead(c: Channel, l: Label, x: Uuid)
    requires c.WellFormed() && Enabled(c, l) && !(l.Prov? && l.prov.ProvRead?)
    ensures Apply(c, l).WellFormed() && ReadDownOf(Apply(c, l), x) == ReadDownOf(c, x)
  {
    LogsGrow(c, l);
    MapsNothing(c, l, x);
    hide Down, Apply, Enabled;
    assert Apply(c, l).b.down[..c.downCur] == c.b.down[..c.downCur];
  }

  lemma StillUnmaps(c: Channel, l: Label, x: Uuid)
    requires c.Inv() && Enabled(c, l) && c.WellFormed() && Unmaps(c, x)
    ensures Apply(c, l).WellFormed() && Unmaps(Apply(c, l), x)
  {
    StepKeeps(c, l);
    AttachComesFirst(c, x);
    NotMappedInHandshake(c, x);
    hide Channel.Inv, Down;
    if l.Prov? && l.prov.ProvRead? {
      ReadUnmaps(c, l.prov.dialOk, x);
    } else {
      SameDownRead(c, l, x);
      MapsNothing(c, l, x);
      hide Apply, Enabled;
    }
  }

  lemma NotMappedInHandshake(c: Channel, x: Uuid)
    requires c.Inv() && c.WellFormed()
    ensures c.prov.Handshaking? ==> x !in c.p.tcp
  {
    assert c.ViewOf(x).Inv();
    hide Channel.Inv, View.Inv;
    if c.prov.Handshaking? {
      NothingMapped(c.ViewOf(x));
    }
  }

  /** What one more event means for the two questions asked of the events read. */
  lemma OneMoreEvent(es: seq<DownEvent>, e: DownEvent)
    ensures HasDetach(es + [e]) <==> HasDetach(es) || e.EvDetach?
  {
    if e.EvDetach? {
      assert e.who == ByRelay || e.who == ByLoop by {
        match e.who { case ByRelay => case ByLoop => }
      }
    }
  }

  lemma EventKinds(m: DownMsg, x: Uuid)
    ensures var es := DownEventOf(m, x);
      es != [] ==> (es[0].EvDetach? <==> m.Detach?) && (es[0].EvAttach? <==> m.Attach?)
  {
  }

  lemma ReadUnmaps(c: Channel, dialOk: bool, x: Uuid)
    requires c.WellFormed() && ProvEnabled(c, ProvRead(dialOk)) && Unmaps(c, x) && AttachFirst(c, x)
    requires c.prov.Handshaking? ==> x !in c.p.tcp
    ensures var c' := ReadDown(c, dialOk); c'.WellFormed() && Unmaps(c', x)
  {
    hide Down, ReadDown, DownEventOf, HasDetach;
    var m := c.b.down[c.downCur];
    AtMostOneEvent(m, x);
    EventKinds(m, x);
    var done, e := ReadDownOf(c, x), DownEventOf(m, x);
    if e == [] {
      ReadDownOtherFields(c, dialOk, x);
      assert done + e == done;
    } else {
      OneMoreEvent(done, e[0]);
      NoDetachYet();
      if c.prov.Serving? {
        ReadDownOwnFields(c, dialOk, x);
      } else {
        HandshakeReads(c, dialOk);
      }
    }
  }

  lemma NoDetachYet()
    ensures !HasDetach([])
  {
  }

  /**
   In every state of every run: a session whose detach the provider has read is not
   mapped there, nor is one whose pump has ended.
   */
  lemma DetachUnmaps(ws: seq<World>, k: nat, r: Ref, x: Uuid)
    requires IsRun(ws) && k < |ws| && r in ws[k].objs
    ensures ws[k].objs[r].WellFormed() && Unmaps(ws[k].objs[r], x)
  {
    assert Unmaps(NEW_CHANNEL, x);
    hide View.Inv, Unmaps, Apply;
    forall c: Channel, l: Label | c.Inv() && Enabled(c, l) && c.WellFormed() && Unmaps(c, x)
      ensures Apply(c, l).WellFormed() && Unmaps(Apply(c, l), x)
    {
      StillUnmaps(c, l, x);
    }
    AlwaysInRun(ws, k, r, (c: Channel) => c.WellFormed() && Unmaps(c, x));
  }

  // ---- Every attach that is read is answered ----

  lemma AcksStay(log: seq<UpMsg>, log': seq<UpMsg>, x: Uuid)
    requires log <= log' && HasAck(Up(log, x))
    ensures HasAck(Up(log', x))
  {
    hide Up;
    UpPrefix(log', |log|, x);
    assert log'[..|log|] == log;
  }

  lemma StillAnswers(c: Channel, l: Label, x: Uuid)
    requires c.Inv() && Enabled(c, l) && c.WellFormed() && Answers(c, x)
    ensures Apply(c, l).WellFormed() && Answers(Apply(c, l), x)
  {
    StepKeeps(c, l);
    AttachComesFirst(c, x);
    LogsGrow(c, l);
    hide Channel.Inv, Down, Up;
    if HasAck(Up(c.p.up, x)) {
      AcksStay(c.p.up, Apply(c, l).p.up, x);
    } else if l.Prov? && l.prov.ProvRead? {
      ReadAnswers(c, l.prov.dialOk, x);
    } else if l.Prov? {
      SameDownRead(c, l, x);
      ProviderAnswers(c, l.prov, x);
    } else {
      SameDownRead(c, l, x);
      SameProvider(c, l);
      hide Apply, Enabled;
    }
  }

  lemma SameProvider(c: Channel, l: Label)
    requires c.WellFormed() && Enabled(c, l) && !l.Prov?
    ensures Apply(c, l).prov == c.prov
  {
    hide UpPartOf, Parse, Frame;
    match l
    case Call(_, _) =>
    case Loop(_) =>
    case Pump(_, _) =>
  }

  lemma ReadAnswers(c: Channel, dialOk: bool, x: Uuid)
    requires c.WellFormed() && ProvEnabled(c, ProvRead(dialOk)) && Answers(c, x) && AttachFirst(c, x)
    requires !HasAck(Up(c.p.up, x))
    ensures var c' := ReadDown(c, dialOk); c'.WellFormed() && Answers(c', x)
  {
    hide Down, Up, ReadDown, DownEventOf, HasAck;
    var m := c.b.down[c.downCur];
    AtMostOneEvent(m, x);
    EventKinds(m, x);
    var done, e := ReadDownOf(c, x), DownEventOf(m, x);
    if e == [] {
      ReadDownOtherFields(c, dialOk, x);
      assert done + e == done;
    } else if c.prov.Serving? {
      ReadDownOwnFields(c, dialOk, x);
    } else {
      HandshakeReads(c, dialOk);
      ReplyIsNoEvent(m, x);
    }
  }

  lemma ReplyIsNoEvent(m: DownMsg, x: Uuid)
    ensures m.Reply? ==> DownEventOf(m, x) == []
  {
  }

  lemma ProviderAnswers(c: Channel, l: ProvStep, x: Uuid)
    requires c.WellFormed() && Enabled(c, Prov(l)) && !l.ProvRead? && Answers(c, x) && !HasAck(Up(c.p.up, x))
    requires var c' := Apply(c, Prov(l)); c'.WellFormed() && ReadDownOf(c', x) == ReadDownOf(c, x)
    ensures Answers(Apply(c, Prov(l)), x)
  {
    hide Down, Up;
    if l == ProvAck(true) && c.prov.sid == x {
      UpPush(c.p.up, Attached(x, c.prov.ok), x);
      assert EvAck(c.prov.ok) in Up(c.p.up + [Attached(x, c.prov.ok)], x);
      assert c.prov.ok == true || c.prov.ok == false;
    }
  }

  /**
   In every state of every run, an attach that the provider has read has its ack in
   the log to the broker, unless the ack is what the provider writes next, or its
   connection has ended.
   */
  lemma AttachIsAnswered(ws: seq<World>, k: nat, r: Ref, x: Uuid)
    requires IsRun(ws) && k < |ws| && r in ws[k].objs
    ensures ws[k].objs[r].WellFormed() && Answers(ws[k].objs[r], x)
  {
    assert Answers(NEW_CHANNEL, x);
    hide View.Inv, Answers, Apply;
    forall c: Channel, l: Label | c.Inv() && Enabled(c, l) && c.WellFormed() && Answers(c, x)
      ensures Apply(c, l).WellFormed() && Answers(Apply(c, l), x)
    {
      StillAnswers(c, l, x);
    }
    AlwaysInRun(ws, k, r, (c: Channel) => c.WellFormed() && Answers(c, x));
  }

  // ---- Every ack that is read ends a wait ----

  lemma NoAckBeforeAttach(c: Channel, x: Uuid)
    requires c.Inv() && c.WellFormed() && c.At(x).call.Idle?
    ensures ReadUpOf(c, x) == []
  {
    assert c.ViewOf(x).Inv();
    hide Channel.Inv, View.WindowInv, View.WaiterInv, View.DeliveryInv, Up, Down, WireOf;
    UpPrefix(c.p.up, c.upCur, x);
  }

  lemma OtherStepsTake(c: Channel, l: Label, x: Uuid)
    requires c.WellFormed() && Enabled(c, l) && l != Loop(Read) && l != Call(x, InsertWaiter)
    ensures var c' := Apply(c, l); c'.upCur == c.upCur && (x in c'.b.ackWait ==> x in c.b.ackWait)
  {
    hide UpPartOf, Parse, Frame;
    match l
    case Call(_, _) =>
    case Loop(_) =>
    case Prov(_) =>
    case Pump(_, _) =>
  }

  lemma ReadTakes(c: Channel, x: Uuid)
    requires c.WellFormed() && LoopEnabled(c, Read) && AckTaken(c, x)
    ensures ReadUp(c).WellFormed() && AckTaken(ReadUp(c), x)
  {
    var m := c.p.up[c.upCur];
    assert c.p.up[..c.upCur + 1] == c.p.up[..c.upCur] + [m];
    UpPush(c.p.up[..c.upCur], m, x);
    hide Up, Parse;
  }

  lemma StillTaken(c: Channel, l: Label, x: Uuid)
    requires c.Inv() && Enabled(c, l) && c.WellFormed() && AckTaken(c, x)
    ensures Apply(c, l).WellFormed() && AckTaken(Apply(c, l), x)
  {
    StepKeeps(c, l);
    LogsGrow(c, l);
    if l == Call(x, InsertWaiter) {
      NoAckBeforeAttach(c, x);
    }
    hide Channel.Inv, Up;
    if l == Loop(Read) {
      ReadTakes(c, x);
      hide ReadUp;
    } else if l == Call(x, InsertWaiter) {
      assert Apply(c, l).p == c.p && Apply(c, l).upCur == c.upCur;
      hide Apply, Enabled;
    } else {
      OtherStepsTake(c, l, x);
      hide Apply, Enabled;
      assert Apply(c, l).p.up[..c.upCur] == c.p.up[..c.upCur];
    }
  }

  /**
   In every state of every run, an attach call whose ack has been read waits no
   longer in the map: if it is still at its wait, it has its result or gets it next.
   */
  lemma AckEndsTheWait(ws: seq<World>, k: nat, r: Ref, x: Uuid)
    requires IsRun(ws) && k < |ws| && r in ws[k].objs
    ensures ws[k].objs[r].WellFormed()
    ensures var (c, s) := (ws[k].objs[r], ws[k].objs[r].At(x));
      HasAck(ReadUpOf(c, x)) ==>
        && x !in c.b.ackWait
        && (s.call.Waiting? ==> |s.inbox| == 1 || (c.loop.Answering? && c.loop.sid == x))
  {
    assert AckTaken(NEW_CHANNEL, x);
    SessionAt(ws, k, r, x);
    WaitingMeans(ws[k].objs[r].ViewOf(x));
    hide View.Inv, AckTaken, Apply;
    forall c: Channel, l: Label | c.Inv() && Enabled(c, l) && c.WellFormed() && AckTaken(c, x)
      ensures Apply(c, l).WellFormed() && AckTaken(Apply(c, l), x)
    {
      StillTaken(c, l, x);
    }
    AlwaysInRun(ws, k, r, (c: Channel) => c.WellFormed() && AckTaken(c, x));
    TakenMeans(ws[k].objs[r], x);
  }

  lemma TakenMeans(c: Channel, x: Uuid)
    requires c.WellFormed() && AckTaken(c, x)
    ensures HasAck(ReadUpOf(c, x)) ==> x !in c.b.ackWait
  {
  }

  lemma WaitingMeans(v: View)
    requires v.Inv()
    ensures v.s.call.Waiting? && !v.waiting ==> v.Answers() || |v.s.inbox| == 1
  {
  }

  // ---- Whole sessions ----

  /** A session is dialled, and its attach call has the result. */
  lemma Acked(x: Uuid) returns (ls: seq<Label>, c: Channel)
    ensures Exec(ls) == Some(c) && c.WellFormed()
    ensures c.p == ProviderSide({x}, [Attached(x, true)]) && c.upCur == 1
    ensures c.b == BrokerSide({}, {}, true, [Reply, Attach(x)]) && c.downCur == 2
    ensures c.loop == Reading && c.prov == Serving
    ensures c.At(x) == NO_SESSION.(call := Waiting, inbox := [true], offers := 1, dialed := true, pump := Pumping)
  {
    ls, c := Dialled(x);
    ls, c := Extend(ls, c, Prov(ProvAck(true)));
    ls, c := Extend(ls, c, Loop(Read));
    assert c.loop == Answering(x, true);
    ls, c := Extend(ls, c, Loop(Answer));
  }

  /** And registered. */
  lemma Registered(x: Uuid) returns (ls: seq<Label>, c: Channel)
    ensures Exec(ls) == Some(c) && c.WellFormed()
    ensures c.p == ProviderSide({x}, [Attached(x, true)]) && c.upCur == 1
    ensures c.b == BrokerSide({x}, {}, true, [Reply, Attach(x)]) && c.downCur == 2
    ensures c.loop == Reading && c.prov == Serving
    ensures var s := c.At(x); s.call == Relaying && s.pump == Pumping && s.written == [] && s.out == [] && s.read == []
  {
    ls, c := Acked(x);
    hide UpPartOf;
    ls, c := Extend(ls, c, Call(x, TakeResult));
    ls, c := Extend(ls, c, Call(x, Register));
  }

  /** Its consumer's payload reaches the local connection. */
  lemma Upstream(x: Uuid, payload: Bytes) returns (ls: seq<Label>, c: Channel)
    ensures Exec(ls) == Some(c) && c.WellFormed()
    ensures c.p == ProviderSide({x}, [Attached(x, true)]) && c.upCur == 1
    ensures c.b == BrokerSide({x}, {}, true, [Reply, Attach(x), DownBinary(Frame(x, payload))]) && c.downCur == 3
    ensures c.loop == Reading && c.prov == Serving
    ensures var s := c.At(x);
      s.call == Relaying && s.pump == Pumping && s.written == payload && s.out == [] && s.read == [payload]
  {
    ls, c := Registered(x);
    hide UpPartOf;
    ls, c := Extend(ls, c, Call(x, RelayRead(payload)));
    ls, c := Extend(ls, c, Call(x, RelayWrite(true)));
    ParseIffFrame(Frame(x, payload), x, payload);
    assert c.b.down[2] == DownBinary(Frame(x, payload));
    ls, c := Extend(ls, c, Prov(ProvRead(true)));
    assert c.prov == Writing(x, payload);
    ls, c := Extend(ls, c, Prov(ProvWrite(|payload|, true)));
    assert payload[..|payload|] == payload && [] + payload == payload;
  }

  /** And a chunk of the local connection the consumer. */
  lemma Downstream(x: Uuid, payload: Bytes, chunk: Bytes) returns (ls: seq<Label>, c: Channel)
    ensures Exec(ls) == Some(c) && c.WellFormed()
    ensures c.p.tcp == {x} && c.downCur == 3
    ensures c.b == BrokerSide({x}, {}, true, [Reply, Attach(x), DownBinary(Frame(x, payload))])
    ensures c.loop == Reading && c.prov == Serving
    ensures var s := c.At(x);
      s.call == Relaying && s.pump == Pumping && s.written == payload && s.out == [chunk] && s.read == [payload]
  {
    ls, c := Upstream(x, payload);
    ParseIffFrame(Frame(x, chunk), x, chunk);
    ls, c := Extend(ls, c, Pump(x, PumpRead(chunk)));
    ls, c := Extend(ls, c, Pump(x, PumpWrite(true)));
    assert c.p.up[1] == UpBinary(Frame(x, chunk));
    ls, c := Extend(ls, c, Loop(Read));
    assert c.loop == Delivering(x, chunk);
    ls, c := Extend(ls, c, Loop(Deliver(true)));
  }

  /** The consumer goes: the relay takes the session out and detaches it, and the provider unmaps it. */
  lemma ConsumerGone(x: Uuid, payload: Bytes, chunk: Bytes) returns (ls: seq<Label>, c: Channel)
    ensures Exec(ls) == Some(c)
    ensures c.p.tcp == {} && c.b.sessions == {} && c.b.open && c.downCur == 4
    ensures c.b.down == [Reply, Attach(x), DownBinary(Frame(x, payload)), Detach(x, ByRelay)]
    ensures var s := c.At(x); s.call == Finished && s.written == payload && s.out == [chunk] && s.read == [payload]
  {
    ls, c := Downstream(x, payload, chunk);
    hide UpPartOf;
    ls, c := Extend(ls, c, Call(x, RelayEnd));
    ls, c := Extend(ls, c, Call(x, RelayDelete));
    ls, c := Extend(ls, c, Call(x, RelayDetach(true)));
    assert c.b.down[3] == Detach(x, ByRelay);
    ls, c := Extend(ls, c, Prov(ProvRead(true)));
  }

  /** A run with one whole session: bytes in both directions, then the detach, then nothing left of it. */
  lemma WholeSession(x: Uuid, id: Uuid, payload: Bytes, chunk: Bytes) returns (ws: seq<World>)
    ensures IsRun(ws) && 0 in Last(ws).objs
    ensures var (c, s) := (Last(ws).objs[0], Last(ws).objs[0].At(x));
      && s.call == Finished && s.written == payload && s.out == [chunk]
      && c.b.down == [Reply, Attach(x), DownBinary(Frame(x, payload)), Detach(x, ByRelay)]
      && c.p.tcp == {} && c.b.sessions == {} && c.b.open
  {
    var ls, c := ConsumerGone(x, payload, chunk);
    hide IsRun, Exec;
    ws := ExecIsRun(ls, c, id, 0);
  }

  /** The consumer refuses a chunk: the read loop takes the session out and detaches it, and the provider unmaps it. */
  lemma ConsumerRefuses(x: Uuid, chunk: Bytes) returns (ls: seq<Label>, c: Channel)
    ensures Exec(ls) == Some(c)
    ensures c.p.tcp == {} && c.b.sessions == {} && c.b.down == [Reply, Attach(x), Detach(x, ByLoop)]
    ensures c.loop == Reading && c.At(x).trail.refused && c.At(x).out == []
  {
    ls, c := Registered(x);
    ParseIffFrame(Frame(x, chunk), x, chunk);
    ls, c := Extend(ls, c, Pump(x, PumpRead(chunk)));
    ls, c := Extend(ls, c, Pump(x, PumpWrite(true)));
    assert c.p.up[1] == UpBinary(Frame(x, chunk));
    ls, c := Extend(ls, c, Loop(Read));
    assert c.loop == Delivering(x, chunk);
    ls, c := Refused(ls, c, x, chunk);
  }

  lemma Refused(ls: seq<Label>, c: Channel, x: Uuid, chunk: Bytes) returns (ls': seq<Label>, c': Channel)
    requires Exec(ls) == Some(c) && c.WellFormed() && c.loop == Delivering(x, chunk) && c.prov == Serving
    requires c.b == BrokerSide({x}, {}, true, [Reply, Attach(x)]) && c.p.tcp == {x} && c.downCur == 2
    ensures Exec(ls') == Some(c')
    ensures c'.p.tcp == {} && c'.b.sessions == {} && c'.b.down == [Reply, Attach(x), Detach(x, ByLoop)]
    ensures c'.loop == Reading && c'.At(x).trail.refused && c'.At(x).out == c.At(x).out
  {
    ls', c' := Extend(ls, c, Loop(Deliver(false)));
    ls', c' := Extend(ls', c', Loop(Unregister));
    ls', c' := Extend(ls', c', Loop(WriteDetach(true)));
    assert c'.b.down[2] == Detach(x, ByLoop);
    ls', c' := Extend(ls', c', Prov(ProvRead(true)));
  }

  lemma RefusedSession(x: Uuid, id: Uuid, chunk: Bytes) returns (ws: seq<World>)
    ensures IsRun(ws) && 0 in Last(ws).objs
    ensures var c := Last(ws).objs[0];
      && c.p.tcp == {} && c.b.sessions == {} && c.b.down == [Reply, Attach(x), Detach(x, ByLoop)]
      && c.loop == Reading && c.At(x).trail.refused
  {
    var ls, c := ConsumerRefuses(x, chunk);
    hide IsRun, Exec;
    ws := ExecIsRun(ls, c, id, 0);
  }
}
