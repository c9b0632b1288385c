/** What holds of every session, channel and attach call in every run of the broker. */
module TunnelGuarantees {
  import opened Base
  import opened Frames
  import opened Sessions
  import opened Channels
  import opened ChannelProofs
  import opened BrokerRuns

  /** The invariant of one session at one point of a run, in terms of the channel itself. */
  lemma SessionAt(ws: seq<World>, i: nat, r: Ref, x: Uuid)
    requires IsRun(ws) && i < |ws| && r in ws[i].objs
    ensures ws[i].objs[r].WellFormed()
    ensures ws[i].objs[r].ViewOf(x).Inv()
  {
    hide View.Inv;
    RunKeeps(ws, i);
  }

  // ---- Consumer to provider ----

  /**
   The frames of session x on the wire carry exactly the payloads its relay sent,
   which are those it read from the consumer but for at most the last; and the
   bytes written to the local TCP connection are a prefix of them.
   */
  lemma ConsumerToProvider(ws: seq<World>, i: nat, r: Ref, x: Uuid)
    requires IsRun(ws) && i < |ws| && r in ws[i].objs
    ensures var (c, s) := (ws[i].objs[r], ws[i].objs[r].At(x));
      && Payloads(Down(c.b.down, x)) == s.sent
      && s.read == s.sent + s.unsent && |s.unsent| <= 1
      && s.written <= Concat(s.sent)
  {
    var c := ws[i].objs[r];
    SessionAt(ws, i, r, x);
    DownPrefix(c.b.down, c.downCur, x);
    PayloadsPrefix(Down(c.b.down[..c.downCur], x), Down(c.b.down, x));
    ConcatPrefix(Payloads(Down(c.b.down[..c.downCur], x)), Payloads(Down(c.b.down, x)));
  }

  /**
   If the session is still mapped when the provider reads the detach the relay
   wrote, all the payloads sent have been written: all those the relay read,
   unless a write to the agent failed.
   */
  lemma DeliveredAtDetach(ws: seq<World>, i: nat, r: Ref, x: Uuid)
    requires IsRun(ws) && i < |ws| && r in ws[i].objs
    requires var c := ws[i].objs[r];
      c.prov.Serving? && x in c.p.tcp && c.downCur < |c.b.down| && c.b.down[c.downCur] == Detach(x, ByRelay)
    ensures var s := ws[i].objs[r].At(x);
      s.written == Concat(s.sent) && (s.unsent == [] ==> s.written == Concat(s.read))
  {
    var c := ws[i].objs[r];
    SessionAt(ws, i, r, x);
    hide View.Inv, Down, UpPartOf, WireOf, Payloads, Concat, IsRun;
    MappedHasWritten(c.ViewOf(x));
    NothingAfterDetach(c.b.down, c.downCur, x);
    assert c.At(x).sent + [] == c.At(x).sent;
  }

  /** A mapped session the provider is not busy with has had all it received written. */
  lemma MappedHasWritten(v: View)
    requires v.Inv() && v.mapped && !v.ProviderBusy()
    ensures v.s.written == v.d.received && v.d.sent == v.s.sent && v.s.read == v.s.sent + v.s.unsent
    ensures !v.d.wire.Broken?
  {
  }

  /** All the payloads of a session come before the detach of its relay. */
  lemma NothingAfterDetach(log: seq<DownMsg>, cur: nat, x: Uuid)
    requires cur < |log| && log[cur] == Detach(x, ByRelay) && WireOf(Down(log, x)) != Broken
    ensures Payloads(Down(log, x)) == Payloads(Down(log[..cur], x))
  {
    hide Down, WireOf, Payloads;
    assert log[..cur + 1] == log[..cur] + [Detach(x, ByRelay)];
    DownPush(log[..cur], Detach(x, ByRelay), x);
    DownPrefix(log, cur + 1, x);
    NoDataAfterRelayDetach(Down(log[..cur], x), Down(log, x));
  }

  // ---- Provider to consumer ----

  predicate BusyWith(loop: LoopPc, x: Uuid) {
    (loop.Delivering? || loop.CloseDelete? || loop.CloseDetach?) && loop.sid == x
  }

  /**
   The bodies written to the consumer are, in order and without a gap, chunks
   its pump wrote, starting after those read before the session was registered; all
   those read since then, as long as it is registered and the read loop is not
   busy with it.
   */
  lemma ProviderToConsumer(ws: seq<World>, i: nat, r: Ref, x: Uuid)
    requires IsRun(ws) && i < |ws| && r in ws[i].objs
    ensures var (c, s) := (ws[i].objs[r], ws[i].objs[r].At(x));
      && Bodies(Up(c.p.up, x)) == s.pumped
      && s.skipped <= |s.pumped|
      && s.out <= s.pumped[s.skipped..]
      && (s.skipped == 0 ==> s.out <= s.pumped)
      && c.upCur <= |c.p.up|
      && (x in c.b.sessions && !BusyWith(c.loop, x) ==>
            var seen := Bodies(Up(c.p.up[..c.upCur], x)); s.skipped <= |seen| && s.out == seen[s.skipped..])
  {
    var c := ws[i].objs[r];
    SessionAt(ws, i, r, x);
    UpPrefix(c.p.up, c.upCur, x);
    BodiesPrefix(Up(c.p.up[..c.upCur], x), Up(c.p.up, x));
    assert c.ViewOf(x).WindowInv();
  }

  // ---- Wire discipline ----

  lemma WireDiscipline(ws: seq<World>, i: nat, r: Ref, x: Uuid)
    requires IsRun(ws) && i < |ws| && r in ws[i].objs
    ensures ws[i].objs[r].WellFormed()
    ensures var (c, s) := (ws[i].objs[r], ws[i].objs[r].At(x));
      && WirePattern(Down(c.b.down, x))
      && (|Down(c.b.down, x)| > 1 ==> EvAck(true) in Up(c.p.up[..c.upCur], x) && s.dialed)
      && !(x in c.b.ackWait && x in c.b.sessions)
      && (x in c.b.sessions ==> EvAck(true) in Up(c.p.up[..c.upCur], x) && s.dialed)
  {
    var c := ws[i].objs[r];
    SessionAt(ws, i, r, x);
    var down := Down(c.b.down, x);
    WireMeaning(down);
    if |down| > 1 {
      LongWire(down);
    }
  }

  /** More than the attach on the wire means data or a detach. */
  lemma LongWire(es: seq<DownEvent>)
    requires WireOf(es) != Broken && |es| > 1
    ensures Payloads(es) != [] || WireOf(es) !in {Silent, Open}
  {
    hide WireOf, Payloads;
    WireMeaning(es);
    PayloadsPush(es[..|es| - 1], es[|es| - 1]);
    assert es == es[..|es| - 1] + [es[|es| - 1]];
    var e := es[|es| - 1];
    assert e in es;
    match e
    case EvAttach =>
    case EvData(_) =>
    case EvDetach(who) => match who { case ByLoop => case ByRelay => }
  }

  // ---- Attach calls ----

  /**
   A waiter channel is sent at most one result and has room for it; once the
   read loop has drained the waiters, every attach call at its wait has its result.
   */
  lemma AttachAnswered(ws: seq<World>, i: nat, r: Ref, x: Uuid)
    requires IsRun(ws) && i < |ws| && r in ws[i].objs
    ensures var (c, s) := (ws[i].objs[r], ws[i].objs[r].At(x));
      && s.offers <= 1 && s.lost == 0
      && (c.loop.Ended? && s.call.Waiting? ==> |s.inbox| == 1)
  {
    SessionAt(ws, i, r, x);
  }

  // ---- Ownership ----

  /** What a handler is about to delete by its id is its own channel, not deleted before. */
  lemma DeletesOwnChannel(ws: seq<World>, i: nat, r: Ref)
    requires IsRun(ws) && i < |ws| && r in ws[i].objs
    ensures var w := ws[i];
      && r in w.ids && w.deleted[r] <= 1
      && (w.objs[r].loop.Unmapping? || w.objs[r].loop.Aborting? ==>
            w.ids[r] in w.channels && w.channels[w.ids[r]] == r && w.deleted[r] == 0)
      && (w.deleted[r] == 1 ==> r in w.fetched && w.fetched[r] == Some(r))
  {
    RunKeeps(ws, i);
    assert Owns(ws[i], r);
  }

  /** At most one read loop per channel id is reading, however often the id is reclaimed. */
  lemma OneReaderPerId(ws: seq<World>, i: nat, r1: Ref, r2: Ref)
    requires IsRun(ws) && i < |ws| && r1 in ws[i].objs && r2 in ws[i].objs
    requires r1 in ws[i].ids && r2 in ws[i].ids && ws[i].ids[r1] == ws[i].ids[r2]
    requires Mapped(ws[i].objs[r1].loop) && Mapped(ws[i].objs[r2].loop)
    ensures r1 == r2
  {
    RunKeeps(ws, i);
    assert Owns(ws[i], r1) && Owns(ws[i], r2);
  }

  // ---- A session id is registered once ----

  /** The attach call of the session has taken an ok result and registered. */
  predicate WasRegistered(s: Session) {
    !s.call.Idle? && !s.call.Inserted? && !s.call.Waiting? && !s.call.Failing? && !s.call.Acked?
  }

  /** Past its registration, or failed before it, and not in `sessions`. */
  predicate Gone(c: Channel, x: Uuid) {
    x !in c.b.sessions && WasRegistered(c.At(x))
  }

  lemma StaysGone(c: Channel, l: Label, x: Uuid)
    requires c.WellFormed() && Enabled(c, l) && Gone(c, x)
    ensures Gone(Apply(c, l), x)
  {
    hide CallApply, LoopApply, ProvApply, PumpApply, Gone;
    match l
    case Call(y, step) => StaysGoneInCall(c, y, step, x);
    case Loop(step) => StaysGoneInLoop(c, step, x);
    case Prov(step) => StaysGoneInProv(c, step, x);
    case Pump(y, step) => StaysGoneInPump(c, y, step, x);
  }

  lemma StaysGoneInCall(c: Channel, y: Uuid, l: CallStep, x: Uuid)
    requires c.WellFormed() && CallReady(c.At(y), c.b.open, l) && Gone(c, x)
    ensures Gone(CallApply(c, y, l), x)
  {
    hide UpPartOf;
  }

  lemma StaysGoneInProv(c: Channel, l: ProvStep, x: Uuid)
    requires c.WellFormed() && ProvEnabled(c, l) && Gone(c, x)
    ensures Gone(ProvApply(c, l), x)
  {
    hide Parse;
  }

  lemma StaysGoneInPump(c: Channel, y: Uuid, l: PumpStep, x: Uuid)
    requires c.WellFormed() && PumpReady(c.At(y), l) && Gone(c, x)
    ensures Gone(PumpApply(c, y, l), x)
  {
  }

  lemma StaysGoneInLoop(c: Channel, l: LoopStep, x: Uuid)
    requires c.WellFormed() && LoopEnabled(c, l) && Gone(c, x)
    ensures Gone(LoopApply(c, l), x)
  {
  }

  lemma OwnsAt(w: World, r: Ref)
    requires Ownership(w) && r in w.objs
    ensures Owns(w, r)
  {
  }

  /** The channel takes one of its own steps, or none. */
  ghost predicate StepsTo(c: Channel, c': Channel)
    requires c.WellFormed()
  {
    c' == c || exists step :: Enabled(c, step) && c' == Apply(c, step)
  }

  lemma StepsBy(c: Channel, step: Label)
    requires c.WellFormed() && Enabled(c, step)
    ensures StepsTo(c, Apply(c, step))
  {
    hide Apply;
  }

  /** A step of the broker is, for each channel, one of the channel's own steps or none. */
  lemma ProjectedStep(w: World, l: WorldLabel, r: Ref)
    requires WorldInv(w) && WorldEnabled(w, l) && r in w.objs
    ensures w.objs[r].WellFormed() && r in WorldApply(w, l).objs && StepsTo(w.objs[r], WorldApply(w, l).objs[r])
  {
    assert forall t :: t in w.objs ==> w.objs[t].WellFormed();
    hide Channel.WellFormed, StepsTo, WorldApply, WorldInv, Enabled;
    match l
    case UnmapId(t) => UnmapProjects(w, t, r);
    case DropSessionsOf(t) => DrainProjects(w, l, t, r);
    case DropWaitersOf(t) => DrainProjects(w, l, t, r);
    case CloseAborted(t) => DrainProjects(w, l, t, r);
    case Within(t, step) => WithinProjects(w, t, step, r);
    case TakeSid(call, sid) => TakeSidProjects(w, call, sid, r);
    case RegisterProvider(t, id) => OthersProject(w, l, r);
    case Lookup(call, id) => OthersProject(w, l, r);
  }

  lemma WithinProjects(w: World, t: Ref, step: Label, r: Ref)
    requires WorldEnabled(w, Within(t, step)) && r in w.objs && forall t :: t in w.objs ==> w.objs[t].WellFormed()
    ensures var w' := WorldApply(w, Within(t, step)); r in w'.objs && StepsTo(w.objs[r], w'.objs[r])
  {
    if t == r {
      StepsBy(w.objs[r], step);
    }
    hide Apply, Enabled, Channel.WellFormed;
  }

  lemma TakeSidProjects(w: World, call: nat, sid: Uuid, r: Ref)
    requires WorldEnabled(w, TakeSid(call, sid)) && r in w.objs && forall t :: t in w.objs ==> w.objs[t].WellFormed()
    ensures var w' := WorldApply(w, TakeSid(call, sid)); r in w'.objs && StepsTo(w.objs[r], w'.objs[r])
  {
    if w.calls[call].ref == r {
      StepsBy(w.objs[r], Call(sid, InsertWaiter));
    }
    hide Apply, Channel.WellFormed;
  }

  lemma OthersProject(w: World, l: WorldLabel, r: Ref)
    requires WorldEnabled(w, l) && r in w.objs && forall t :: t in w.objs ==> w.objs[t].WellFormed()
    requires l.RegisterProvider? || l.Lookup?
    ensures var w' := WorldApply(w, l); r in w'.objs && StepsTo(w.objs[r], w'.objs[r])
  {
    hide Channel.WellFormed;
  }

  lemma UnmapProjects(w: World, t: Ref, r: Ref)
    requires WorldInv(w) && WorldEnabled(w, UnmapId(t)) && r in w.objs && w.objs[r].WellFormed()
    ensures r in Unmapped(w, t).objs && StepsTo(w.objs[r], Unmapped(w, t).objs[r])
  {
    UnmapFindsOwn(w, t);
    hide Channel.Inv, Channel.WellFormed, Unmapped, Ownership;
    var step := Loop(if w.objs[t].loop.Aborting? then AbortUnmap else Unmap);
    if t == r {
      StepsBy(w.objs[r], step);
    }
  }

  lemma DrainProjects(w: World, l: WorldLabel, t: Ref, r: Ref)
    requires WorldInv(w) && WorldEnabled(w, l) && t in w.objs && r in w.objs
    requires l == DropSessionsOf(t) || l == DropWaitersOf(t) || l == CloseAborted(t)
    requires forall t :: t in w.objs ==> w.objs[t].WellFormed()
    ensures r in WorldApply(w, l).objs && StepsTo(w.objs[r], WorldApply(w, l).objs[r])
  {
    OwnsAt(w, t);
    DrainsOwn(w, t, l);
    hide WorldInv, WorldEnabled, WorldApply, LoopApply, Channel.WellFormed;
    if t == r {
      StepsBy(w.objs[r], Loop(DrainStep(l)));
    }
  }

  function DrainStep(l: WorldLabel): LoopStep {
    if l.DropSessionsOf? then DropSessions else if l.DropWaitersOf? then DropWaiters else AbortClose
  }

  /** No step of a channel ends it. */
  ghost predicate Preserved(P: Channel -> bool) {
    forall c: Channel, l: Label :: c.Inv() && Enabled(c, l) && P(c) ==> P(Apply(c, l))
  }

  /** What no step of a channel ends holds from one state of a run to all later ones. */
  lemma {:induction false} KeptInRun(ws: seq<World>, j: nat, k: nat, r: Ref, P: Channel -> bool)
    requires IsRun(ws) && j <= k < |ws| && r in ws[j].objs && P(ws[j].objs[r]) && Preserved(P)
    ensures r in ws[k].objs && P(ws[k].objs[r])
    decreases k - j
  {
    if j < k {
      hide Channel.Inv, Apply, WorldApply;
      RunKeeps(ws, j);
      assert Next(ws[j], ws[j + 1]);
      var l :| WorldEnabled(ws[j], l) && ws[j + 1] == WorldApply(ws[j], l);
      ProjectedStep(ws[j], l, r);
      var c, c' := ws[j].objs[r], ws[j + 1].objs[r];
      if c' != c {
        var step :| Enabled(c, step) && c' == Apply(c, step);
        assert P(Apply(c, step));
      }
      KeptInRun(ws, j + 1, k, r, P);
    }
  }

  lemma GoneInRun(ws: seq<World>, j: nat, k: nat, r: Ref, x: Uuid)
    requires IsRun(ws) && j <= k < |ws| && r in ws[j].objs && Gone(ws[j].objs[r], x)
    ensures r in ws[k].objs && Gone(ws[k].objs[r], x)
  {
    hide View.Inv, Gone, Apply;
    forall c: Channel, l: Label | c.Inv() && Enabled(c, l) && Gone(c, x)
      ensures Gone(Apply(c, l), x)
    {
      StaysGone(c, l, x);
    }
    KeptInRun(ws, j, k, r, c => Gone(c, x));
  }

  /** In `sessions` a session id is absent, then present, then absent for good. */
  lemma RegisteredOnce(ws: seq<World>, i: nat, j: nat, k: nat, r: Ref, x: Uuid)
    requires IsRun(ws) && i <= j <= k < |ws|
    requires r in ws[i].objs && x in ws[i].objs[r].b.sessions
    requires r in ws[j].objs && x !in ws[j].objs[r].b.sessions
    ensures r in ws[k].objs && x !in ws[k].objs[r].b.sessions
  {
    PastRegistration(ws, i, j, r, x);
    GoneInRun(ws, j, k, r, x);
  }

  lemma {:induction false} PastRegistration(ws: seq<World>, i: nat, j: nat, r: Ref, x: Uuid)
    requires IsRun(ws) && i <= j < |ws|
    requires r in ws[i].objs && x in ws[i].objs[r].b.sessions
    requires r in ws[j].objs && x !in ws[j].objs[r].b.sessions
    ensures Gone(ws[j].objs[r], x)
    decreases j - i
  {
    hide View.Inv, Apply, WorldApply;
    RunKeeps(ws, i);
    assert Next(ws[i], ws[i + 1]);
    var l :| WorldEnabled(ws[i], l) && ws[i + 1] == WorldApply(ws[i], l);
    ProjectedStep(ws[i], l, r);
    var c, c' := ws[i].objs[r], ws[i + 1].objs[r];
    if x in c'.b.sessions {
      PastRegistration(ws, i + 1, j, r, x);
    } else {
      var step :| Enabled(c, step) && c' == Apply(c, step);
      SessionAt(ws, i, r, x);
      RegisteredMeans(c.ViewOf(x));
      LeavesRegistered(c, step, x);
      GoneInRun(ws, i + 1, j, r, x);
    }
  }

  lemma RegisteredMeans(v: View)
    requires v.Inv() && v.registered
    ensures WasRegistered(v.s)
  {
  }

  lemma LeavesRegistered(c: Channel, l: Label, x: Uuid)
    requires c.WellFormed() && Enabled(c, l) && WasRegistered(c.At(x))
    requires x in c.b.sessions && x !in Apply(c, l).b.sessions
    ensures Gone(Apply(c, l), x)
  {
    match l
    case Call(_, _) =>
    case Loop(_) =>
    case Prov(_) =>
    case Pump(_, _) =>
  }
}
