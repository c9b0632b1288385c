/** Which channel an attach call gets: the one mapped under its id when it looked, and no other. */
module AttachCalls {
  import opened Base
  import opened Frames
  import opened Sessions
  import opened Channels
  import opened ChannelProofs
  import opened BrokerRuns
  import opened TunnelGuarantees
  import opened TunnelLimits
  import opened TunnelEndings

  // ---- The channel found ----

  /** Some earlier state of the run maps the id to the object, and the call has not begun there. */
  ghost predicate MappedEarlier(ws: seq<World>, i: nat, call: nat, a: Attaching)
    requires i <= |ws|
  {
    exists j :: 0 <= j < i && call !in ws[j].calls && a.chId in ws[j].channels && ws[j].channels[a.chId] == a.ref
  }

  /** A call that holds an object was given it before, or looks up just that id now, and finds what is mapped to it. */
  lemma CallsComeFromLookups(w: World, l: WorldLabel, call: nat)
    requires WorldInv(w) && WorldEnabled(w, l) && call in WorldApply(w, l).calls
    requires forall r :: r in w.objs ==> w.objs[r].WellFormed()
    ensures var a := WorldApply(w, l).calls[call];
      || (call in w.calls && w.calls[call] == a)
      || (call !in w.calls && l == Lookup(call, a.chId) && a.chId in w.channels && w.channels[a.chId] == a.ref)
  {
    hide WorldInv, Channel.WellFormed, Apply, Enabled, IsInternal;
    match l
    case UnmapId(t) =>
    case _ =>
  }

  /**
   In every state of every run, an attach call that has looked up an id holds an
   object registered under that id, the one the broker mapped it to at the lookup.
   */
  lemma {:induction false} CallHoldsItsChannel(ws: seq<World>, i: nat, call: nat)
    requires IsRun(ws) && i < |ws| && call in ws[i].calls
    ensures var (w, a) := (ws[i], ws[i].calls[call]);
      && a.ref in w.objs && a.ref in w.ids && w.ids[a.ref] == a.chId
      && MappedEarlier(ws, i, call, a)
    decreases i
  {
    RunKeeps(ws, i);
    hide Channel.Inv, WorldApply, Owns, Mapped;
    assert Found(ws[i], ws[i].calls[call]);
    assert i > 0;
    RunKeeps(ws, i - 1);
    assert Next(ws[i - 1], ws[i]);
    var l :| WorldEnabled(ws[i - 1], l) && ws[i] == WorldApply(ws[i - 1], l);
    CallsComeFromLookups(ws[i - 1], l, call);
    if call in ws[i - 1].calls {
      CallHoldsItsChannel(ws, i - 1, call);
    }
  }

  // ---- The session begun ----

  /** A call that takes a session id begins that session on the object it holds, and touches no other session. */
  lemma BeginsOnItsChannel(w: World, call: nat, sid: Uuid, r: Ref, x: Uuid)
    requires WorldInv(w) && WorldEnabled(w, TakeSid(call, sid)) && r in w.objs
    requires forall r :: r in w.objs ==> w.objs[r].WellFormed()
    ensures var (w', own) := (WorldApply(w, TakeSid(call, sid)), r == w.calls[call].ref && x == sid);
      && r in w'.objs
      && (if own then w.objs[r].At(x).call.Idle? && w'.objs[r].At(x).call.Inserted? && x in w'.objs[r].b.ackWait
          else w'.objs[r].At(x) == w.objs[r].At(x) && (x in w'.objs[r].b.ackWait <==> x in w.objs[r].b.ackWait))
  {
    hide WorldInv, Channel.WellFormed, UpPartOf;
  }

  lemma CallStaysIdle(c: Channel, l: Label, x: Uuid)
    requires c.WellFormed() && Enabled(c, l) && l != Call(x, InsertWaiter)
    ensures c.At(x).call.Idle? ==> Apply(c, l).At(x).call.Idle?
  {
    if l.Call? {
      CallLeavesOthers(c, l.sid, l.call, x);
    } else {
      OthersLeaveCall(c, l, x);
    }
    hide Apply;
  }

  lemma OnlyTakeSidBegins(w: World, l: WorldLabel, r: Ref, x: Uuid)
    requires WorldInv(w) && WorldEnabled(w, l) && r in w.objs && w.objs[r].At(x).call.Idle?
    requires forall r :: r in w.objs ==> w.objs[r].WellFormed()
    requires !(l.TakeSid? && w.calls[l.call].ref == r && l.sid == x)
    ensures r in WorldApply(w, l).objs && WorldApply(w, l).objs[r].At(x).call.Idle?
  {
    hide Channel.WellFormed, WorldInv, WorldApply, Enabled;
    match l
    case UnmapId(t) => UnmapStaysIdle(w, t, r, x);
    case DropSessionsOf(t) => DrainStaysIdle(w, l, t, r, x);
    case DropWaitersOf(t) => DrainStaysIdle(w, l, t, r, x);
    case CloseAborted(t) => DrainStaysIdle(w, l, t, r, x);
    case Within(t, step) => WithinStaysIdle(w, t, step, r, x);
    case TakeSid(call, sid) => BeginsOnItsChannel(w, call, sid, r, x);
    case RegisterProvider(_, _) => LookupsStayIdle(w, l, r, x);
    case Lookup(_, _) => LookupsStayIdle(w, l, r, x);
  }

  lemma LookupsStayIdle(w: World, l: WorldLabel, r: Ref, x: Uuid)
    requires WorldEnabled(w, l) && r in w.objs && w.objs[r].At(x).call.Idle? && (l.RegisterProvider? || l.Lookup?)
    requires forall r :: r in w.objs ==> w.objs[r].WellFormed()
    ensures r in WorldApply(w, l).objs && WorldApply(w, l).objs[r].At(x).call.Idle?
  {
    hide Channel.WellFormed;
  }

  lemma UnmapStaysIdle(w: World, t: Ref, r: Ref, x: Uuid)
    requires WorldInv(w) && WorldEnabled(w, UnmapId(t)) && r in w.objs && w.objs[r].At(x).call.Idle?
    requires forall r :: r in w.objs ==> w.objs[r].WellFormed()
    ensures var w' := WorldApply(w, UnmapId(t)); r in w'.objs && w'.objs[r].At(x).call.Idle?
  {
    UnmapFindsOwn(w, t);
    hide WorldInv, Unmapped, Channel.WellFormed;
  }

  lemma WithinStaysIdle(w: World, t: Ref, step: Label, r: Ref, x: Uuid)
    requires WorldEnabled(w, Within(t, step)) && r in w.objs && w.objs[r].At(x).call.Idle?
    requires forall r :: r in w.objs ==> w.objs[r].WellFormed()
    ensures var w' := WorldApply(w, Within(t, step)); r in w'.objs && w'.objs[r].At(x).call.Idle?
  {
    if t == r {
      CallStaysIdle(w.objs[r], step, x);
    }
    hide Apply, Enabled, Channel.WellFormed;
  }

  lemma DrainStaysIdle(w: World, l: WorldLabel, t: Ref, r: Ref, x: Uuid)
    requires WorldInv(w) && WorldEnabled(w, l) && t in w.objs && r in w.objs && w.objs[r].At(x).call.Idle?
    requires forall r :: r in w.objs ==> w.objs[r].WellFormed()
    requires l == DropSessionsOf(t) || l == DropWaitersOf(t) || l == CloseAborted(t)
    ensures r in WorldApply(w, l).objs && WorldApply(w, l).objs[r].At(x).call.Idle?
  {
    OwnsAt(w, t);
    DrainsOwn(w, t, l);
    hide WorldInv, WorldEnabled, WorldApply, LoopApply, Channel.WellFormed;
    if t == r {
      CallStaysIdle(w.objs[r], Loop(DrainStep(l)), x);
    }
  }

  /** A session that has begun on an object was asked for under the object's id. */
  ghost predicate AskedFor(w: World, r: Ref, x: Uuid) {
    r in w.objs && !w.objs[r].At(x).call.Idle? ==>
      r in w.ids && (r, x) in w.askedFor && w.askedFor[(r, x)] == w.ids[r]
  }

  lemma StaysAskedFor(w: World, l: WorldLabel, r: Ref, x: Uuid)
    requires WorldInv(w) && WorldEnabled(w, l) && AskedFor(w, r, x)
    requires forall r :: r in w.objs ==> w.objs[r].WellFormed()
    ensures AskedFor(WorldApply(w, l), r, x)
  {
    if r !in w.objs {
      NewObjects(w, l, r);
    } else {
      OwnsAt(w, r);
      IdsStay(w, l, r, x);
      if l.TakeSid? && w.calls[l.call].ref == r && l.sid == x {
        assert Found(w, w.calls[l.call]);
      } else if w.objs[r].At(x).call.Idle? {
        OnlyTakeSidBegins(w, l, r, x);
      }
    }
    hide WorldInv, WorldApply, WorldEnabled, Channel.WellFormed;
  }

  lemma IdsStay(w: World, l: WorldLabel, r: Ref, x: Uuid)
    requires WorldEnabled(w, l) && r in w.objs && r in w.ids
    requires forall r :: r in w.objs ==> w.objs[r].WellFormed()
    ensures var w' := WorldApply(w, l);
      && r in w'.ids && w'.ids[r] == w.ids[r]
      && (if l.TakeSid? && w.calls[l.call].ref == r && l.sid == x
          then (r, x) in w'.askedFor && w'.askedFor[(r, x)] == w.calls[l.call].chId
          else (r, x) in w.askedFor ==> (r, x) in w'.askedFor && w'.askedFor[(r, x)] == w.askedFor[(r, x)])
  {
    hide Channel.WellFormed, Apply, Enabled, IsInternal;
  }

  /** In every state of every run, every session of a channel was begun by a call that asked for the channel's id. */
  lemma {:induction false} SessionsAreAskedFor(ws: seq<World>, i: nat, r: Ref, x: Uuid)
    requires IsRun(ws) && i < |ws|
    ensures AskedFor(ws[i], r, x)
    decreases i
  {
    if i > 0 {
      hide Channel.Inv, WorldApply, AskedFor, Ownership;
      SessionsAreAskedFor(ws, i - 1, r, x);
      RunKeeps(ws, i - 1);
      assert Next(ws[i - 1], ws[i]);
      var l :| WorldEnabled(ws[i - 1], l) && ws[i] == WorldApply(ws[i - 1], l);
      StaysAskedFor(ws[i - 1], l, r, x);
    }
  }
}
