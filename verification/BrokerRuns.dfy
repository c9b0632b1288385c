/**
 The broker with any number of providers and attach calls. Channels are objects;
 the `channels` map is looked up by id, so that which object a handler removes
 is a consequence of the protocol and not an assumption.
 */
module BrokerRuns {
  import opened Base
  import opened Frames
  import opened Sessions
  import opened Channels
  import opened ChannelProofs

  type Ref = nat

  /** An attach call between its lookup and its session. */
  datatype Attaching = Attaching(ref: Ref, chId: Uuid)

  /**
   channels  Broker.channels
   objs, ids the channel objects ever registered, and their ids
   calls     attach calls that have looked a channel up and not yet taken a session id:
             the object each has found, and the id it asked for
   askedFor  the id asked for by the call that took each session id, as history
   fetched   what the handler of a channel found under its id when it unmapped that id
   deleted   how often a channel has been deleted from `channels`
   */
  datatype World = World(
    channels: map<Uuid, Ref>, objs: map<Ref, Channel>, ids: map<Ref, Uuid>,
    calls: map<nat, Attaching>, askedFor: map<(Ref, Uuid), Uuid>,
    fetched: map<Ref, Option<Ref>>, deleted: multiset<Ref>)

  const NO_CHANNELS := World(map[], map[], map[], map[], map[], map[], multiset{})

  datatype WorldLabel =
    | RegisterProvider(ref: Ref, id: Uuid)
    | Lookup(call: nat, chId: Uuid)
    | TakeSid(call: nat, sid: Uuid)
    | UnmapId(ref: Ref)
    | DropSessionsOf(ref: Ref)
    | DropWaitersOf(ref: Ref)
    | CloseAborted(ref: Ref)
    | Within(ref: Ref, l: Label)

  /** The steps of a channel that involve nothing but the channel itself. */
  predicate IsInternal(l: Label) {
    match l
    case Call(_, step) => !step.InsertWaiter?
    case Loop(step) =>
      && !step.AbortUnmap? && !step.AbortClose?
      && !step.Unmap? && !step.DropSessions? && !step.DropWaiters?
    case Prov(_) => true
    case Pump(_, _) => true
  }

  /** The channel a handler found when it unmapped its id, if the handler is in phase `pc`. */
  predicate Holds(w: World, r: Ref) {
    r in w.objs && r in w.fetched && w.fetched[r].Some? && w.fetched[r].value in w.objs
  }

  predicate WorldEnabled(w: World, l: WorldLabel) {
    match l
    case RegisterProvider(r, id) => r !in w.objs && id !in w.channels
    case Lookup(call, id) => call !in w.calls && id in w.channels
    case TakeSid(call, sid) =>
      call in w.calls && w.calls[call].ref in w.objs && w.objs[w.calls[call].ref].At(sid).call.Idle?
    case UnmapId(r) => r in w.objs && r in w.ids && (w.objs[r].loop.Unmapping? || w.objs[r].loop.Aborting?)
    case DropSessionsOf(r) => Holds(w, r) && w.objs[r].loop.DrainSessions?
    case DropWaitersOf(r) => Holds(w, r) && w.objs[r].loop.DrainWaiters?
    case CloseAborted(r) => Holds(w, r) && w.objs[r].loop.AbortClosing?
    case Within(r, l) => r in w.objs && w.objs[r].WellFormed() && Enabled(w.objs[r], l) && IsInternal(l)
  }

  function Update(w: World, r: Ref, c: Channel): World {
    w.(objs := w.objs[r := c])
  }

  /** removeChannel and AbortProviderRegistration delete by id, whatever object is there. */
  function Unmapped(w: World, r: Ref): World
    requires r in w.objs && r in w.ids
  {
    var id := w.ids[r];
    var found := if id in w.channels then Some(w.channels[id]) else None;
    var w1 := w.(channels := w.channels - {id}, fetched := w.fetched[r := found],
                 deleted := w.deleted + if found.Some? then multiset{found.value} else multiset{});
    var loop := if w.objs[r].loop.Aborting? then AbortClosing
                else if found.Some? then DrainSessions
                else Ended;
    Update(w1, r, w.objs[r].(loop := loop))
  }

  function Moved(w: World, r: Ref, loop: LoopPc): World
    requires r in w.objs
  {
    Update(w, r, w.objs[r].(loop := loop))
  }

  function WorldApply(w: World, l: WorldLabel): World
    requires WorldEnabled(w, l)
    requires forall r :: r in w.objs ==> w.objs[r].WellFormed()
  {
    match l
    case RegisterProvider(r, id) =>
      Update(w, r, NEW_CHANNEL).(channels := w.channels[id := r], ids := w.ids[r := id])
    case Lookup(call, id) => w.(calls := w.calls[call := Attaching(w.channels[id], id)])
    case TakeSid(call, sid) =>
      var (r, id) := (w.calls[call].ref, w.calls[call].chId);
      Update(w, r, Apply(w.objs[r], Call(sid, InsertWaiter)))
        .(calls := w.calls - {call}, askedFor := w.askedFor[(r, sid) := id])
    case UnmapId(r) => Unmapped(w, r)
    case DropSessionsOf(r) =>
      var t := w.fetched[r].value;
      Moved(Update(w, t, w.objs[t].WithoutSessions()), r, DrainWaiters)
    case DropWaitersOf(r) =>
      var t := w.fetched[r].value;
      Moved(Update(w, t, w.objs[t].WithoutWaiters()), r, Ended)
    case CloseAborted(r) =>
      var t := w.fetched[r].value;
      Moved(Update(w, t, w.objs[t].(b := w.objs[t].b.(open := false))), r, Aborted)
    case Within(r, l) => Update(w, r, Apply(w.objs[r], l))
  }

  /** The handler of the channel has not yet unmapped its id. */
  predicate Mapped(loop: LoopPc) {
    !loop.AbortClosing? && !loop.Aborted? && !loop.DrainSessions? && !loop.DrainWaiters? && !loop.Ended?
  }

  ghost predicate Owns(w: World, r: Ref)
    requires r in w.objs
  {
    && r in w.ids
    && (if Mapped(w.objs[r].loop)
        then w.ids[r] in w.channels && w.channels[w.ids[r]] == r && w.deleted[r] == 0
        else r in w.fetched && w.fetched[r] == Some(r) && w.deleted[r] == 1)
  }

  /** The object an attach call has found is registered under the id the call asked for. */
  ghost predicate Found(w: World, a: Attaching) {
    a.ref in w.objs && a.ref in w.ids && w.ids[a.ref] == a.chId
  }

  /** Every handler owns what `channels` says under its id, until it deletes it once. */
  ghost predicate Ownership(w: World) {
    && (forall r :: r in w.objs ==> Owns(w, r))
    && (forall id :: id in w.channels ==>
          w.channels[id] in w.objs && w.channels[id] in w.ids && w.ids[w.channels[id]] == id
          && Mapped(w.objs[w.channels[id]].loop))
    && (forall call :: call in w.calls ==> Found(w, w.calls[call]))
    && (forall r :: r in w.deleted ==> r in w.objs)
  }

  ghost predicate ChannelsInv(w: World) {
    forall r :: r in w.objs ==> w.objs[r].Inv()
  }

  ghost predicate WorldInv(w: World) {
    ChannelsInv(w) && Ownership(w)
  }

  ghost predicate Next(w: World, w': World) {
    && (forall r :: r in w.objs ==> w.objs[r].WellFormed())
    && exists l :: WorldEnabled(w, l) && w' == WorldApply(w, l)
  }

  ghost predicate IsRun(ws: seq<World>) {
    |ws| > 0 && ws[0] == NO_CHANNELS && forall i :: 0 <= i < |ws| - 1 ==> Next(ws[i], ws[i + 1])
  }

  /** A step of a channel that leaves its handler on the same side of the unmapping. */
  lemma InternalKeepsMapped(c: Channel, l: Label)
    requires c.WellFormed() && Enabled(c, l) && (IsInternal(l) || l.Call?)
    ensures Mapped(Apply(c, l).loop) == Mapped(c.loop)
  {
  }

  lemma UpdateOwns(w: World, r: Ref, c: Channel)
    requires Ownership(w) && r in w.objs && Mapped(c.loop) == Mapped(w.objs[r].loop)
    ensures Ownership(Update(w, r, c))
  {
    hide Mapped;
    var w' := Update(w, r, c);
    forall t | t in w'.objs
      ensures Owns(w', t)
    {
      assert Owns(w, t);
    }
    forall call | call in w'.calls
      ensures Found(w', w'.calls[call])
    {
      assert Found(w, w.calls[call]);
    }
    hide Owns, Found;
  }

  lemma UpdateKeeps(w: World, r: Ref, c: Channel)
    requires WorldInv(w) && r in w.objs && c.Inv() && Mapped(c.loop) == Mapped(w.objs[r].loop)
    ensures WorldInv(Update(w, r, c))
  {
    UpdateOwns(w, r, c);
    hide Channel.Inv, Ownership;
  }

  lemma RegisterOwns(w: World, r: Ref, id: Uuid)
    requires Ownership(w) && r !in w.objs && id !in w.channels
    ensures Ownership(Update(w, r, NEW_CHANNEL).(channels := w.channels[id := r], ids := w.ids[r := id]))
  {
    var w' := Update(w, r, NEW_CHANNEL).(channels := w.channels[id := r], ids := w.ids[r := id]);
    RegisterMaps(w, r, id, NEW_CHANNEL);
    forall t | t in w'.objs
      ensures Owns(w', t)
    {
      RegisteredOwns(w, r, id, NEW_CHANNEL, t);
    }
    hide Owns, Mapped;
  }

  lemma RegisteredOwns(w: World, r: Ref, id: Uuid, c: Channel, t: Ref)
    requires Ownership(w) && r !in w.objs && id !in w.channels && Mapped(c.loop) && (t in w.objs || t == r)
    ensures Owns(Update(w, r, c).(channels := w.channels[id := r], ids := w.ids[r := id]), t)
  {
    assert w.deleted[r] == 0;
    assert t in w.objs ==> Owns(w, t);
    hide Mapped;
  }

  lemma RegisterMaps(w: World, r: Ref, id: Uuid, c: Channel)
    requires Ownership(w) && r !in w.objs && id !in w.channels && Mapped(c.loop)
    ensures var w' := Update(w, r, c).(channels := w.channels[id := r], ids := w.ids[r := id]);
      && (forall i :: i in w'.channels ==>
            w'.channels[i] in w'.objs && w'.channels[i] in w'.ids && w'.ids[w'.channels[i]] == i
            && Mapped(w'.objs[w'.channels[i]].loop))
      && (forall call :: call in w'.calls ==> Found(w', w'.calls[call]))
      && (forall r :: r in w'.deleted ==> r in w'.objs)
  {
    hide Mapped, Owns;
  }

  lemma RegisterKeeps(w: World, r: Ref, id: Uuid)
    requires WorldInv(w) && WorldEnabled(w, RegisterProvider(r, id))
    ensures WorldInv(WorldApply(w, RegisterProvider(r, id)))
  {
    NewChannelInv();
    RegisterOwns(w, r, id);
    hide Channel.Inv, Ownership;
  }

  /** A step within a channel, or the first step of an attach call. */
  lemma WithinKeeps(w: World, r: Ref, l: Label)
    requires WorldInv(w) && r in w.objs && Enabled(w.objs[r], l) && (IsInternal(l) || l.Call?)
    ensures w.objs[r].WellFormed() && WorldInv(Update(w, r, Apply(w.objs[r], l)))
  {
    StepKeeps(w.objs[r], l);
    hide View.Inv, Apply;
    InternalKeepsMapped(w.objs[r], l);
    UpdateKeeps(w, r, Apply(w.objs[r], l));
  }

  lemma CallsKeep(w: World, calls: map<nat, Attaching>, askedFor: map<(Ref, Uuid), Uuid>)
    requires WorldInv(w) && forall call :: call in calls ==> Found(w, calls[call])
    ensures WorldInv(w.(calls := calls, askedFor := askedFor))
  {
    hide Channel.Inv;
    forall r | r in w.objs
      ensures Owns(w.(calls := calls, askedFor := askedFor), r)
    {
      assert Owns(w, r);
    }
  }

  lemma FindsById(w: World, id: Uuid)
    requires Ownership(w) && id in w.channels
    ensures Found(w, Attaching(w.channels[id], id)) && forall call :: call in w.calls ==> Found(w, w.calls[call])
  {
    hide Owns, Mapped;
  }

  lemma WorldStepKeeps(w: World, l: WorldLabel)
    requires WorldInv(w) && WorldEnabled(w, l)
    ensures WorldInv(WorldApply(w, l))
  {
    hide View.Inv, Apply, Unmapped, Owns;
    match l
    case RegisterProvider(r, id) => RegisterKeeps(w, r, id);
    case Lookup(call, id) =>
      FindsById(w, id);
      CallsKeep(w, w.calls[call := Attaching(w.channels[id], id)], w.askedFor);
    case TakeSid(call, sid) =>
      var (r, id) := (w.calls[call].ref, w.calls[call].chId);
      WithinKeeps(w, r, Call(sid, InsertWaiter));
      CallsKeep(Update(w, r, Apply(w.objs[r], Call(sid, InsertWaiter))), w.calls - {call}, w.askedFor[(r, sid) := id]);
    case UnmapId(r) => UnmapIdKeeps(w, r);
    case DropSessionsOf(r) => DrainStepKeeps(w, r, l);
    case DropWaitersOf(r) => DrainStepKeeps(w, r, l);
    case CloseAborted(r) => DrainStepKeeps(w, r, l);
    case Within(r, step) => WithinKeeps(w, r, step);
  }

  lemma UnmapFindsOwn(w: World, r: Ref)
    requires Ownership(w) && WorldEnabled(w, UnmapId(r))
    ensures w.ids[r] in w.channels && w.channels[w.ids[r]] == r && w.deleted[r] == 0
    ensures var w' := Unmapped(w, r);
      && w'.channels == w.channels - {w.ids[r]} && w'.fetched == w.fetched[r := Some(r)] && w'.ids == w.ids
      && w'.deleted == w.deleted + multiset{r} && w'.calls == w.calls
      && w'.objs == w.objs[r := w.objs[r].(loop := if w.objs[r].loop.Aborting? then AbortClosing else DrainSessions)]
  {
    assert Owns(w, r);
  }

  lemma UnmapLeavesOthers(w: World, r: Ref, t: Ref)
    requires Ownership(w) && WorldEnabled(w, UnmapId(r)) && t in w.objs && t != r
    ensures Owns(Unmapped(w, r), t)
  {
    assert Owns(w, t) && Owns(w, r);
    UnmapFindsOwn(w, r);
    hide Unmapped, Ownership, Mapped;
  }

  lemma UnmapOwnsSelf(w: World, r: Ref)
    requires Ownership(w) && WorldEnabled(w, UnmapId(r))
    ensures Owns(Unmapped(w, r), r)
  {
    UnmapFindsOwn(w, r);
    hide Unmapped, Ownership;
  }

  lemma UnmapMaps(w: World, r: Ref)
    requires Ownership(w) && WorldEnabled(w, UnmapId(r))
    ensures var w' := Unmapped(w, r);
      && (forall id :: id in w'.channels ==>
            w'.channels[id] in w'.objs && w'.channels[id] in w'.ids && w'.ids[w'.channels[id]] == id
            && Mapped(w'.objs[w'.channels[id]].loop))
      && (forall call :: call in w'.calls ==> Found(w', w'.calls[call]))
      && (forall t :: t in w'.deleted ==> t in w'.objs)
  {
    UnmapFindsOwn(w, r);
    hide Unmapped, Owns, Mapped;
  }

  /** What a handler deletes is its own channel. */
  lemma UnmapsOwn(w: World, r: Ref)
    requires Ownership(w) && WorldEnabled(w, UnmapId(r))
    ensures Unmapped(w, r).fetched[r] == Some(r)
    ensures Ownership(Unmapped(w, r))
    ensures Unmapped(w, r).objs[r] ==
            w.objs[r].(loop := if w.objs[r].loop.Aborting? then AbortClosing else DrainSessions)
  {
    var w' := Unmapped(w, r);
    hide Unmapped, Owns, Mapped;
    UnmapFindsOwn(w, r);
    UnmapOwnsSelf(w, r);
    forall t | t in w'.objs && t != r
      ensures Owns(w', t)
    {
      UnmapLeavesOthers(w, r, t);
    }
    UnmapMaps(w, r);
  }

  lemma UnmapIdKeeps(w: World, r: Ref)
    requires WorldInv(w) && WorldEnabled(w, UnmapId(r))
    ensures WorldInv(Unmapped(w, r))
  {
    hide View.Inv, Ownership;
    UnmapsOwn(w, r);
    var step := Loop(if w.objs[r].loop.Aborting? then AbortUnmap else Unmap);
    StepKeeps(w.objs[r], step);
    assert Unmapped(w, r).objs == w.objs[r := Apply(w.objs[r], step)];
  }

  /** So what it drains or closes afterwards is its own channel, too. */
  lemma DrainsOwn(w: World, r: Ref, l: WorldLabel)
    requires WorldInv(w) && WorldEnabled(w, l) && r in w.objs && Owns(w, r)
    requires l == DropSessionsOf(r) || l == DropWaitersOf(r) || l == CloseAborted(r)
    ensures w.fetched[r] == Some(r)
    ensures var step := if l.DropSessionsOf? then DropSessions
                        else if l.DropWaitersOf? then DropWaiters else AbortClose;
      LoopEnabled(w.objs[r], step) && WorldApply(w, l) == Update(w, r, LoopApply(w.objs[r], step))
  {
    assert forall t :: t in w.objs ==> w.objs[t].WellFormed();
    hide Channel.Inv, Channel.WellFormed, Ownership;
    if l.DropSessionsOf? {
      DropsOwnSessions(w, r);
    } else if l.DropWaitersOf? {
      DropsOwnWaiters(w, r);
    } else {
      ClosesOwn(w, r);
    }
    hide WorldApply, LoopApply;
  }

  lemma DropsOwnSessions(w: World, r: Ref)
    requires WorldEnabled(w, DropSessionsOf(r)) && Owns(w, r) && forall t :: t in w.objs ==> w.objs[t].WellFormed()
    ensures w.fetched[r] == Some(r) && LoopEnabled(w.objs[r], DropSessions)
    ensures WorldApply(w, DropSessionsOf(r)) == Update(w, r, LoopApply(w.objs[r], DropSessions))
  {
    hide Channel.WellFormed;
  }

  lemma DropsOwnWaiters(w: World, r: Ref)
    requires WorldEnabled(w, DropWaitersOf(r)) && Owns(w, r) && forall t :: t in w.objs ==> w.objs[t].WellFormed()
    ensures w.fetched[r] == Some(r) && LoopEnabled(w.objs[r], DropWaiters)
    ensures WorldApply(w, DropWaitersOf(r)) == Update(w, r, LoopApply(w.objs[r], DropWaiters))
  {
    hide Channel.WellFormed;
  }

  lemma ClosesOwn(w: World, r: Ref)
    requires WorldEnabled(w, CloseAborted(r)) && Owns(w, r) && forall t :: t in w.objs ==> w.objs[t].WellFormed()
    ensures w.fetched[r] == Some(r) && LoopEnabled(w.objs[r], AbortClose)
    ensures WorldApply(w, CloseAborted(r)) == Update(w, r, LoopApply(w.objs[r], AbortClose))
  {
    hide Channel.WellFormed;
  }

  lemma DrainStepKeeps(w: World, r: Ref, l: WorldLabel)
    requires WorldInv(w) && WorldEnabled(w, l)
    requires l == DropSessionsOf(r) || l == DropWaitersOf(r) || l == CloseAborted(r)
    ensures WorldInv(WorldApply(w, l))
  {
    hide View.Inv, WorldApply, LoopApply;
    assert Owns(w, r);
    var step := if l.DropSessionsOf? then DropSessions else if l.DropWaitersOf? then DropWaiters else AbortClose;
    DrainsOwn(w, r, l);
    StepKeeps(w.objs[r], Loop(step));
    DrainStaysUnmapped(w.objs[r], step);
    UpdateKeeps(w, r, LoopApply(w.objs[r], step));
  }

  lemma DrainStaysUnmapped(c: Channel, step: LoopStep)
    requires c.WellFormed() && LoopEnabled(c, step) && (step.DropSessions? || step.DropWaiters? || step.AbortClose?)
    ensures !Mapped(c.loop) && !Mapped(LoopApply(c, step).loop)
  {
  }

  lemma {:induction false} RunKeeps(ws: seq<World>, i: nat)
    requires IsRun(ws) && i < |ws|
    ensures WorldInv(ws[i])
  {
    if i > 0 {
      RunKeeps(ws, i - 1);
      assert Next(ws[i - 1], ws[i]);
      var l :| WorldEnabled(ws[i - 1], l) && ws[i] == WorldApply(ws[i - 1], l);
      WorldStepKeeps(ws[i - 1], l);
    }
  }
}
