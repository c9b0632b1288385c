/** What every call and every exit of a serve loop keeps. */
module ReverseInvariants {
  import opened Base
  import opened Text
  import opened Endpoints
  import opened ReverseRows

  predicate GoodProvider(p: ProviderCfg) {
    NormalizeProvider(p) == p && ValidProvider(p) && p.id != ""
  }

  predicate GoodConsumer(c: ConsumerCfg) {
    NormalizeConsumer(c) == c && ValidConsumer(c)
  }

  /** Every row is normalized, valid, and kept under its own id. */
  ghost predicate RowsGood(m: Manager) {
    && (forall id :: id in m.providers ==> GoodProvider(m.providers[id].cfg) && m.providers[id].cfg.id == id)
    && (forall id :: id in m.consumers ==> GoodConsumer(m.consumers[id].cfg) && m.consumers[id].cfg.id == id)
  }

  /** No two rows, of either kind, occupy the same endpoint. */
  ghost predicate Separate(parse: Parser, m: Manager) {
    && (forall i, j :: i in m.providers && j in m.providers && i != j ==>
          m.providers[i].cfg.Endpoint() != m.providers[j].cfg.Endpoint())
    && (forall i, j :: i in m.consumers && j in m.consumers && i != j ==>
          m.consumers[i].cfg.Endpoint(parse) != m.consumers[j].cfg.Endpoint(parse))
    && (forall i, j :: i in m.providers && j in m.consumers ==>
          m.providers[i].cfg.Endpoint() != m.consumers[j].cfg.Endpoint(parse))
  }

  ghost predicate ProviderLive(m: Manager, id: string)
    requires id in m.providers
  {
    var inst := m.providers[id];
    inst.ws == inst.serveDone
    && (inst.ws.Some? ==>
          inst.cfg.Enabled() && inst.ws.value in m.loops && m.loops[inst.ws.value] == ProviderLoop(id))
  }

  ghost predicate ConsumerLive(m: Manager, id: string)
    requires id in m.consumers
  {
    var inst := m.consumers[id];
    inst.cancel == inst.listener.Some?
    && (inst.listener.Some? ==>
          inst.cfg.Enabled() && inst.listener == inst.done && inst.listener.value in m.loops
          && m.loops[inst.listener.value] == ConsumerLoop(id))
    && (inst.done.Some? ==> inst.done.value < m.next)
    && (inst.done.Some? && inst.listener.None? ==> inst.done.value !in m.loops)
  }

  /** A serve loop that has not exited is the one of a row that is there. */
  ghost predicate LoopLive(m: Manager, h: nat)
    requires h in m.loops
  {
    h < m.next
    && match m.loops[h]
       case ProviderLoop(row) => row in m.providers && m.providers[row].ws == Some(h)
       case ConsumerLoop(row) => row in m.consumers && m.consumers[row].listener == Some(h)
  }

  ghost predicate LoopsGood(m: Manager) {
    && (forall h :: h in m.loops ==> LoopLive(m, h))
    && (forall id :: id in m.providers ==> ProviderLive(m, id))
    && (forall id :: id in m.consumers ==> ConsumerLive(m, id))
  }

  ghost predicate WF(parse: Parser, m: Manager) {
    RowsGood(m) && Separate(parse, m) && LoopsGood(m)
  }

  /** The two managers hold the same configurations under the same ids. */
  ghost predicate SameRows(m: Manager, m': Manager) {
    && m'.providers.Keys == m.providers.Keys
    && m'.consumers.Keys == m.consumers.Keys
    && (forall id :: id in m.providers ==> m'.providers[id].cfg == m.providers[id].cfg)
    && (forall id :: id in m.consumers ==> m'.consumers[id].cfg == m.consumers[id].cfg)
  }

  lemma NormalizeProviderIdempotent(p: ProviderCfg)
    ensures NormalizeProvider(NormalizeProvider(p)) == NormalizeProvider(p)
  {
    TrimSpaceTrims(p.id);
    TrimSpaceTrims(p.serverURL);
    TrimSpaceTrims(p.apiKey);
    TrimSpaceTrims(p.channelID);
    OrLoopbackIdempotent(p.localHost);
    NormalizeServerURLIdempotent(TrimSpace(p.serverURL));
  }

  lemma NormalizeConsumerIdempotent(c: ConsumerCfg)
    ensures NormalizeConsumer(NormalizeConsumer(c)) == NormalizeConsumer(c)
  {
    TrimSpaceTrims(c.id);
    TrimSpaceTrims(c.legacyChannelID);
    TrimSpaceTrims(c.listen);
    TrimSpaceTrims(c.serverURL);
    TrimSpaceTrims(c.apiKey);
    NormalizeServerURLIdempotent(TrimSpace(c.serverURL));
    assert TrimSpace("") == "";
  }

  /** Normalizing takes away blanks around the texts of a row, fills in a blank host, and does nothing else. */
  lemma PaddedProviderIsRead(q: ProviderCfg, p: ProviderCfg)
    requires IsTrimmed(p.id) && IsTrimmed(p.localHost) && IsTrimmed(p.apiKey) && IsTrimmed(p.channelID)
    requires Padded(q.id, p.id) && Padded(q.apiKey, p.apiKey) && Padded(q.channelID, p.channelID)
    requires if AllSpace(q.localHost) then p.localHost == "127.0.0.1" else Padded(q.localHost, p.localHost)
    requires p.serverURL == NormalizeServerURL(q.serverURL)
    requires q.localPort == p.localPort && q.enabled == p.enabled
    ensures NormalizeProvider(q) == p
  {
    PaddedTrims(q.id, p.id);
    PaddedTrims(q.apiKey, p.apiKey);
    PaddedTrims(q.channelID, p.channelID);
    if !AllSpace(q.localHost) { PaddedTrims(q.localHost, p.localHost); }
    BlankIff(q.localHost);
    TrimSpaceTrims(q.serverURL);
    hide TrimSpace, Padded, AllSpace, IsTrimmed;
  }

  /** And the id of a consumer is its legacy channel id if that is not blank, which goes. */
  lemma PaddedConsumerIsRead(q: ConsumerCfg, c: ConsumerCfg)
    requires IsTrimmed(c.id) && IsTrimmed(c.listen) && IsTrimmed(c.apiKey)
    requires if AllSpace(q.legacyChannelID) then Padded(q.id, c.id) else Padded(q.legacyChannelID, c.id)
    requires Padded(q.listen, c.listen) && Padded(q.apiKey, c.apiKey)
    requires c.serverURL == NormalizeServerURL(q.serverURL)
    requires q.enabled == c.enabled && c.legacyChannelID == ""
    ensures NormalizeConsumer(q) == c
  {
    BlankIff(q.legacyChannelID);
    PaddedTrims(if AllSpace(q.legacyChannelID) then q.id else q.legacyChannelID, c.id);
    PaddedTrims(q.listen, c.listen);
    PaddedTrims(q.apiKey, c.apiKey);
    TrimSpaceTrims(q.serverURL);
    hide TrimSpace, Padded, AllSpace, IsTrimmed;
  }

  /** What StartProvider goes on with is a good row, and stays so with another channel id. */
  lemma StartedRowIsGood(p0: ProviderCfg, newId: NewId, ch: string)
    requires ValidProvider(WithId(NormalizeProvider(p0), newId))
    ensures var p := WithId(NormalizeProvider(p0), newId);
      GoodProvider(p) && GoodProvider(p.(channelID := TrimSpace(ch)))
  {
    NormalizeProviderIdempotent(p0);
    TrimSpaceTrims(ch);
    TrimSpaceTrims(p0.id);
    hide TrimSpace, NormalizeServerURL;
    TrimmedIsFixed(newId);
  }

  lemma TrimmedIsFixed(s: string)
    requires IsTrimmed(s)
    ensures TrimSpace(s) == s
  {
  }

  // ---- Exits and waits ----

  lemma SameRowsKeep(parse: Parser, m: Manager, m': Manager)
    requires RowsGood(m) && Separate(parse, m) && SameRows(m, m')
    ensures RowsGood(m') && Separate(parse, m')
  {
    hide GoodProvider, GoodConsumer, ProviderCfg.Endpoint, ConsumerCfg.Endpoint;
    assert forall id :: id in m'.providers ==> id in m.providers;
    assert forall id :: id in m'.consumers ==> id in m.consumers;
  }

  lemma ExitSameRows(m: Manager, h: nat)
    ensures SameRows(m, Exit(m, h))
  {
  }

  /** An exit changes one row at most, and that row's fields are those of the loop that exits. */
  lemma ExitOnProvider(m: Manager, h: nat)
    requires LoopsGood(m) && h in m.loops && m.loops[h].ProviderLoop?
    ensures LoopsGood(Exit(m, h))
  {
    var m', row := Exit(m, h), m.loops[h].row;
    assert LoopLive(m, h);
    assert m' == m.(loops := m.loops - {h},
                    providers := m.providers[row := m.providers[row].(ws := None, serveDone := None, failed := true)]);
    forall k | k in m'.loops
      ensures LoopLive(m', k)
    {
      assert LoopLive(m, k);
    }
    forall id | id in m'.providers
      ensures ProviderLive(m', id)
    {
      assert ProviderLive(m, id) && ProviderLive(m, row);
    }
    forall id | id in m'.consumers
      ensures ConsumerLive(m', id)
    {
      assert ConsumerLive(m, id);
    }
  }

  lemma ExitOnConsumer(m: Manager, h: nat)
    requires LoopsGood(m) && h in m.loops && m.loops[h].ConsumerLoop?
    ensures LoopsGood(Exit(m, h))
  {
    var m', row := Exit(m, h), m.loops[h].row;
    assert LoopLive(m, h);
    assert m' == m.(loops := m.loops - {h},
                    consumers := m.consumers[row :=
                      m.consumers[row].(cancel := false, listener := None, failed := true)]);
    forall k | k in m'.loops
      ensures LoopLive(m', k)
    {
      assert LoopLive(m, k);
    }
    forall id | id in m'.providers
      ensures ProviderLive(m', id)
    {
      assert ProviderLive(m, id);
    }
    forall id | id in m'.consumers
      ensures ConsumerLive(m', id)
    {
      assert ConsumerLive(m, id) && ConsumerLive(m, row);
    }
  }

  lemma ExitKeeps(parse: Parser, m: Manager, h: nat)
    requires WF(parse, m)
    ensures WF(parse, Exit(m, h)) && SameRows(m, Exit(m, h))
  {
    ExitSameRows(m, h);
    SameRowsKeep(parse, m, Exit(m, h));
    if h in m.loops {
      if m.loops[h].ProviderLoop? { ExitOnProvider(m, h); } else { ExitOnConsumer(m, h); }
    }
  }

  lemma {:induction false} ExitAllKeeps(parse: Parser, m: Manager, hs: seq<nat>)
    requires WF(parse, m)
    ensures WF(parse, ExitAll(m, hs)) && SameRows(m, ExitAll(m, hs))
    decreases |hs|
  {
    if hs != [] {
      ExitKeeps(parse, m, hs[0]);
      ExitAllKeeps(parse, Exit(m, hs[0]), hs[1..]);
    }
  }

  lemma WaitProviderKeeps(parse: Parser, m: Manager, id: string)
    requires WF(parse, m)
    ensures var m' := WaitProvider(m, id);
      && WF(parse, m') && SameRows(m, m')
      && (id in m'.providers ==> m'.providers[id].ws.None? && m'.providers[id].serveDone.None?)
  {
    if id in m.providers && m.providers[id].serveDone.Some? {
      assert ProviderLive(m, id);
      ExitKeeps(parse, m, m.providers[id].serveDone.value);
    } else if id in m.providers {
      assert ProviderLive(m, id);
    }
  }

  lemma WaitConsumerKeeps(parse: Parser, m: Manager, id: string)
    requires WF(parse, m)
    ensures var m' := WaitConsumer(m, id);
      && WF(parse, m') && SameRows(m, m')
      && (id in m'.consumers ==> m'.consumers[id].listener.None? && !m'.consumers[id].cancel)
  {
    if id in m.consumers {
      assert ConsumerLive(m, id);
      if m.consumers[id].done.Some? {
        ExitKeeps(parse, m, m.consumers[id].done.value);
      }
    }
  }

  // ---- Conflicts ----

  ghost predicate ProviderFits(parse: Parser, m: Manager, p: ProviderCfg) {
    && (forall id :: id in m.providers && id != p.id ==> m.providers[id].cfg.Endpoint() != p.Endpoint())
    && (forall id :: id in m.consumers ==> m.consumers[id].cfg.Endpoint(parse) != p.Endpoint())
  }

  ghost predicate ConsumerFits(parse: Parser, m: Manager, c: ConsumerCfg) {
    && (forall id :: id in m.consumers && id != c.id ==> m.consumers[id].cfg.Endpoint(parse) != c.Endpoint(parse))
    && (forall id :: id in m.providers ==> m.providers[id].cfg.Endpoint() != c.Endpoint(parse))
  }

  lemma SamePortAndHost(a: ProviderCfg, b: ProviderCfg)
    ensures a.localPort == b.localPort && FuzzyHostMatch(OrLoopback(a.localHost), OrLoopback(b.localHost))
            <==> a.Endpoint() == b.Endpoint()
  {
    OrLoopbackIdempotent(a.localHost);
    OrLoopbackIdempotent(b.localHost);
    FuzzyIffCanonical(OrLoopback(a.localHost), OrLoopback(b.localHost));
  }

  lemma ListenVersusExposed(parse: Parser, listen: string, p: ProviderCfg)
    requires p.localPort >= 1
    ensures ListenCollidesExpose(parse, listen, OrLoopback(p.localHost), p.localPort)
            <==> ListenEndpoint(parse, listen) == p.Endpoint()
  {
    OrLoopbackIdempotent(p.localHost);
    CollidesIffSameEndpoint(parse, listen, OrLoopback(p.localHost), p.localPort);
  }

  /** The conflict check of a provider passes exactly when no other row has its endpoint. */
  lemma ProviderConflictIffOccupied(parse: Parser, m: Manager, p: ProviderCfg)
    requires p.localPort >= 1
    ensures ProviderConflict(parse, m, p) <==> !ProviderFits(parse, m, p)
  {
    hide FuzzyHostMatch, ListenCollidesExpose, OrLoopback, ProviderCfg.Endpoint, ListenEndpoint;
    forall id | id in m.consumers
      ensures ListenCollidesExpose(parse, m.consumers[id].cfg.listen, OrLoopback(p.localHost), p.localPort)
              <==> m.consumers[id].cfg.Endpoint(parse) == p.Endpoint()
    {
      ListenVersusExposed(parse, m.consumers[id].cfg.listen, p);
    }
    forall id | id in m.providers
      ensures m.providers[id].cfg.localPort == p.localPort
              && FuzzyHostMatch(OrLoopback(m.providers[id].cfg.localHost), OrLoopback(p.localHost))
              <==> m.providers[id].cfg.Endpoint() == p.Endpoint()
    {
      SamePortAndHost(m.providers[id].cfg, p);
    }
  }

  lemma GoodConsumerListens(c: ConsumerCfg)
    requires GoodConsumer(c)
    ensures TrimSpace(c.listen) == c.listen != ""
  {
  }

  lemma GoodProviderPort(p: ProviderCfg)
    requires GoodProvider(p)
    ensures p.localPort >= 1
  {
  }

  /** And likewise for a consumer. */
  lemma ConsumerConflictIffOccupied(parse: Parser, m: Manager, c: ConsumerCfg)
    requires RowsGood(m) && GoodConsumer(c)
    ensures ConsumerConflict(parse, m, c) <==> !ConsumerFits(parse, m, c)
  {
    hide TcpBindingsEquiv, ListenCollidesExpose, OrLoopback, ProviderCfg.Endpoint, ListenEndpoint, TrimSpace,
         GoodConsumer, GoodProvider;
    GoodConsumerListens(c);
    forall id | id in m.consumers
      ensures TcpBindingsEquiv(parse, m.consumers[id].cfg.listen, c.listen)
              <==> m.consumers[id].cfg.Endpoint(parse) == c.Endpoint(parse)
    {
      GoodConsumerListens(m.consumers[id].cfg);
      BindingsEquivIffSameEndpoint(parse, m.consumers[id].cfg.listen, c.listen);
    }
    forall id | id in m.providers
      ensures ListenCollidesExpose(
                parse, c.listen, OrLoopback(m.providers[id].cfg.localHost), m.providers[id].cfg.localPort)
              <==> m.providers[id].cfg.Endpoint() == c.Endpoint(parse)
    {
      GoodProviderPort(m.providers[id].cfg);
      ListenVersusExposed(parse, c.listen, m.providers[id].cfg);
    }
  }

  // ---- Putting a row down ----

  lemma PutProviderRow(parse: Parser, m: Manager, inst: ProviderInst, loops: map<nat, ServeLoop>, next: nat)
    requires RowsGood(m) && Separate(parse, m)
    requires GoodProvider(inst.cfg) && ProviderFits(parse, m, inst.cfg)
    ensures var m' := m.(providers := m.providers[inst.cfg.id := inst], loops := loops, next := next);
      RowsGood(m') && Separate(parse, m')
  {
    hide GoodProvider, GoodConsumer, ProviderCfg.Endpoint, ConsumerCfg.Endpoint;
  }

  lemma PutConsumerRow(parse: Parser, m: Manager, inst: ConsumerInst, loops: map<nat, ServeLoop>, next: nat)
    requires RowsGood(m) && Separate(parse, m)
    requires GoodConsumer(inst.cfg) && ConsumerFits(parse, m, inst.cfg)
    ensures var m' := m.(consumers := m.consumers[inst.cfg.id := inst], loops := loops, next := next);
      RowsGood(m') && Separate(parse, m')
  {
    hide GoodProvider, GoodConsumer, ProviderCfg.Endpoint, ConsumerCfg.Endpoint;
  }

  /** A row whose loop is not live may be replaced by one without a loop, or with a new one. */
  lemma PutIdleProvider(m: Manager, id: string, inst: ProviderInst)
    requires LoopsGood(m) && (id in m.providers ==> m.providers[id].ws.None?)
    requires inst.ws.None? && inst.serveDone.None?
    ensures LoopsGood(m.(providers := m.providers[id := inst]))
  {
    assert forall h :: h in m.loops ==> LoopLive(m, h);
    assert forall i :: i in m.providers ==> ProviderLive(m, i);
    assert forall i :: i in m.consumers ==> ConsumerLive(m, i);
  }

  lemma PutRunningProvider(m: Manager, id: string, inst: ProviderInst)
    requires LoopsGood(m) && (id in m.providers ==> m.providers[id].ws.None?)
    requires inst.ws == inst.serveDone == Some(m.next) && inst.cfg.Enabled()
    ensures LoopsGood(m.(providers := m.providers[id := inst],
                         loops := m.loops[m.next := ProviderLoop(id)], next := m.next + 1))
  {
    assert forall h :: h in m.loops ==> LoopLive(m, h);
    assert forall i :: i in m.providers ==> ProviderLive(m, i);
    assert forall i :: i in m.consumers ==> ConsumerLive(m, i);
  }

  lemma PutIdleConsumer(m: Manager, id: string, inst: ConsumerInst)
    requires LoopsGood(m) && (id in m.consumers ==> m.consumers[id].listener.None?)
    requires !inst.cancel && inst.listener.None? && inst.done.None?
    ensures LoopsGood(m.(consumers := m.consumers[id := inst]))
  {
    assert forall h :: h in m.loops ==> LoopLive(m, h);
    assert forall i :: i in m.providers ==> ProviderLive(m, i);
    assert forall i :: i in m.consumers ==> ConsumerLive(m, i);
  }

  lemma PutRunningConsumer(m: Manager, id: string, inst: ConsumerInst)
    requires LoopsGood(m) && (id in m.consumers ==> m.consumers[id].listener.None?)
    requires inst.cancel && inst.listener == inst.done == Some(m.next) && inst.cfg.Enabled()
    ensures LoopsGood(m.(consumers := m.consumers[id := inst],
                         loops := m.loops[m.next := ConsumerLoop(id)], next := m.next + 1))
  {
    assert forall h :: h in m.loops ==> LoopLive(m, h);
    assert forall i :: i in m.providers ==> ProviderLive(m, i);
    assert forall i :: i in m.consumers ==> ConsumerLive(m, i);
  }

  // ---- Calls ----

  lemma FitsSameRows(parse: Parser, m: Manager, m': Manager, p: ProviderCfg)
    requires SameRows(m, m') && ProviderFits(parse, m, p)
    ensures ProviderFits(parse, m', p)
  {
    hide ProviderCfg.Endpoint, ConsumerCfg.Endpoint;
    assert forall id :: id in m'.providers ==> id in m.providers;
    assert forall id :: id in m'.consumers ==> id in m.consumers;
  }

  lemma FitsSameRowsConsumer(parse: Parser, m: Manager, m': Manager, c: ConsumerCfg)
    requires SameRows(m, m') && ConsumerFits(parse, m, c)
    ensures ConsumerFits(parse, m', c)
  {
    hide ProviderCfg.Endpoint, ConsumerCfg.Endpoint;
    assert forall id :: id in m'.providers ==> id in m.providers;
    assert forall id :: id in m'.consumers ==> id in m.consumers;
  }

  /** A disabled provider is put down exactly when its endpoint is free. */
  lemma PutProviderInactiveKeeps(parse: Parser, m: Manager, p: ProviderCfg)
    requires WF(parse, m) && GoodProvider(p) && (p.id in m.providers ==> m.providers[p.id].ws.None?)
    ensures var r := PutProviderInactive(parse, m, p);
      && WF(parse, r.0)
      && (if ProviderFits(parse, m, p)
          then r == (m.(providers := m.providers[p.id := ProviderInst(p, "", None, None, false)]), Ok(""))
          else r == (m, Err(Conflict)))
  {
    GoodProviderPort(p);
    ProviderConflictIffOccupied(parse, m, p);
    hide GoodProvider, ProviderFits, ProviderConflict, RowsGood, Separate;
    assert p.id in m.providers ==> ProviderLive(m, p.id);
    if ProviderFits(parse, m, p) {
      var inst := ProviderInst(p, "", None, None, false);
      PutProviderRow(parse, m, inst, m.loops, m.next);
      PutIdleProvider(m, p.id, inst);
    }
  }

  lemma PutConsumerInactiveKeeps(parse: Parser, m: Manager, c: ConsumerCfg)
    requires WF(parse, m) && GoodConsumer(c) && (c.id in m.consumers ==> m.consumers[c.id].listener.None?)
    ensures var r := PutConsumerInactive(parse, m, c);
      && WF(parse, r.0)
      && (if ConsumerFits(parse, m, c)
          then r == (m.(consumers := m.consumers[c.id := ConsumerInst(c, false, None, None, false)]), Ok(""))
          else r == (m, Err(Conflict)))
  {
    ConsumerConflictIffOccupied(parse, m, c);
    hide GoodConsumer, ConsumerFits, ConsumerConflict, RowsGood, Separate;
    assert c.id in m.consumers ==> ConsumerLive(m, c.id);
    if ConsumerFits(parse, m, c) {
      var inst := ConsumerInst(c, false, None, None, false);
      PutConsumerRow(parse, m, inst, m.loops, m.next);
      PutIdleConsumer(m, c.id, inst);
    }
  }

  /** The row a started provider leaves behind, whatever the handshakes answer. */
  function ProviderRow(p: ProviderCfg, e: ProviderEnv): ProviderCfg {
    if p.Enabled() && Handshake(p, e).Some? then p.(channelID := TrimSpace(Handshake(p, e).value)) else p
  }

  ghost predicate ProviderPut(m: Manager, m': Manager, p: ProviderCfg) {
    && m'.providers.Keys == m.providers.Keys + {p.id} && p.id in m'.providers && m'.providers[p.id].cfg == p
    && (forall id :: id in m.providers && id != p.id ==> m'.providers[id].cfg == m.providers[id].cfg)
    && m'.consumers.Keys == m.consumers.Keys
    && (forall id :: id in m.consumers ==> m'.consumers[id].cfg == m.consumers[id].cfg)
  }

  lemma UpdateIsPut(m: Manager, inst: ProviderInst, loops: map<nat, ServeLoop>, next: nat)
    ensures ProviderPut(m, m.(providers := m.providers[inst.cfg.id := inst], loops := loops, next := next), inst.cfg)
  {
  }

  lemma InactiveIsPut(parse: Parser, m: Manager, p: ProviderCfg, e: ProviderEnv)
    requires WF(parse, m) && GoodProvider(p) && !p.Enabled() && (p.id in m.providers ==> m.providers[p.id].ws.None?)
    ensures var m' := PutProviderInactive(parse, m, p).0;
      WF(parse, m') && (ProviderFits(parse, m, p) ==> ProviderPut(m, m', ProviderRow(p, e)))
  {
    PutProviderInactiveKeeps(parse, m, p);
    hide WF, GoodProvider, ProviderFits, PutProviderInactive;
    UpdateIsPut(m, ProviderInst(p, "", None, None, false), m.loops, m.next);
    hide ProviderPut;
  }

  lemma RunProviderKeeps(parse: Parser, m: Manager, p: ProviderCfg, e: ProviderEnv)
    requires WF(parse, m) && GoodProvider(p) && GoodProvider(ProviderRow(p, e))
    requires ProviderFits(parse, m, p) && (p.id in m.providers ==> m.providers[p.id].ws.None?)
    ensures var m' := RunProvider(parse, m, p, e).0; WF(parse, m') && ProviderPut(m, m', ProviderRow(p, e))
  {
    hide GoodProvider, RowsGood, Separate;
    if !p.Enabled() {
      RunDisabledProvider(parse, m, p, e);
    } else {
      var row := ProviderRow(p, e);
      assert ProviderFits(parse, m, row) by { SameEndpointFits(parse, m, p, row); }
      hide ProviderFits, LoopsGood, ProviderPut;
      if Handshake(p, e).None? {
        var inst := ProviderInst(row, "", None, None, true);
        PutProviderRow(parse, m, inst, m.loops, m.next);
        PutIdleProvider(m, p.id, inst);
        UpdateIsPut(m, inst, m.loops, m.next);
      } else {
        var inst := ProviderInst(row, Handshake(p, e).value, Some(m.next), Some(m.next), false);
        PutProviderRow(parse, m, inst, m.loops[m.next := ProviderLoop(p.id)], m.next + 1);
        PutRunningProvider(m, p.id, inst);
        UpdateIsPut(m, inst, m.loops[m.next := ProviderLoop(p.id)], m.next + 1);
      }
    }
  }

  lemma SameEndpointFits(parse: Parser, m: Manager, p: ProviderCfg, q: ProviderCfg)
    requires p.id == q.id && p.localHost == q.localHost && p.localPort == q.localPort
    requires ProviderFits(parse, m, p)
    ensures ProviderFits(parse, m, q)
  {
    assert p.Endpoint() == q.Endpoint();
    hide ProviderCfg.Endpoint, ConsumerCfg.Endpoint;
  }

  lemma RunDisabledProvider(parse: Parser, m: Manager, p: ProviderCfg, e: ProviderEnv)
    requires WF(parse, m) && GoodProvider(p) && !p.Enabled()
    requires ProviderFits(parse, m, p) && (p.id in m.providers ==> m.providers[p.id].ws.None?)
    ensures var m' := RunProvider(parse, m, p, e).0; WF(parse, m') && ProviderPut(m, m', ProviderRow(p, e))
  {
    WaitEndedProvider(m, p.id);
    InactiveIsPut(parse, m, p, e);
    hide GoodProvider, WF, ProviderFits, PutProviderInactive, WaitProvider, ProviderPut;
  }

  lemma WaitEndedProvider(m: Manager, id: string)
    requires LoopsGood(m) && (id in m.providers ==> m.providers[id].ws.None?)
    ensures WaitProvider(m, id) == m
  {
    assert id in m.providers ==> ProviderLive(m, id);
  }

  ghost predicate ConsumerPut(m: Manager, m': Manager, c: ConsumerCfg) {
    && m'.consumers.Keys == m.consumers.Keys + {c.id} && c.id in m'.consumers && m'.consumers[c.id].cfg == c
    && (forall id :: id in m.consumers && id != c.id ==> m'.consumers[id].cfg == m.consumers[id].cfg)
    && m'.providers.Keys == m.providers.Keys
    && (forall id :: id in m.providers ==> m'.providers[id].cfg == m.providers[id].cfg)
  }

  lemma UpdateIsPutConsumer(m: Manager, inst: ConsumerInst, loops: map<nat, ServeLoop>, next: nat)
    ensures ConsumerPut(m, m.(consumers := m.consumers[inst.cfg.id := inst], loops := loops, next := next), inst.cfg)
  {
  }

  lemma InactiveIsPutConsumer(parse: Parser, m: Manager, c: ConsumerCfg)
    requires WF(parse, m) && GoodConsumer(c) && (c.id in m.consumers ==> m.consumers[c.id].listener.None?)
    ensures var m' := PutConsumerInactive(parse, m, c).0;
      WF(parse, m') && (ConsumerFits(parse, m, c) ==> ConsumerPut(m, m', c))
  {
    PutConsumerInactiveKeeps(parse, m, c);
    hide WF, GoodConsumer, ConsumerFits, PutConsumerInactive;
    UpdateIsPutConsumer(m, ConsumerInst(c, false, None, None, false), m.loops, m.next);
    hide ConsumerPut;
  }

  lemma RunConsumerKeeps(parse: Parser, m: Manager, c: ConsumerCfg, e: ConsumerEnv)
    requires WF(parse, m) && GoodConsumer(c)
    requires ConsumerFits(parse, m, c) && (c.id in m.consumers ==> m.consumers[c.id].listener.None?)
    ensures var m' := RunConsumer(parse, m, c, e).0; WF(parse, m') && ConsumerPut(m, m', c)
  {
    hide GoodConsumer, RowsGood, Separate;
    if !c.Enabled() {
      WaitConsumerKeeps(parse, m, c.id);
      WaitEndedConsumer(m, c.id);
      PutConsumerInactiveKeeps(parse, m, c);
    } else if !e.listenOk {
      var inst := ConsumerInst(c, false, None, None, true);
      PutConsumerRow(parse, m, inst, m.loops, m.next);
      PutIdleConsumer(m, c.id, inst);
    } else {
      var inst := ConsumerInst(c, true, Some(m.next), Some(m.next), false);
      PutConsumerRow(parse, m, inst, m.loops[m.next := ConsumerLoop(c.id)], m.next + 1);
      PutRunningConsumer(m, c.id, inst);
    }
  }

  /** Waiting for a consumer that has ended already changes nothing. */
  lemma WaitEndedConsumer(m: Manager, id: string)
    requires LoopsGood(m) && (id in m.consumers ==> m.consumers[id].listener.None?)
    ensures WaitConsumer(m, id) == m
  {
    assert id in m.consumers ==> ConsumerLive(m, id);
  }

  /**
   StartProvider: a good, conflict-free request puts its row down whatever the
   handshakes answer; any other request changes no row.
   */
  lemma StartProviderKeeps(parse: Parser, m: Manager, p0: ProviderCfg, e: ProviderEnv)
    requires WF(parse, m)
    ensures var (m', p) := (StartProvider(parse, m, p0, e).0, WithId(NormalizeProvider(p0), e.newId));
      && WF(parse, m')
      && (if ValidProvider(p) && ProviderFits(parse, m, p)
          then ProviderPut(m, m', ProviderRow(p, e))
          else SameRows(m, m'))
  {
    var p := WithId(NormalizeProvider(p0), e.newId);
    if ValidProvider(p) {
      StartedRowIsGood(p0, e.newId, if Handshake(p, e).Some? then Handshake(p, e).value else "");
      StartNormalProviderKeeps(parse, m, p, e);
    }
    hide WF, ProviderPut, NormalizeProvider, WithId, ProviderFits, ValidProvider, StartNormalProvider;
  }

  lemma StartNormalProviderKeeps(parse: Parser, m: Manager, p: ProviderCfg, e: ProviderEnv)
    requires WF(parse, m) && GoodProvider(p) && GoodProvider(ProviderRow(p, e))
    ensures var m' := StartNormalProvider(parse, m, p, e).0;
      && WF(parse, m')
      && (if ProviderFits(parse, m, p) then ProviderPut(m, m', ProviderRow(p, e)) else SameRows(m, m'))
  {
    var m0 := ExitAll(m, e.before);
    var m1 := WaitProvider(m0, p.id);
    var m2 := ExitAll(m1, e.between);
    GoodProviderPort(p);
    hide WF, GoodProvider, ProviderFits, ProviderConflict, WaitProvider, RunProvider, ProviderPut, ExitAll;
    ExitAllKeeps(parse, m, e.before);
    WaitProviderKeeps(parse, m0, p.id);
    ExitAllKeeps(parse, m1, e.between);
    StaysEnded(m1, e.between, p.id);
    SameRowsChain(m, m0, m1);
    SameRowsChain(m, m1, m2);
    hide SameRows;
    ProviderConflictIffOccupied(parse, m1, p);
    FitsBothWays(parse, m, m1, p);
    FitsBothWays(parse, m, m2, p);
    if ProviderFits(parse, m, p) {
      RunProviderKeeps(parse, m2, p, e);
      PutAfterSame(m, m2, RunProvider(parse, m2, p, e).0, ProviderRow(p, e));
    }
  }

  lemma SameRowsChain(a: Manager, b: Manager, c: Manager)
    requires SameRows(a, b) && SameRows(b, c)
    ensures SameRows(a, c)
  {
  }

  lemma FitsBothWays(parse: Parser, m: Manager, m': Manager, p: ProviderCfg)
    requires SameRows(m, m')
    ensures ProviderFits(parse, m, p) <==> ProviderFits(parse, m', p)
  {
    assert SameRows(m', m);
    hide ProviderFits, SameRows;
    if ProviderFits(parse, m, p) { FitsSameRows(parse, m, m', p); }
    if ProviderFits(parse, m', p) { FitsSameRows(parse, m', m, p); }
  }

  lemma {:induction false} StaysEnded(m: Manager, hs: seq<nat>, id: string)
    requires id in m.providers ==> m.providers[id].ws.None?
    ensures id in ExitAll(m, hs).providers ==> ExitAll(m, hs).providers[id].ws.None?
    decreases |hs|
  {
    if hs != [] {
      StaysEnded(Exit(m, hs[0]), hs[1..], id);
    }
  }

  lemma PutAfterSame(m: Manager, m2: Manager, m': Manager, p: ProviderCfg)
    requires SameRows(m, m2) && ProviderPut(m2, m', p)
    ensures ProviderPut(m, m', p)
  {
  }

  lemma PutAfterSameConsumer(m: Manager, m2: Manager, m': Manager, c: ConsumerCfg)
    requires SameRows(m, m2) && ConsumerPut(m2, m', c)
    ensures ConsumerPut(m, m', c)
  {
  }

  lemma FitsBothWaysConsumer(parse: Parser, m: Manager, m': Manager, c: ConsumerCfg)
    requires SameRows(m, m')
    ensures ConsumerFits(parse, m, c) <==> ConsumerFits(parse, m', c)
  {
    assert SameRows(m', m);
    hide ConsumerFits, SameRows;
    if ConsumerFits(parse, m, c) { FitsSameRowsConsumer(parse, m, m', c); }
    if ConsumerFits(parse, m', c) { FitsSameRowsConsumer(parse, m', m, c); }
  }

  lemma {:induction false} ConsumerStaysEnded(m: Manager, hs: seq<nat>, id: string)
    requires id in m.consumers ==> m.consumers[id].listener.None?
    ensures id in ExitAll(m, hs).consumers ==> ExitAll(m, hs).consumers[id].listener.None?
    decreases |hs|
  {
    if hs != [] {
      ConsumerStaysEnded(Exit(m, hs[0]), hs[1..], id);
    }
  }

  /** StartConsumer, likewise: the row stays even if the listen fails. */
  lemma StartConsumerKeeps(parse: Parser, m: Manager, c0: ConsumerCfg, e: ConsumerEnv)
    requires WF(parse, m)
    ensures var (m', c) := (StartConsumer(parse, m, c0, e).0, NormalizeConsumer(c0));
      && WF(parse, m')
      && (if ValidConsumer(c) && ConsumerFits(parse, m, c) then ConsumerPut(m, m', c) else SameRows(m, m'))
  {
    var c := NormalizeConsumer(c0);
    if ValidConsumer(c) {
      NormalizeConsumerIdempotent(c0);
      StartNormalConsumerKeeps(parse, m, c, e);
    }
    hide WF, ConsumerPut, NormalizeConsumer, ConsumerFits, ValidConsumer, StartNormalConsumer;
  }

  lemma StartNormalConsumerKeeps(parse: Parser, m: Manager, c: ConsumerCfg, e: ConsumerEnv)
    requires WF(parse, m) && GoodConsumer(c)
    ensures var m' := StartNormalConsumer(parse, m, c, e).0;
      && WF(parse, m')
      && (if ConsumerFits(parse, m, c) then ConsumerPut(m, m', c) else SameRows(m, m'))
  {
    var m0 := ExitAll(m, e.before);
    var m1 := WaitConsumer(m0, c.id);
    var m2 := ExitAll(m1, e.between);
    hide GoodConsumer, ConsumerFits, ConsumerConflict, WaitConsumer, RunConsumer, ConsumerPut, ExitAll;
    hide RowsGood, Separate, LoopsGood;
    ExitAllKeeps(parse, m, e.before);
    WaitConsumerKeeps(parse, m0, c.id);
    ExitAllKeeps(parse, m1, e.between);
    ConsumerStaysEnded(m1, e.between, c.id);
    SameRowsChain(m, m0, m1);
    SameRowsChain(m, m1, m2);
    hide SameRows;
    ConsumerConflictIffOccupied(parse, m1, c);
    FitsBothWaysConsumer(parse, m, m1, c);
    FitsBothWaysConsumer(parse, m, m2, c);
    if ConsumerFits(parse, m, c) {
      RunConsumerKeeps(parse, m2, c, e);
      PutAfterSameConsumer(m, m2, RunConsumer(parse, m2, c, e).0, c);
    }
  }

  lemma StopKeeps(parse: Parser, m: Manager, id: string, before: seq<nat>)
    requires WF(parse, m)
    ensures var m' := StopProvider(m, id, before); WF(parse, m') && SameRows(m, m')
    ensures var m' := StopConsumer(m, id, before); WF(parse, m') && SameRows(m, m')
  {
    hide RowsGood, Separate, LoopsGood;
    ExitAllKeeps(parse, m, before);
    WaitProviderKeeps(parse, ExitAll(m, before), TrimSpace(id));
    WaitConsumerKeeps(parse, ExitAll(m, before), TrimSpace(id));
  }

  // ---- Removing a row ----

  lemma DropProviderRow(parse: Parser, m: Manager, id: string)
    requires RowsGood(m) && Separate(parse, m)
    ensures var m' := m.(providers := m.providers - {id}); RowsGood(m') && Separate(parse, m')
  {
    hide GoodProvider, GoodConsumer, ProviderCfg.Endpoint, ConsumerCfg.Endpoint;
  }

  lemma DropProviderLoops(m: Manager, id: string)
    requires LoopsGood(m) && (id in m.providers ==> m.providers[id].ws.None?)
    ensures LoopsGood(m.(providers := m.providers - {id}))
  {
    assert forall h :: h in m.loops ==> LoopLive(m, h);
    assert forall i :: i in m.providers ==> ProviderLive(m, i);
    assert forall i :: i in m.consumers ==> ConsumerLive(m, i);
  }

  lemma DropConsumerRow(parse: Parser, m: Manager, id: string)
    requires RowsGood(m) && Separate(parse, m)
    ensures var m' := m.(consumers := m.consumers - {id}); RowsGood(m') && Separate(parse, m')
  {
    hide GoodProvider, GoodConsumer, ProviderCfg.Endpoint, ConsumerCfg.Endpoint;
  }

  lemma DropConsumerLoops(m: Manager, id: string)
    requires LoopsGood(m) && (id in m.consumers ==> m.consumers[id].listener.None?)
    ensures LoopsGood(m.(consumers := m.consumers - {id}))
  {
    assert forall h :: h in m.loops ==> LoopLive(m, h);
    assert forall i :: i in m.providers ==> ProviderLive(m, i);
    assert forall i :: i in m.consumers ==> ConsumerLive(m, i);
  }

  /** A removed row's loop has exited before the row goes, and no other row changes its configuration. */
  lemma RemoveProviderKeeps(parse: Parser, m: Manager, id: string, before: seq<nat>)
    requires WF(parse, m)
    ensures var m' := RemoveProvider(m, id, before);
      && WF(parse, m')
      && m'.providers.Keys == m.providers.Keys - {TrimSpace(id)} && m'.consumers.Keys == m.consumers.Keys
      && (forall i :: i in m'.providers ==> m'.providers[i].cfg == m.providers[i].cfg)
      && (forall i :: i in m'.consumers ==> m'.consumers[i].cfg == m.consumers[i].cfg)
  {
    var m1 := ExitAll(m, before);
    var m2 := WaitProvider(m1, TrimSpace(id));
    hide RowsGood, Separate, LoopsGood, TrimSpace, ExitAll, WaitProvider;
    ExitAllKeeps(parse, m, before);
    WaitProviderKeeps(parse, m1, TrimSpace(id));
    SameRowsChain(m, m1, m2);
    DropProviderRow(parse, m2, TrimSpace(id));
    DropProviderLoops(m2, TrimSpace(id));
  }

  lemma RemoveConsumerKeeps(parse: Parser, m: Manager, id: string, before: seq<nat>)
    requires WF(parse, m)
    ensures var m' := RemoveConsumer(m, id, before);
      && WF(parse, m')
      && m'.consumers.Keys == m.consumers.Keys - {TrimSpace(id)} && m'.providers.Keys == m.providers.Keys
      && (forall i :: i in m'.providers ==> m'.providers[i].cfg == m.providers[i].cfg)
      && (forall i :: i in m'.consumers ==> m'.consumers[i].cfg == m.consumers[i].cfg)
  {
    var m1 := ExitAll(m, before);
    var m2 := WaitConsumer(m1, TrimSpace(id));
    hide RowsGood, Separate, LoopsGood, TrimSpace, ExitAll, WaitConsumer;
    ExitAllKeeps(parse, m, before);
    WaitConsumerKeeps(parse, m1, TrimSpace(id));
    SameRowsChain(m, m1, m2);
    DropConsumerRow(parse, m2, TrimSpace(id));
    DropConsumerLoops(m2, TrimSpace(id));
  }

  // ---- Rows of the file ----

  /** A row of the file whose endpoint is free gets its place. */
  lemma BootProviderKeeps(parse: Parser, m: Manager, p0: ProviderCfg, e: ProviderEnv)
    requires WF(parse, m)
    ensures var (m', p) := (BootProvider(parse, m, p0, e), WithId(NormalizeProvider(p0), e.newId));
      && WF(parse, m')
      && (ValidProvider(p) && ProviderFits(parse, m, p) && (p.id in m.providers ==> m.providers[p.id].ws.None?) ==>
            ProviderPut(m, m', ProviderRow(p, e)))
  {
    var p := WithId(NormalizeProvider(p0), e.newId);
    if ValidProvider(p) {
      StartedRowIsGood(p0, e.newId, "");
      GoodRowIsFixed(p, e.newId);
      BootNormalProvider(parse, m, p, e);
    }
    hide WF, ProviderPut, NormalizeProvider, WithId, ProviderFits, ValidProvider, StartProvider, PutProviderInactive;
  }

  lemma BootNormalProvider(parse: Parser, m: Manager, p: ProviderCfg, e: ProviderEnv)
    requires WF(parse, m) && GoodProvider(p) && WithId(NormalizeProvider(p), e.newId) == p
    ensures var m' := if p.Enabled() then StartProvider(parse, m, p, e).0 else PutProviderInactive(parse, m, p).0;
      && WF(parse, m')
      && (ProviderFits(parse, m, p) && (p.id in m.providers ==> m.providers[p.id].ws.None?) ==>
            ProviderPut(m, m', ProviderRow(p, e)))
  {
    if p.Enabled() {
      StartProviderKeeps(parse, m, p, e);
    } else if p.id in m.providers && m.providers[p.id].ws.Some? {
      assert PutProviderInactive(parse, m, p) == (m, Err(StillRunning)) by { hide *; }
    } else {
      InactiveIsPut(parse, m, p, e);
    }
    hide WF, ProviderPut, NormalizeProvider, WithId, ProviderFits, StartProvider, PutProviderInactive;
  }

  lemma GoodRowIsFixed(p: ProviderCfg, newId: NewId)
    requires GoodProvider(p)
    ensures WithId(NormalizeProvider(p), newId) == p
  {
  }

  lemma BootConsumerKeeps(parse: Parser, m: Manager, c0: ConsumerCfg, e: ConsumerEnv)
    requires WF(parse, m)
    ensures var (m', c) := (BootConsumer(parse, m, c0, e), NormalizeConsumer(c0));
      && WF(parse, m')
      && (ValidConsumer(c) && ConsumerFits(parse, m, c)
          && (c.id in m.consumers ==> m.consumers[c.id].listener.None?) ==>
            ConsumerPut(m, m', c))
  {
    var c := NormalizeConsumer(c0);
    if ValidConsumer(c) {
      NormalizeConsumerIdempotent(c0);
      BootNormalConsumer(parse, m, c, e);
    }
    hide WF, ConsumerPut, NormalizeConsumer, ConsumerFits, ValidConsumer, StartConsumer, PutConsumerInactive;
  }

  lemma BootNormalConsumer(parse: Parser, m: Manager, c: ConsumerCfg, e: ConsumerEnv)
    requires WF(parse, m) && GoodConsumer(c)
    ensures var m' := if c.Enabled() then StartConsumer(parse, m, c, e).0 else PutConsumerInactive(parse, m, c).0;
      && WF(parse, m')
      && (ConsumerFits(parse, m, c) && (c.id in m.consumers ==> m.consumers[c.id].listener.None?) ==>
            ConsumerPut(m, m', c))
  {
    if c.Enabled() {
      StartConsumerKeeps(parse, m, c, e);
    } else if c.id in m.consumers && m.consumers[c.id].listener.Some? {
      assert PutConsumerInactive(parse, m, c) == (m, Err(StillRunning));
    } else {
      InactiveIsPutConsumer(parse, m, c);
    }
    hide WF, ConsumerPut, NormalizeConsumer, ConsumerFits, StartConsumer, PutConsumerInactive;
  }
}
