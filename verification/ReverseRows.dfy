/**
 The rows of the client's reverse-tunnel manager and what each API call does to
 them. Calls are serialized; the serve loops they start may exit at any point
 between two critical sections, and every call takes the exits that fall into it
 as an argument.
 */
module ReverseRows {
  import opened Base
  import opened Text
  import opened Endpoints

  datatype ProviderCfg = ProviderCfg(
    id: string, serverURL: string, localHost: string, localPort: int,
    apiKey: string, channelID: string, enabled: Option<bool>)
  {
    /** An omitted flag means enabled. */
    predicate Enabled() {
      enabled.None? || enabled.value
    }

    function Endpoint(): Endpoint {
      ExposedEndpoint(localHost, localPort)
    }
  }

  datatype ConsumerCfg = ConsumerCfg(
    id: string, listen: string, serverURL: string,
    apiKey: string, enabled: Option<bool>, legacyChannelID: string)
  {
    predicate Enabled() {
      enabled.None? || enabled.value
    }

    function Endpoint(parse: Parser): Endpoint {
      ListenEndpoint(parse, listen)
    }
  }

  function NormalizeProvider(p: ProviderCfg): ProviderCfg {
    ProviderCfg(TrimSpace(p.id), NormalizeServerURL(TrimSpace(p.serverURL)), OrLoopback(p.localHost), p.localPort,
                TrimSpace(p.apiKey), TrimSpace(p.channelID), p.enabled)
  }

  /** A legacy channel_id takes the place of the id. */
  function NormalizeConsumer(c: ConsumerCfg): ConsumerCfg {
    var legacy := TrimSpace(c.legacyChannelID);
    ConsumerCfg(if legacy != "" then legacy else TrimSpace(c.id), TrimSpace(c.listen),
                NormalizeServerURL(TrimSpace(c.serverURL)), TrimSpace(c.apiKey), c.enabled, "")
  }

  predicate ValidProvider(p: ProviderCfg) {
    TrimSpace(p.serverURL) != "" && 1 <= p.localPort <= 65535
  }

  predicate ValidConsumer(c: ConsumerCfg) {
    TrimSpace(c.serverURL) != "" && c.listen != "" && TrimSpace(c.id) != ""
  }

  /** Loops, websockets and listeners are named by numbers that are never reused. */
  datatype ProviderInst = ProviderInst(
    cfg: ProviderCfg, channelID: string, ws: Option<nat>, serveDone: Option<nat>, failed: bool)

  datatype ConsumerInst = ConsumerInst(
    cfg: ConsumerCfg, cancel: bool, listener: Option<nat>, done: Option<nat>, failed: bool)

  /** A serve goroutine that has not exited, and the row it was started for. */
  datatype ServeLoop = ProviderLoop(row: string) | ConsumerLoop(row: string)

  datatype Manager = Manager(
    providers: map<string, ProviderInst>, consumers: map<string, ConsumerInst>,
    loops: map<nat, ServeLoop>, next: nat)

  const EMPTY := Manager(map[], map[], map[], 0)

  datatype StartError = Invalid | Conflict | StillRunning | HandshakeFailed | ListenFailed

  /** The exit of a serve loop clears the row it finds under its id only if the row is still its own. */
  function Exit(m: Manager, h: nat): Manager {
    if h !in m.loops then m
    else
      var m' := m.(loops := m.loops - {h});
      match m.loops[h]
      case ProviderLoop(row) =>
        if row in m.providers && m.providers[row].ws == Some(h)
        then m'.(providers := m.providers[row := m.providers[row].(ws := None, serveDone := None, failed := true)])
        else m'
      case ConsumerLoop(row) =>
        if row in m.consumers && m.consumers[row].listener == Some(h)
        then m'.(consumers := m.consumers[row := m.consumers[row].(cancel := false, listener := None, failed := true)])
        else m'
  }

  function ExitAll(m: Manager, hs: seq<nat>): Manager
    decreases |hs|
  {
    if hs == [] then m else ExitAll(Exit(m, hs[0]), hs[1..])
  }

  /** waitProviderEnded and waitConsumerEnded return once the loop of the row has exited. */
  function WaitProvider(m: Manager, id: string): Manager {
    if id in m.providers && m.providers[id].serveDone.Some? then Exit(m, m.providers[id].serveDone.value) else m
  }

  function WaitConsumer(m: Manager, id: string): Manager {
    if id in m.consumers && m.consumers[id].done.Some? then Exit(m, m.consumers[id].done.value) else m
  }

  /** checkProviderConflictsLocked. */
  predicate ProviderConflict(parse: Parser, m: Manager, p: ProviderCfg) {
    || (exists id :: id in m.consumers
          && ListenCollidesExpose(parse, m.consumers[id].cfg.listen, OrLoopback(p.localHost), p.localPort))
    || (exists id :: id in m.providers && id != p.id
          && m.providers[id].cfg.localPort == p.localPort
          && FuzzyHostMatch(OrLoopback(m.providers[id].cfg.localHost), OrLoopback(p.localHost)))
  }

  /** checkConsumerConflictsLocked. */
  predicate ConsumerConflict(parse: Parser, m: Manager, c: ConsumerCfg) {
    || (exists id :: id in m.consumers && id != c.id && TcpBindingsEquiv(parse, m.consumers[id].cfg.listen, c.listen))
    || (exists id :: id in m.providers
          && ListenCollidesExpose(
               parse, c.listen, OrLoopback(m.providers[id].cfg.localHost), m.providers[id].cfg.localPort))
  }

  function PutProviderInactive(parse: Parser, m: Manager, p: ProviderCfg): (Manager, Result<string, StartError>) {
    if p.id in m.providers && (m.providers[p.id].ws.Some? || m.providers[p.id].serveDone.Some?)
    then (m, Err(StillRunning))
    else if ProviderConflict(parse, m, p) then (m, Err(Conflict))
    else (m.(providers := m.providers[p.id := ProviderInst(p, "", None, None, false)]), Ok(""))
  }

  function PutConsumerInactive(parse: Parser, m: Manager, c: ConsumerCfg): (Manager, Result<string, StartError>) {
    if c.id in m.consumers && (m.consumers[c.id].cancel || m.consumers[c.id].listener.Some?)
    then (m, Err(StillRunning))
    else if ConsumerConflict(parse, m, c) then (m, Err(Conflict))
    else (m.(consumers := m.consumers[c.id := ConsumerInst(c, false, None, None, false)]), Ok(""))
  }

  /** What uuid.New().String() returns: nothing to trim, and not blank. */
  type NewId = s: string | s != "" && IsTrimmed(s) witness "0"

  /**
   The outside of one start: the id made up for a row without one, the answers of
   the server to a reclaim and to a fresh offer, and the loops that exit before
   the wait and after the conflict check.
   */
  datatype ProviderEnv = ProviderEnv(
    newId: NewId, reclaim: Option<string>, offer: Option<string>, before: seq<nat>, between: seq<nat>)

  datatype ConsumerEnv = ConsumerEnv(listenOk: bool, before: seq<nat>, between: seq<nat>)

  /** A preferred channel id is reclaimed first; a fresh one is asked for if that fails. */
  function Handshake(p: ProviderCfg, e: ProviderEnv): Option<string> {
    if TrimSpace(p.channelID) != "" && e.reclaim.Some? then e.reclaim else e.offer
  }

  function WithId(p: ProviderCfg, newId: NewId): ProviderCfg {
    if TrimSpace(p.id) == "" then p.(id := newId) else p
  }

  /** The part of StartProvider after its conflict check. */
  function RunProvider(parse: Parser, m: Manager, p: ProviderCfg, e: ProviderEnv)
    : (Manager, Result<string, StartError>)
  {
    if !p.Enabled() then PutProviderInactive(parse, WaitProvider(m, p.id), p)
    else
      match Handshake(p, e)
      case None =>
        (m.(providers := m.providers[p.id := ProviderInst(p, "", None, None, true)]), Err(HandshakeFailed))
      case Some(ch) =>
        var inst := ProviderInst(p.(channelID := TrimSpace(ch)), ch, Some(m.next), Some(m.next), false);
        (m.(providers := m.providers[p.id := inst], loops := m.loops[m.next := ProviderLoop(p.id)], next := m.next + 1),
         Ok(ch))
  }

  function StartProvider(parse: Parser, m: Manager, p0: ProviderCfg, e: ProviderEnv)
    : (Manager, Result<string, StartError>)
  {
    var p := WithId(NormalizeProvider(p0), e.newId);
    if !ValidProvider(p) then (m, Err(Invalid)) else StartNormalProvider(parse, m, p, e)
  }

  function StartNormalProvider(parse: Parser, m: Manager, p: ProviderCfg, e: ProviderEnv)
    : (Manager, Result<string, StartError>)
  {
    var m1 := WaitProvider(ExitAll(m, e.before), p.id);
    if ProviderConflict(parse, m1, p) then (m1, Err(Conflict))
    else RunProvider(parse, ExitAll(m1, e.between), p, e)
  }

  function RunConsumer(parse: Parser, m: Manager, c: ConsumerCfg, e: ConsumerEnv)
    : (Manager, Result<string, StartError>)
  {
    if !c.Enabled() then PutConsumerInactive(parse, WaitConsumer(m, c.id), c)
    else if !e.listenOk then
      (m.(consumers := m.consumers[c.id := ConsumerInst(c, false, None, None, true)]), Err(ListenFailed))
    else
      var inst := ConsumerInst(c, true, Some(m.next), Some(m.next), false);
      (m.(consumers := m.consumers[c.id := inst], loops := m.loops[m.next := ConsumerLoop(c.id)], next := m.next + 1),
       Ok(""))
  }

  function StartConsumer(parse: Parser, m: Manager, c0: ConsumerCfg, e: ConsumerEnv)
    : (Manager, Result<string, StartError>)
  {
    var c := NormalizeConsumer(c0);
    if !ValidConsumer(c) then (m, Err(Invalid)) else StartNormalConsumer(parse, m, c, e)
  }

  function StartNormalConsumer(parse: Parser, m: Manager, c: ConsumerCfg, e: ConsumerEnv)
    : (Manager, Result<string, StartError>)
  {
    var m1 := WaitConsumer(ExitAll(m, e.before), c.id);
    if ConsumerConflict(parse, m1, c) then (m1, Err(Conflict))
    else RunConsumer(parse, ExitAll(m1, e.between), c, e)
  }

  /** MergePreserveProviderTunnelID: a request without a channel id keeps the one of its row. */
  function MergePreserve(m: Manager, p0: ProviderCfg): ProviderCfg {
    var p := NormalizeProvider(p0);
    if TrimSpace(p.channelID) != "" || TrimSpace(p.id) == "" || TrimSpace(p.id) !in m.providers then p
    else
      var prev := m.providers[TrimSpace(p.id)];
      if TrimSpace(prev.cfg.channelID) != "" then p.(channelID := TrimSpace(prev.cfg.channelID))
      else if TrimSpace(prev.channelID) != "" then p.(channelID := TrimSpace(prev.channelID))
      else p
  }

  function StopProvider(m: Manager, id: string, before: seq<nat>): Manager {
    WaitProvider(ExitAll(m, before), TrimSpace(id))
  }

  function RemoveProvider(m: Manager, id: string, before: seq<nat>): Manager {
    var m' := StopProvider(m, id, before);
    m'.(providers := m'.providers - {TrimSpace(id)})
  }

  function StopConsumer(m: Manager, id: string, before: seq<nat>): Manager {
    WaitConsumer(ExitAll(m, before), TrimSpace(id))
  }

  function RemoveConsumer(m: Manager, id: string, before: seq<nat>): Manager {
    var m' := StopConsumer(m, id, before);
    m'.(consumers := m'.consumers - {TrimSpace(id)})
  }

  /** One row of BootstrapProviders: a disabled row is only put down, an enabled one is started. */
  function BootProvider(parse: Parser, m: Manager, p0: ProviderCfg, e: ProviderEnv): Manager {
    var p := WithId(NormalizeProvider(p0), e.newId);
    if !ValidProvider(p) then m
    else if !p.Enabled() then PutProviderInactive(parse, m, p).0
    else StartProvider(parse, m, p, e).0
  }

  function BootConsumer(parse: Parser, m: Manager, c0: ConsumerCfg, e: ConsumerEnv): Manager {
    var c := NormalizeConsumer(c0);
    if !ValidConsumer(c) then m
    else if !c.Enabled() then PutConsumerInactive(parse, m, c).0
    else StartConsumer(parse, m, c, e).0
  }

  function BootProviders(parse: Parser, m: Manager, ps: seq<ProviderCfg>, es: seq<ProviderEnv>): Manager
    requires |ps| == |es|
  {
    if ps == [] then m
    else
      var n := |ps| - 1;
      BootProvider(parse, BootProviders(parse, m, ps[..n], es[..n]), ps[n], es[n])
  }

  function BootConsumers(parse: Parser, m: Manager, cs: seq<ConsumerCfg>, es: seq<ConsumerEnv>): Manager
    requires |cs| == |es|
  {
    if cs == [] then m
    else
      var n := |cs| - 1;
      BootConsumer(parse, BootConsumers(parse, m, cs[..n], es[..n]), cs[n], es[n])
  }
}
