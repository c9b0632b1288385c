/**
 The client's registry of forward tunnels: one listener per entry, and what each
 call does to the entries.
 */
module ForwardRegistry {
  import opened Base
  import opened Text

  datatype Config = Config(id: string, serverURL: string, proxyID: string, localPort: int, apiKey: string)

  const ZERO := Config("", "", "", 0, "")

  /** An entry: its stored configuration, the one its tunnel uses, and the port it listens on. */
  datatype Row = Row(cfg: Config, active: Config, listener: Option<int>)

  type Rows = map<string, Row>

  const DEFAULT_ID := "default"

  function EnsureProxyID(id: string): string {
    if TrimSpace(id) != "" then TrimSpace(id) else DEFAULT_ID
  }

  /** trimCopy, and an id for an entry without one. */
  function Normal(c: Config): Config {
    Config(EnsureProxyID(TrimSpace(c.id)), NormalizeServerURL(TrimSpace(c.serverURL)), TrimSpace(c.proxyID),
           c.localPort, TrimSpace(c.apiKey))
  }

  predicate ValidConfig(c: Config) {
    TrimSpace(c.serverURL) != "" && TrimSpace(c.proxyID) != "" && 1 <= c.localPort <= 65535
  }

  predicate PortBusy(m: Rows, port: int, except: string) {
    port >= 1 && exists id :: id in m && id != except && m[id].cfg.localPort == port
  }

  datatype RegistryError = Invalid | Busy | ListenFailed | NoId

  /** A new entry whose first listen fails is left behind with no configuration. */
  function StartRow(m: Rows, c0: Config, listens: bool): (Rows, Result<(), RegistryError>) {
    var c := Normal(c0);
    if !ValidConfig(c) then (m, Err(Invalid))
    else if PortBusy(m, c.localPort, c.id) then (m, Err(Busy))
    else if listens then (m[c.id := Row(c, c, Some(c.localPort))], Ok(()))
    else (m[c.id := if c.id in m then m[c.id].(listener := None) else Row(ZERO, ZERO, None)], Err(ListenFailed))
  }

  function StopRow(m: Rows, id: string): Rows {
    var k := EnsureProxyID(id);
    if k in m then m[k := m[k].(listener := None)] else m
  }

  function RemoveRow(m: Rows, id: string): (Rows, Result<(), RegistryError>) {
    if TrimSpace(id) == "" then (m, Err(NoId)) else (m - {TrimSpace(id)}, Ok(()))
  }

  function BootRow(m: Rows, c0: Config, listens: bool): Rows {
    var c := Normal(c0);
    if !ValidConfig(c) then m else StartRow(m, c, listens).0
  }

  function BootRows(m: Rows, cs: seq<Config>, listens: seq<bool>): Rows
    requires |cs| == |listens|
  {
    if cs == [] then m
    else
      var n := |cs| - 1;
      BootRow(BootRows(m, cs[..n], listens[..n]), cs[n], listens[n])
  }

  datatype Op =
    | Starting(c: Config, listens: bool)
    | Stopping(id: string)
    | Removing(id: string)

  function Do(m: Rows, op: Op): Rows {
    match op
    case Starting(c, listens) => StartRow(m, c, listens).0
    case Stopping(id) => StopRow(m, id)
    case Removing(id) => RemoveRow(m, id).0
  }

  /** The program's life: the entries of its file are brought up, then calls follow. */
  function Run(file: seq<Config>, listens: seq<bool>, ops: seq<Op>): Rows
    requires |file| == |listens|
  {
    if ops == [] then BootRows(map[], file, listens)
    else Do(Run(file, listens, ops[..|ops| - 1]), ops[|ops| - 1])
  }

  // ---- What every call keeps ----

  predicate GoodConfig(c: Config) {
    Normal(c) == c && ValidConfig(c)
  }

  /** The tunnel uses the stored configuration; only a configured entry listens, and on its own port. */
  predicate GoodRow(id: string, r: Row) {
    && r.active == r.cfg
    && (r.cfg == ZERO || (GoodConfig(r.cfg) && r.cfg.id == id))
    && (r.listener.Some? ==> r.cfg != ZERO && r.listener == Some(r.cfg.localPort))
  }

  ghost predicate WF(m: Rows) {
    && (forall id :: id in m ==> GoodRow(id, m[id]))
    && (forall i, j :: i in m && j in m && m[i].cfg.localPort == m[j].cfg.localPort >= 1 ==> i == j)
  }

  lemma NormalIdempotent(c: Config)
    ensures Normal(Normal(c)) == Normal(c)
  {
    TrimSpaceTrims(c.id);
    TrimSpaceTrims(c.serverURL);
    TrimSpaceTrims(c.proxyID);
    TrimSpaceTrims(c.apiKey);
    TrimSpaceTrims(TrimSpace(c.id));
    assert TrimSpace(DEFAULT_ID) == DEFAULT_ID;
    NormalizeServerURLIdempotent(TrimSpace(c.serverURL));
  }

  lemma PutKeeps(m: Rows, id: string, r: Row)
    requires WF(m) && GoodRow(id, r) && !PortBusy(m, r.cfg.localPort, id)
    ensures WF(m[id := r])
  {
    hide GoodRow;
  }

  lemma StartKeeps(m: Rows, c0: Config, listens: bool)
    requires WF(m)
    ensures WF(StartRow(m, c0, listens).0)
  {
    var c := Normal(c0);
    NormalIdempotent(c0);
    if ValidConfig(c) && !PortBusy(m, c.localPort, c.id) {
      assert c.id in m ==> GoodRow(c.id, m[c.id]);
      assert c.id in m ==> !PortBusy(m, m[c.id].cfg.localPort, c.id);
      var r := if listens then Row(c, c, Some(c.localPort))
               else if c.id in m then m[c.id].(listener := None) else Row(ZERO, ZERO, None);
      PutKeeps(m, c.id, r);
    }
    hide WF, Normal, ValidConfig, PortBusy;
  }

  lemma DoKeeps(m: Rows, op: Op)
    requires WF(m)
    ensures WF(Do(m, op))
  {
    match op
    case Starting(c, listens) => StartKeeps(m, c, listens);
    case Stopping(id) =>
      var k := EnsureProxyID(id);
      hide GoodConfig, EnsureProxyID;
      if k in m {
        assert GoodRow(k, m[k]);
      }
    case Removing(id) => hide GoodRow;
  }

  lemma {:induction false} BootKeeps(m: Rows, cs: seq<Config>, listens: seq<bool>)
    requires WF(m) && |cs| == |listens|
    ensures WF(BootRows(m, cs, listens))
    decreases |cs|
  {
    hide WF;
    if cs != [] {
      var n := |cs| - 1;
      BootKeeps(m, cs[..n], listens[..n]);
      StartKeeps(BootRows(m, cs[..n], listens[..n]), Normal(cs[n]), listens[n]);
    }
  }

  lemma {:induction false} RunWF(file: seq<Config>, listens: seq<bool>, ops: seq<Op>)
    requires |file| == |listens|
    ensures WF(Run(file, listens, ops))
    decreases |ops|
  {
    if ops == [] {
      BootKeeps(map[], file, listens);
    } else {
      RunWF(file, listens, ops[..|ops| - 1]);
      DoKeeps(Run(file, listens, ops[..|ops| - 1]), ops[|ops| - 1]);
    }
  }

  /** In every state of every run, entries that listen have different ports and use their stored configuration. */
  lemma ListenersApart(file: seq<Config>, listens: seq<bool>, ops: seq<Op>, i: string, j: string)
    requires |file| == |listens|
    ensures var m := Run(file, listens, ops);
      && (i in m && m[i].listener.Some? ==>
            && m[i].active == m[i].cfg && m[i].cfg.id == i && ValidConfig(m[i].cfg)
            && m[i].listener == Some(m[i].cfg.localPort))
      && (i in m && j in m && m[i].cfg.localPort == m[j].cfg.localPort >= 1 ==> i == j)
  {
    RunWF(file, listens, ops);
    hide Run, Normal;
    var m := Run(file, listens, ops);
    assert i in m ==> GoodRow(i, m[i]);
  }

  // ---- What a call answers and leaves ----

  /** Normalizing takes away blanks around the texts of an entry, names an unnamed one, and does nothing else. */
  lemma PaddedConfigIsRead(q: Config, c: Config)
    requires IsTrimmed(c.id) && IsTrimmed(c.proxyID) && IsTrimmed(c.apiKey)
    requires if AllSpace(q.id) then c.id == "default" else Padded(q.id, c.id)
    requires Padded(q.proxyID, c.proxyID) && Padded(q.apiKey, c.apiKey)
    requires c.serverURL == NormalizeServerURL(q.serverURL) && c.localPort == q.localPort
    ensures Normal(q) == c
  {
    BlankIff(q.id);
    if !AllSpace(q.id) { PaddedTrims(q.id, c.id); }
    PaddedTrims(q.proxyID, c.proxyID);
    PaddedTrims(q.apiKey, c.apiKey);
    TrimSpaceTrims(q.serverURL);
    TrimSpaceTrims(q.id);
    hide TrimSpace, Padded, AllSpace, IsTrimmed;
  }

  /** Another entry is configured for the port. */
  ghost predicate Taken(m: Rows, port: int, id: string) {
    exists k :: k in m && k != id && m[k].cfg.localPort == port
  }

  /**
   A start answers `Invalid` exactly for a blank server, a blank proxy or a port out
   of range, and `Busy` exactly if another entry has the port; neither changes
   anything. Otherwise its entry listens with the new configuration; or, if the
   listen fails, it is left stopped, with what it was configured for before.
   */
  lemma StartRowOutcome(m: Rows, c0: Config, listens: bool)
    ensures var (c, r) := (Normal(c0), StartRow(m, c0, listens));
      if TrimSpace(c0.serverURL) == "" || TrimSpace(c0.proxyID) == "" || c0.localPort < 1 || c0.localPort > 65535
      then r == (m, Err(Invalid))
      else if Taken(m, c0.localPort, c.id) then r == (m, Err(Busy))
      else if listens then r == (m[c.id := Row(c, c, Some(c0.localPort))], Ok(()))
      else if c.id in m then r == (m[c.id := Row(m[c.id].cfg, m[c.id].active, None)], Err(ListenFailed))
      else r == (m[c.id := Row(ZERO, ZERO, None)], Err(ListenFailed))
  {
    TrimSpaceTrims(c0.serverURL);
    TrimSpaceTrims(c0.proxyID);
    NormalizeServerURLIdempotent(TrimSpace(c0.serverURL));
    assert PortBusy(m, c0.localPort, Normal(c0).id) <==> c0.localPort >= 1 && Taken(m, c0.localPort, Normal(c0).id);
    hide TrimSpace, NormalizeServerURL, EnsureProxyID, PortBusy, Taken;
  }

  /**
   A stop ends the listener of the entry it names, `default` for a blank id, and
   nothing else: configurations stay, other entries stay, an unknown id does nothing.
   */
  lemma StopRowOutcome(m: Rows, id: string, name: string)
    requires if AllSpace(id) then name == "default" else IsTrimmed(name) && Padded(id, name)
    ensures StopRow(m, id) == if name in m then m[name := Row(m[name].cfg, m[name].active, None)] else m
  {
    BlankIff(id);
    if !AllSpace(id) { PaddedTrims(id, name); }
    hide TrimSpace, Padded, AllSpace, IsTrimmed;
  }

  /** A removal takes out the entry it names and no other, and refuses a blank id. */
  lemma RemoveRowOutcome(m: Rows, id: string, name: string, k: string)
    requires IsTrimmed(name) && Padded(id, name)
    ensures var r := RemoveRow(m, id);
      if name == "" then r == (m, Err(NoId))
      else r.1 == Ok(()) && (k in r.0 <==> k in m && k != name) && (k in r.0 ==> r.0[k] == m[k])
  {
    PaddedTrims(id, name);
    hide TrimSpace, Padded, IsTrimmed;
  }

  lemma RowIdIsNamed(c: Config)
    requires GoodConfig(c)
    ensures TrimSpace(c.id) == c.id != "" && EnsureProxyID(c.id) == c.id
  {
    TrimSpaceTrims(c.id);
    assert TrimSpace(DEFAULT_ID) == DEFAULT_ID;
    hide TrimSpace;
  }

  /**
   Stopping loses nothing: the port stays reserved for the entry, so in every state
   of every run a stopped entry is started again with what the save holds for it,
   as soon as the system lets it listen; and if it was listening, this leads back
   to the very same state.
   */
  lemma StopThenStart(file: seq<Config>, listens: seq<bool>, ops: seq<Op>, id: string)
    requires |file| == |listens|
    ensures var m := Run(file, listens, ops);
      id in m && m[id].cfg != ZERO ==>
        && StartRow(StopRow(m, id), StopRow(m, id)[id].cfg, true) ==
           (m[id := Row(m[id].cfg, m[id].cfg, Some(m[id].cfg.localPort))], Ok(()))
        && (m[id].listener.Some? ==> StartRow(StopRow(m, id), StopRow(m, id)[id].cfg, true).0 == m)
  {
    var m := Run(file, listens, ops);
    RunWF(file, listens, ops);
    hide Run;
    if id in m && m[id].cfg != ZERO {
      assert GoodRow(id, m[id]);
      RowIdIsNamed(m[id].cfg);
      var s := StopRow(m, id);
      assert s == m[id := m[id].(listener := None)];
      assert !PortBusy(s, m[id].cfg.localPort, id) by {
        assert forall k :: k in s ==> s[k].cfg == m[k].cfg;
      }
      hide Normal, EnsureProxyID, TrimSpace, PortBusy, WF;
      assert m[id].listener.Some? ==> m[id] == Row(m[id].cfg, m[id].cfg, Some(m[id].cfg.localPort));
      assert s[id := Row(m[id].cfg, m[id].cfg, Some(m[id].cfg.localPort))] ==
             m[id := Row(m[id].cfg, m[id].cfg, Some(m[id].cfg.localPort))];
    }
  }

  // ---- Restart ----

  /** What is left of an entry after a restart. */
  function Restarted(c: Config, listens: bool): Row {
    if listens then Row(c, c, Some(c.localPort)) else Row(ZERO, ZERO, None)
  }

  lemma BootOne(m: Rows, b: Rows, id: string, listens: bool)
    requires WF(m) && id in m && id !in b
    requires forall k :: k in b ==> k in m && k != id && (b[k].cfg == m[k].cfg || b[k].cfg == ZERO)
    ensures BootRow(b, m[id].cfg, listens) ==
            if m[id].cfg == ZERO then b else b[id := Restarted(m[id].cfg, listens)]
  {
    assert GoodRow(id, m[id]);
    assert TrimSpace("") == "";
    assert m[id].cfg != ZERO ==> !PortBusy(b, m[id].cfg.localPort, id);
    hide WF, PortBusy;
  }

  /** Entries of the registry, none twice. */
  predicate Listed(m: Rows, ids: seq<string>) {
    && (forall i :: 0 <= i < |ids| ==> ids[i] in m)
    && (forall i, j :: 0 <= i < j < |ids| ==> ids[i] != ids[j])
  }

  /** What a save writes for them. */
  function Configs(m: Rows, ids: seq<string>): seq<Config>
    requires Listed(m, ids)
  {
    seq(|ids|, i requires 0 <= i < |ids| => m[ids[i]].cfg)
  }

  ghost predicate Rebooted(m: Rows, ids: seq<string>, listens: seq<bool>, b: Rows)
    requires Listed(m, ids) && |ids| == |listens|
  {
    && (forall id :: id in b ==> id in m && id in ids && (b[id].cfg == m[id].cfg || b[id].cfg == ZERO))
    && (forall i :: 0 <= i < |ids| ==>
          if m[ids[i]].cfg == ZERO then ids[i] !in b
          else ids[i] in b && b[ids[i]] == Restarted(m[ids[i]].cfg, listens[i]))
  }

  lemma RebootedOneMore(m: Rows, ids: seq<string>, listens: seq<bool>, b: Rows)
    requires Listed(m, ids) && |ids| == |listens| > 0
    requires var n := |ids| - 1; Listed(m, ids[..n]) && Rebooted(m, ids[..n], listens[..n], b)
    ensures var (n, id) := (|ids| - 1, ids[|ids| - 1]);
      && (forall k :: k in b ==> k in m && k != id && (b[k].cfg == m[k].cfg || b[k].cfg == ZERO))
      && id !in b
      && Rebooted(m, ids, listens, if m[id].cfg == ZERO then b else b[id := Restarted(m[id].cfg, listens[n])])
  {
    var n := |ids| - 1;
    assert ids[n] !in ids[..n];
    assert forall id :: id in ids[..n] ==> id in ids;
    assert forall i :: 0 <= i < n ==> ids[..n][i] == ids[i] && listens[..n][i] == listens[i];
  }

  /**
   A restart brings every configured entry back, but keeps its configuration only
   if it can listen at once: an entry whose port is taken comes back empty, and
   its configuration is gone from the next save.
   */
  lemma {:induction false} RestartKeepsWhatListens(m: Rows, ids: seq<string>, listens: seq<bool>)
    requires WF(m) && Listed(m, ids) && |ids| == |listens|
    ensures Rebooted(m, ids, listens, BootRows(map[], Configs(m, ids), listens))
    decreases |ids|
  {
    hide WF, BootRow, Restarted, Rebooted;
    if ids == [] {
      RebootedNone(m);
    } else {
      var n := |ids| - 1;
      assert Listed(m, ids[..n]) && ids[n] in m;
      assert Configs(m, ids)[..n] == Configs(m, ids[..n]) && Configs(m, ids)[n] == m[ids[n]].cfg;
      hide Listed, Configs;
      RestartKeepsWhatListens(m, ids[..n], listens[..n]);
      var b := BootRows(map[], Configs(m, ids[..n]), listens[..n]);
      RebootedOneMore(m, ids, listens, b);
      BootOne(m, b, ids[n], listens[n]);
    }
  }

  lemma RebootedNone(m: Rows)
    ensures Rebooted(m, [], [], map[])
  {
  }

  const SAMPLE := Config("a", "ws://host", "p", 8080, "")

  lemma SampleIsGood()
    ensures GoodConfig(SAMPLE)
  {
    assert TrimSpace("a") == "a" && TrimSpace("p") == "p" && TrimSpace("") == "";
    assert TrimSpace("ws://host") == "ws://host";
    assert HasPrefixFold("ws://host", "ws://");
    WebSocketURLIsNormal("ws://host");
    hide TrimSpace, HasPrefixFold;
  }

  lemma StartFirst(c: Config, listens: bool)
    requires GoodConfig(c)
    ensures StartRow(map[], c, listens).0 == map[c.id := Restarted(c, listens)]
    ensures BootRows(map[], [c], [listens]) == map[c.id := Restarted(c, listens)]
  {
    hide Normal, ValidConfig;
    assert [c][..0] == [] && [listens][..0] == [];
    assert BootRows(map[], [c], [listens]) == BootRow(map[], c, listens);
  }

  /**
   An entry that runs; a restart of the program in which its port is taken; and one
   more, in which it is free again: the configuration is lost in the first, and
   the second does not even have the entry.
   */
  lemma ConfigurationLost()
    ensures var m := Run([], [], [Starting(SAMPLE, true)]);
      var again := Run([SAMPLE], [false], []);
      && Listed(m, ["a"]) && Configs(m, ["a"]) == [SAMPLE]
      && Listed(again, ["a"]) && Configs(again, ["a"]) == [ZERO]
      && Run([ZERO], [true], []) == map[]
  {
    SampleIsGood();
    StartFirst(SAMPLE, true);
    StartFirst(SAMPLE, false);
    assert [Starting(SAMPLE, true)][..0] == [];
    ZeroIsSkipped();
    hide Normal, ValidConfig, StartRow, BootRow;
    assert Run([], [], []) == map[];
  }

  lemma ZeroIsSkipped()
    ensures BootRows(map[], [ZERO], [true]) == map[]
  {
    assert [ZERO][..0] == [] && [true][..0] == [];
    assert TrimSpace("") == "";
    hide NormalizeServerURL;
  }
}
