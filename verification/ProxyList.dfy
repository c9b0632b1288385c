/** The configured list of proxies, seen by id. */
module ProxyList {
  datatype ProxyConfig = ProxyConfig(id: string, name: string, remote: string, enabled: bool)

  function Ids(ps: seq<ProxyConfig>): set<string> {
    if ps == [] then {} else Ids(ps[..|ps| - 1]) + {ps[|ps| - 1].id}
  }

  /** The entry a later one with the same id hides. */
  function Last(ps: seq<ProxyConfig>, id: string): ProxyConfig
    requires id in Ids(ps)
  {
    var n := |ps| - 1;
    if ps[n].id == id then ps[n] else Last(ps[..n], id)
  }

  /** The entry that hides every later one with the same id. */
  function First(ps: seq<ProxyConfig>, id: string): ProxyConfig
    requires id in Ids(ps)
  {
    var n := |ps| - 1;
    if id in Ids(ps[..n]) then First(ps[..n], id) else ps[n]
  }

  /** Nothing a running route depends on differs. */
  predicate SameRoute(a: ProxyConfig, b: ProxyConfig) {
    a.enabled == b.enabled && a.remote == b.remote && a.name == b.name
  }

  /** No entry with the id asks for another route than `c`. */
  predicate Kept(c: ProxyConfig, ps: seq<ProxyConfig>, id: string) {
    forall k :: 0 <= k < |ps| && ps[k].id == id ==> SameRoute(c, ps[k])
  }

  predicate Distinct(ps: seq<ProxyConfig>) {
    forall i, j :: 0 <= i < j < |ps| ==> ps[i].id != ps[j].id
  }

  lemma {:induction false} IdsAreListed(ps: seq<ProxyConfig>, id: string)
    ensures id in Ids(ps) <==> exists k :: 0 <= k < |ps| && ps[k].id == id
  {
    if ps != [] {
      var n := |ps| - 1;
      IdsAreListed(ps[..n], id);
      if id in Ids(ps[..n]) {
        var k :| 0 <= k < n && ps[..n][k].id == id;
        assert ps[k].id == id;
      }
      if k :| 0 <= k < n && ps[k].id == id {
        assert ps[..n][k].id == id;
      }
    }
  }

  lemma {:induction false} LastIsLast(ps: seq<ProxyConfig>, id: string)
    requires id in Ids(ps)
    ensures exists k :: 0 <= k < |ps| && ps[k] == Last(ps, id) && ps[k].id == id
                        && forall j :: k < j < |ps| ==> ps[j].id != id
  {
    var n := |ps| - 1;
    if ps[n].id == id {
      assert ps[n] == Last(ps, id);
    } else {
      LastIsLast(ps[..n], id);
      var k :| 0 <= k < n && ps[..n][k] == Last(ps[..n], id) && ps[..n][k].id == id
               && forall j :: k < j < n ==> ps[..n][j].id != id;
      forall j | k < j < |ps|
        ensures ps[j].id != id
      {
        assert j < n ==> ps[..n][j] == ps[j];
      }
      assert ps[k] == Last(ps, id) && ps[k].id == id;
    }
  }

  lemma LastHasId(ps: seq<ProxyConfig>)
    ensures forall id :: id in Ids(ps) ==> Last(ps, id).id == id
  {
    forall id | id in Ids(ps)
      ensures Last(ps, id).id == id
    {
      LastIsLast(ps, id);
    }
  }

  lemma {:induction false} FirstIsFirst(ps: seq<ProxyConfig>, id: string)
    requires id in Ids(ps)
    ensures exists k :: 0 <= k < |ps| && ps[k] == First(ps, id) && ps[k].id == id
                        && forall j :: 0 <= j < k ==> ps[j].id != id
  {
    var n := |ps| - 1;
    IdsAreListed(ps[..n], id);
    if id in Ids(ps[..n]) {
      FirstIsFirst(ps[..n], id);
      var k :| 0 <= k < n && ps[..n][k] == First(ps[..n], id) && ps[..n][k].id == id
               && forall j :: 0 <= j < k ==> ps[..n][j].id != id;
      assert ps[k] == First(ps, id) && ps[k].id == id;
      forall j | 0 <= j < k
        ensures ps[j].id != id
      {
        assert ps[..n][j] == ps[j];
      }
    } else {
      assert ps[n] == First(ps, id);
      forall j | 0 <= j < n
        ensures ps[j].id != id
      {
        assert ps[..n][j] == ps[j];
      }
    }
  }

  /** No two entries with one id ask for different routes. */
  predicate Consistent(ps: seq<ProxyConfig>) {
    forall i, j :: 0 <= i < |ps| && 0 <= j < |ps| && ps[i].id == ps[j].id ==> SameRoute(ps[i], ps[j])
  }

  predicate AllKept(ps: seq<ProxyConfig>) {
    forall id :: id in Ids(ps) ==> Kept(Last(ps, id), ps, id)
  }

  /**
   Once every listed id is served as its last entry says, one more sync replaces
   nothing exactly if the list is consistent.
   */
  lemma SecondSyncKeepsAll(ps: seq<ProxyConfig>)
    ensures AllKept(ps) <==> Consistent(ps)
  {
    if AllKept(ps) {
      forall i, j | 0 <= i < |ps| && 0 <= j < |ps| && ps[i].id == ps[j].id
        ensures SameRoute(ps[i], ps[j])
      {
        AgreeingIfKept(ps, i, j);
      }
      hide SameRoute, AllKept;
    }
    if Consistent(ps) {
      hide Consistent, Kept;
      forall id | id in Ids(ps)
        ensures Kept(Last(ps, id), ps, id)
      {
        KeptIfAgreeing(ps, id);
      }
    }
  }

  lemma AgreeingIfKept(ps: seq<ProxyConfig>, i: nat, j: nat)
    requires i < |ps| && j < |ps| && ps[i].id == ps[j].id
    ensures ps[i].id in Ids(ps)
    ensures Kept(Last(ps, ps[i].id), ps, ps[i].id) ==> SameRoute(ps[i], ps[j])
  {
    IdsAreListed(ps, ps[i].id);
    hide Last, Ids;
    if Kept(Last(ps, ps[i].id), ps, ps[i].id) {
      KeptAt(Last(ps, ps[i].id), ps, i);
      KeptAt(Last(ps, ps[i].id), ps, j);
    }
  }

  lemma KeptIfAgreeing(ps: seq<ProxyConfig>, id: string)
    requires Consistent(ps) && id in Ids(ps)
    ensures Kept(Last(ps, id), ps, id)
  {
    LastIsLast(ps, id);
    hide Last, Ids, SameRoute;
  }

  lemma KeptAt(c: ProxyConfig, ps: seq<ProxyConfig>, k: nat)
    requires k < |ps| && Kept(c, ps, ps[k].id)
    ensures SameRoute(c, ps[k])
  {
  }

  /** Starting the list and syncing to it serve the same configurations if the ids are distinct. */
  lemma FirstIsLast(ps: seq<ProxyConfig>, id: string)
    requires Distinct(ps) && id in Ids(ps)
    ensures First(ps, id) == Last(ps, id)
  {
    FirstIsFirst(ps, id);
    LastIsLast(ps, id);
  }

  /** What one more entry changes. */
  lemma OneMoreEntry(ps: seq<ProxyConfig>, i: nat, c: ProxyConfig, id: string)
    requires i < |ps|
    ensures Ids(ps[..i + 1]) == Ids(ps[..i]) + {ps[i].id}
    ensures id in Ids(ps[..i + 1]) ==> Last(ps[..i + 1], id) == if ps[i].id == id then ps[i] else Last(ps[..i], id)
    ensures Kept(c, ps[..i + 1], id) <==> Kept(c, ps[..i], id) && (ps[i].id == id ==> SameRoute(c, ps[i]))
  {
    assert ps[..i + 1][..i] == ps[..i];
    assert ps[..i + 1][i] == ps[i];
    if Kept(c, ps[..i + 1], id) {
      assert forall k :: 0 <= k < i ==> ps[..i][k] == ps[..i + 1][k];
    }
  }

  // ---- Editing the list ----

  predicate FirstAt(ps: seq<ProxyConfig>, id: string, k: nat) {
    k < |ps| && ps[k].id == id && forall j :: 0 <= j < k ==> ps[j].id != id
  }

  lemma IdsAfterAppend(ps: seq<ProxyConfig>, p: ProxyConfig)
    ensures Ids(ps + [p]) == Ids(ps) + {p.id}
  {
    assert (ps + [p])[..|ps|] == ps;
  }

  lemma IdsAfterReplace(ps: seq<ProxyConfig>, k: nat, p: ProxyConfig)
    requires k < |ps| && ps[k].id == p.id
    ensures Ids(ps[k := p]) == Ids(ps)
  {
    forall id
      ensures id in Ids(ps[k := p]) <==> id in Ids(ps)
    {
      IdsAreListed(ps, id);
      IdsAreListed(ps[k := p], id);
      assert forall j :: 0 <= j < |ps| ==> ps[k := p][j].id == ps[j].id;
      hide Ids;
    }
  }

  function Without(ps: seq<ProxyConfig>, k: nat): seq<ProxyConfig>
    requires k < |ps|
  {
    ps[..k] + ps[k + 1..]
  }

  lemma OthersStay(ps: seq<ProxyConfig>, k: nat, j: nat)
    requires k < |ps| && j < |ps| && j != k
    ensures ps[j].id in Ids(Without(ps, k))
  {
    var i := if j < k then j else j - 1;
    assert Without(ps, k)[i] == ps[j];
    IdsAreListed(Without(ps, k), ps[j].id);
  }

  lemma WithoutAt(ps: seq<ProxyConfig>, k: nat)
    requires k < |ps|
    ensures |Without(ps, k)| == |ps| - 1
    ensures forall i :: 0 <= i < |ps| - 1 ==> Without(ps, k)[i] == ps[if i < k then i else i + 1]
  {
  }

  lemma NothingNew(ps: seq<ProxyConfig>, k: nat, i: nat)
    requires k < |ps| && i < |ps| - 1
    ensures exists j :: 0 <= j < |ps| && j != k && ps[j] == Without(ps, k)[i]
  {
    assert ps[if i < k then i else i + 1] == Without(ps, k)[i];
  }

  lemma IdAfterRemove(ps: seq<ProxyConfig>, k: nat, id: string)
    requires k < |ps| && Distinct(ps)
    ensures id in Ids(Without(ps, k)) <==> id in Ids(ps) && id != ps[k].id
  {
    IdsAreListed(ps, id);
    IdsAreListed(Without(ps, k), id);
    if id in Ids(ps) && id != ps[k].id {
      var j :| 0 <= j < |ps| && ps[j].id == id;
      OthersStay(ps, k, j);
    }
    if id in Ids(Without(ps, k)) {
      var i :| 0 <= i < |Without(ps, k)| && Without(ps, k)[i].id == id;
      NothingNew(ps, k, i);
    }
    hide Ids;
  }

  lemma IdsAfterRemove(ps: seq<ProxyConfig>, k: nat)
    requires k < |ps| && Distinct(ps)
    ensures Ids(Without(ps, k)) == Ids(ps) - {ps[k].id}
    ensures Distinct(Without(ps, k))
  {
    var now, was := Ids(Without(ps, k)), Ids(ps);
    forall id | id in now
      ensures id in was - {ps[k].id}
    {
      IdAfterRemove(ps, k, id);
    }
    forall id | id in was - {ps[k].id}
      ensures id in now
    {
      IdAfterRemove(ps, k, id);
    }
    hide Ids;
  }
}
