/** The client's dial loop: one signature, ten attempts, growing pauses. */
module Dialing {
  import opened Base
  import opened Text
  import opened AccessAuth

  datatype Outcome = Connected | Rejected | NetworkError

  /** One dial: how it ends, and how long it takes. */
  datatype Attempt = Attempt(outcome: Outcome, took: real)

  const ATTEMPTS := 10

  function Pow2(i: nat): nat {
    if i == 0 then 1 else 2 * Pow2(i - 1)
  }

  /** The pause after a failed attempt, in seconds. */
  function Wait(i: nat): nat {
    if Pow2(i) > 60 then 60 else Pow2(i)
  }

  function Waits(k: nat): nat {
    if k == 0 then 0 else Waits(k - 1) + Wait(k - 1)
  }

  /** The time the first `k` dials take. */
  function Took(attempts: seq<Attempt>, k: nat): real
    requires k <= |attempts|
  {
    if k == 0 then 0.0 else Took(attempts, k - 1) + attempts[k - 1].took
  }

  /** The time of the k-th attempt, counted from the moment of signing. */
  function Elapsed(attempts: seq<Attempt>, k: nat): real
    requires k <= |attempts|
  {
    if k == 0 then 0.0 else Elapsed(attempts, k - 1) + attempts[k - 1].took + Wait(k - 1) as real
  }

  lemma {:induction false} ElapsedIsDialsAndPauses(attempts: seq<Attempt>, k: nat)
    requires k <= |attempts|
    ensures Elapsed(attempts, k) == Took(attempts, k) + Waits(k) as real
  {
    if k > 0 {
      ElapsedIsDialsAndPauses(attempts, k - 1);
    }
    hide Wait;
  }

  lemma OneMoreAttempt(attempts: seq<Attempt>, k: nat)
    requires k < |attempts|
    ensures Elapsed(attempts, k + 1) ==
            Elapsed(attempts, k) + attempts[k].took + (if Pow2(k) > 60 then 60 else Pow2(k)) as real
  {
  }

  /** Dials until one connects or is rejected; `starts` are the times of the attempts made. */
  method DialWebSocketPath(attempts: seq<Attempt>, t0: real) returns (r: Outcome, starts: seq<real>)
    requires |attempts| == ATTEMPTS
    ensures 1 <= |starts| <= ATTEMPTS
    ensures forall k :: 0 <= k < |starts| ==> starts[k] == t0 + Elapsed(attempts, k)
    ensures forall k :: 0 <= k < |starts| - 1 ==> attempts[k].outcome == NetworkError
    ensures r == attempts[|starts| - 1].outcome
    ensures r == NetworkError ==> |starts| == ATTEMPTS
  {
    starts := [];
    var clock := t0;
    var i := 0;
    while i < ATTEMPTS
      invariant 0 <= i <= ATTEMPTS && |starts| == i
      invariant clock == t0 + Elapsed(attempts, i)
      invariant forall k :: 0 <= k < i ==> starts[k] == t0 + Elapsed(attempts, k)
      invariant forall k :: 0 <= k < i ==> attempts[k].outcome == NetworkError
    {
      hide Elapsed, Pow2;
      OneMoreAttempt(attempts, i);
      starts := starts + [clock];
      clock := clock + attempts[i].took;
      if attempts[i].outcome != NetworkError {
        return attempts[i].outcome, starts;
      }
      var wait := Pow2(i);
      if wait > 60 {
        wait := 60;
      }
      clock := clock + wait as real;
      i := i + 1;
    }
    return NetworkError, starts;
  }

  /** There are ten attempts; the pauses before the last one add up to 243 seconds. */
  lemma {:induction false} PausesBeforeTheLast(k: nat)
    requires k < ATTEMPTS
    ensures ATTEMPTS == 10 && Waits(k) <= Waits(ATTEMPTS - 1) == 243
    ensures seq(10, i requires 0 <= i < 10 => Wait(i)) == [1, 2, 4, 8, 16, 32, 60, 60, 60, 60]
    decreases 9 - k
  {
    assert Pow2(6) == 64 by {
      assert Pow2(3) == 8;
    }
    assert Waits(6) == 63;
    Pow2Grows(6, 7);
    Pow2Grows(6, 8);
    Pow2Grows(6, 9);
    assert Waits(9) == Waits(6) + 60 + 60 + 60;
    if k < 9 {
      PausesBeforeTheLast(k + 1);
    }
  }

  lemma {:induction false} Pow2Grows(i: nat, j: nat)
    requires i <= j
    ensures Pow2(i) <= Pow2(j)
    decreases j
  {
    if i < j {
      Pow2Grows(i, j - 1);
    }
  }

  /** What DialWebSocketPath puts into the URL; it does so once, before its loop. */
  function SignedRequest(hash: Hash, apiKey: string, now: int): Request {
    var ak := TrimSpace(apiKey);
    var ts := FormatInt(now);
    var sig := ToLower(SignAccessPayload(hash, ak, ts, ak));
    Request(false, _ => "",
            name => if ak == "" then "" else if name == "psp_ak" then ak else if name == "psp_ts" then ts
                    else if name == "psp_sig" then sig else "")
  }

  /** The query carries the trimmed key, the second of signing and the signed digest, or nothing for a blank key. */
  lemma SignedQuery(hash: Hash, apiKey: string, now: int)
    ensures var (r, ak, ts) := (SignedRequest(hash, apiKey, now), TrimSpace(apiKey), FormatInt(now));
      && !r.options && r.header("X-Psp-Ak") == r.header("X-Psp-Timestamp") == r.header("X-Psp-Signature") == ""
      && (if ak == "" then r.query("psp_ak") == r.query("psp_ts") == r.query("psp_sig") == ""
          else r.query("psp_ak") == ak && r.query("psp_ts") == ts
               && r.query("psp_sig") == hash(ak + "\n" + TrimSpace(ts) + "\n" + ak))
  {
    TrimSpaceTrims(apiKey);
    DigestIsLower(SignAccessPayload(hash, TrimSpace(apiKey), FormatInt(now), TrimSpace(apiKey)));
    hide TrimSpace, FormatInt, ToLower;
  }

  predicate IsUnixTime(n: int) {
    0 <= n <= INT64_MAX
  }

  /** A signed request is accepted exactly within the window, if its key is configured. */
  lemma SignedIsAcceptedIff(hash: Hash, csv: string, apiKey: string, signed: int, now: int)
    requires IsUnixTime(signed) && TrimSpace(apiKey) in Tokens(csv)
    ensures VerifyAccessAuth(hash, csv, SignedRequest(hash, apiKey, signed), now) == Ok(()) <==>
            now - 300 <= signed <= now + 300
  {
    var r := SignedRequest(hash, apiKey, signed);
    var ak, ts := TrimSpace(apiKey), FormatInt(signed);
    TimestampRoundTrip(signed);
    TrimSpaceTrims(apiKey);
    TokensAreKeys(csv);
    assert TrimSpace("") == "";
    DigestIsLower(SignAccessPayload(hash, ak, ts, ak));
    AcceptedIff(hash, csv, r, now);
    assert HeaderOrQuery(r, "X-Psp-Ak", "psp_ak") == ak;
    assert TrimSpace(ts) == ts;
    assert HeaderOrQuery(r, "X-Psp-Timestamp", "psp_ts") == ts;
    var sig := SignAccessPayload(hash, ak, ts, ak);
    assert HeaderOrQuery(r, "X-Psp-Signature", "psp_sig") == sig;
    hide TrimSpace, Tokens, FormatInt, ParseInt, ToLower, SignAccessPayload;
  }

  /** Signing in the current second, and checking `e` seconds later: late by how much the clock's second has moved. */
  lemma FloorMoves(t: real, e: real)
    requires 0.0 <= t && 0.0 <= e
    ensures t.Floor <= (t + e).Floor
    ensures e <= 300.0 ==> (t + e).Floor <= t.Floor + 300
  {
  }

  /**
   The signature made before the loop is accepted at every attempt: if all the
   dials before it, and its own way to the server, take at most 57 seconds, the
   check of attempt `k` falls into the window.
   */
  lemma AcceptedAtEveryAttempt(
    hash: Hash, csv: string, apiKey: string, attempts: seq<Attempt>, t0: real, k: nat, arrives: real)
    requires TrimSpace(apiKey) in Tokens(csv) && |attempts| == ATTEMPTS && k < ATTEMPTS
    requires 0.0 <= t0 && IsUnixTime(t0.Floor)
    requires 0.0 <= arrives && 0.0 <= Took(attempts, k) && Took(attempts, k) + arrives <= 57.0
    ensures var e := Elapsed(attempts, k) + arrives;
      VerifyAccessAuth(hash, csv, SignedRequest(hash, apiKey, t0.Floor), (t0 + e).Floor) == Ok(())
  {
    hide VerifyAccessAuth, SignedRequest, Tokens, TrimSpace, Elapsed, Took, Waits;
    PausesBeforeTheLast(k);
    ElapsedIsDialsAndPauses(attempts, k);
    var e := Elapsed(attempts, k) + arrives;
    assert 0.0 <= e <= 300.0;
    FloorMoves(t0, e);
    SignedIsAcceptedIff(hash, csv, apiKey, t0.Floor, (t0 + e).Floor);
  }

  /** The bound is exact: a later check is refused for some moment of signing. */
  lemma AcceptedWheneverSignedIff(hash: Hash, csv: string, apiKey: string, e: real)
    requires TrimSpace(apiKey) in Tokens(csv) && 0.0 <= e
    ensures (forall t0: real :: 0.0 <= t0 && IsUnixTime(t0.Floor) ==>
               VerifyAccessAuth(hash, csv, SignedRequest(hash, apiKey, t0.Floor), (t0 + e).Floor) == Ok(()))
            <==> e <= 300.0
  {
    hide VerifyAccessAuth, SignedRequest;
    forall t0: real | 0.0 <= t0 && IsUnixTime(t0.Floor) && e <= 300.0
      ensures VerifyAccessAuth(hash, csv, SignedRequest(hash, apiKey, t0.Floor), (t0 + e).Floor) == Ok(())
    {
      FloorMoves(t0, e);
      SignedIsAcceptedIff(hash, csv, apiKey, t0.Floor, (t0 + e).Floor);
    }
    if e > 300.0 {
      var f := if e >= 301.0 then 0.0 else 301.0 - e;
      assert 0.0 <= f < 1.0 && f.Floor == 0;
      assert (f + e).Floor > 300;
      SignedIsAcceptedIff(hash, csv, apiKey, 0, (f + e).Floor);
      assert VerifyAccessAuth(hash, csv, SignedRequest(hash, apiKey, f.Floor), (f + e).Floor) != Ok(());
    }
  }
}
