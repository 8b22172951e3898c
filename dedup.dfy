/** The per-rule dedup ledger (`wasSentRecently` / `dedup`): a map from key
    to the time it was last stamped, checked and stamped in one step, and
    swept of expired entries only when it grows past a threshold. Every rule
    file carries its own copy of this function; they differ only in TTL and
    threshold, which are the parameters here. `now` is passed in. */
module Dedup {

  /** The guard `prev && now - prev < ttl`: a stored timestamp suppresses
      only when it is non-zero (truthy) and younger than the TTL. */
  predicate Recent(sent: map<string, int>, key: string, now: int, ttl: int) {
    key in sent && sent[key] != 0 && now - sent[key] < ttl
  }

  /** The sweep loop: drop every entry whose age exceeds the TTL. */
  function Sweep(sent: map<string, int>, now: int, ttl: int): map<string, int> {
    map k | k in sent && now - sent[k] <= ttl :: sent[k]
  }

  /** Stamp `key` with `now`, then sweep if the map is larger than `sweepAbove`. */
  function Stamp(sent: map<string, int>, key: string, now: int, ttl: int, sweepAbove: nat): map<string, int> {
    var stamped := sent[key := now];
    if |stamped| > sweepAbove then Sweep(stamped, now, ttl) else stamped
  }

  /** The outcome of one check-and-set call: whether to suppress, and the new ledger. */
  datatype Verdict = Verdict(suppressed: bool, sent: map<string, int>)

  function CheckAndSet(sent: map<string, int>, key: string, now: int, ttl: int, sweepAbove: nat): (v: Verdict)
    ensures v.suppressed <==> Recent(sent, key, now, ttl)
    ensures v.suppressed ==> v.sent == sent
  {
    if Recent(sent, key, now, ttl) then Verdict(true, sent)
    else Verdict(false, Stamp(sent, key, now, ttl, sweepAbove))
  }

  /** A ledger instance; each rule owns one. */
  class Ledger {
    var sent: map<string, int>
    const sweepAbove: nat

    constructor (sweepAbove: nat)
      ensures this.sweepAbove == sweepAbove && sent == map[]
    {
      this.sweepAbove := sweepAbove;
      sent := map[];
    }

    /** `wasSentRecently(key, ttl)` at time `now`. */
    method WasSentRecently(key: string, now: int, ttl: int) returns (suppressed: bool)
      modifies this
      ensures Verdict(suppressed, sent) == CheckAndSet(old(sent), key, now, ttl, sweepAbove)
    {
      if key in sent && sent[key] != 0 && now - sent[key] < ttl {
        return true;
      }
      sent := sent[key := now];
      if |sent| > sweepAbove {
        ghost var stamped := sent;
        var toVisit := sent.Keys;
        while toVisit != {}
          invariant toVisit <= stamped.Keys
          invariant sent.Keys == set k | k in stamped && (k in toVisit || now - stamped[k] <= ttl)
          invariant forall k :: k in sent ==> sent[k] == stamped[k]
          decreases toVisit
        {
          var k :| k in toVisit;
          if now - sent[k] > ttl {
            sent := sent - {k};
          }
          toVisit := toVisit - {k};
        }
        assert sent == Sweep(stamped, now, ttl);
      }
      return false;
    }
  }

  /** Suppression happens exactly when an earlier non-zero stamp is younger
      than the TTL; a suppressed call leaves the ledger as it was, any other
      call leaves `key` stamped with `now` (the sweep never removes it). */
  lemma CheckAndSetSpec(sent: map<string, int>, key: string, now: int, ttl: int, sweepAbove: nat)
    requires ttl >= 0
    ensures var v := CheckAndSet(sent, key, now, ttl, sweepAbove);
      && (v.suppressed <==> key in sent && sent[key] != 0 && now - sent[key] < ttl)
      && (v.suppressed ==> v.sent == sent)
      && (!v.suppressed ==> key in v.sent && v.sent[key] == now)
  {
  }

  /** The sweep runs only when the stamped map exceeds the threshold, and
      then removes exactly the entries older than the TTL; every surviving
      entry keeps its timestamp. */
  lemma SweepOnlyExpired(sent: map<string, int>, key: string, now: int, ttl: int, sweepAbove: nat)
    requires !Recent(sent, key, now, ttl)
    ensures var after := CheckAndSet(sent, key, now, ttl, sweepAbove).sent;
      var stamped := sent[key := now];
      && (|stamped| <= sweepAbove ==> after == stamped)
      && (forall k :: k in after ==> k in stamped && after[k] == stamped[k])
      && (forall k :: k in stamped && now - stamped[k] <= ttl ==> k in after)
      && (forall k :: k in stamped && k !in after ==> |stamped| > sweepAbove && now - stamped[k] > ttl)
  {
  }

  /** A call for any key leaves every entry that is still within the
      call's TTL as it was. */
  lemma CheckAndSetKeepsLive(sent: map<string, int>, key: string, now: int, ttl: int, sweepAbove: nat, other: string)
    requires other in sent && now - sent[other] <= ttl && (other == key ==> Recent(sent, key, now, ttl))
    ensures var after := CheckAndSet(sent, key, now, ttl, sweepAbove).sent;
      other in after && after[other] == sent[other]
  {
  }

  /** One call of some rule: a key checked at a time. */
  datatype Call = Call(key: string, now: int)

  /** The ledger after a sequence of calls, all with the same TTL. */
  function Replay(sent: map<string, int>, calls: seq<Call>, ttl: int, sweepAbove: nat): map<string, int>
    decreases |calls|
  {
    if calls == [] then sent
    else Replay(CheckAndSet(sent, calls[0].key, calls[0].now, ttl, sweepAbove).sent, calls[1..], ttl, sweepAbove)
  }

  /** The dedup window: once `key` is stamped at a (non-zero) time `t0`, every
      later call within the TTL, for `key` or any other key, leaves that stamp
      in place, and so every such call for `key` is suppressed. */
  lemma {:induction false} WindowHolds(sent: map<string, int>, calls: seq<Call>, key: string, t0: int, ttl: int, sweepAbove: nat)
    requires key in sent && sent[key] == t0 && t0 != 0
    requires forall i :: 0 <= i < |calls| ==> t0 <= calls[i].now < t0 + ttl
    ensures var after := Replay(sent, calls, ttl, sweepAbove);
      key in after && after[key] == t0
    ensures forall i :: 0 <= i < |calls| && calls[i].key == key ==>
      CheckAndSet(Replay(sent, calls[..i], ttl, sweepAbove), key, calls[i].now, ttl, sweepAbove).suppressed
    decreases |calls|
  {
    if calls != [] {
      var c := calls[0];
      var next := CheckAndSet(sent, c.key, c.now, ttl, sweepAbove).sent;
      assert key in next && next[key] == t0;
      WindowHolds(next, calls[1..], key, t0, ttl, sweepAbove);
      forall i | 0 <= i < |calls| && calls[i].key == key
        ensures CheckAndSet(Replay(sent, calls[..i], ttl, sweepAbove), key, calls[i].now, ttl, sweepAbove).suppressed
      {
        if i > 0 {
          assert calls[..i][1..] == calls[1..][..i - 1];
          assert calls[1..][i - 1] == calls[i];
        }
      }
    }
  }

  /** After the TTL has elapsed the same key is let through again. */
  lemma ExpiredLetsThrough(sent: map<string, int>, key: string, now: int, ttl: int, sweepAbove: nat)
    requires key in sent && now - sent[key] >= ttl
    ensures !CheckAndSet(sent, key, now, ttl, sweepAbove).suppressed
  {
  }

  /** Calls sharing one ledger with different TTLs (as the client notifier
      does) interfere: a call with a short TTL on a ledger past its threshold
      deletes another key's entry that is still inside its own, longer window,
      so that key is let through again before its window ends. */
  lemma ShortTtlSweepDropsLongerEntry(sent: map<string, int>, key: string, other: string,
                                      now: int, shortTtl: int, longTtl: int, sweepAbove: nat)
    requires key != other && other in sent && sent[other] != 0
    requires |sent| > sweepAbove && !Recent(sent, key, now, shortTtl)
    requires shortTtl < now - sent[other] < longTtl
    ensures var after := CheckAndSet(sent, key, now, shortTtl, sweepAbove).sent;
      other !in after && !CheckAndSet(after, other, now, longTtl, sweepAbove).suppressed
    ensures CheckAndSet(sent, other, now, longTtl, sweepAbove).suppressed
  {
    var stamped := sent[key := now];
    assert |stamped| >= |sent| by {
      assert sent.Keys <= stamped.Keys;
    }
  }
}
