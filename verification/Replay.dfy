/**
 The in-memory replay store behind signed requests, with the freshness window on a signature's creation time (the
 created and nonce parameters of section 2.3 of RFC 9421). Times are in seconds; freshness and store read clocks of
 their own.
 */
module Replay {

  type Duration = d: real | d >= 0.0

  const MAX_SKEW := 300.0
  const REPLAY_TTL := 600.0

  // ----- the store

  function Purged(items: map<string, real>, now: real): map<string, real> {
    map k | k in items && items[k] > now :: items[k]
  }

  predicate IsLive(items: map<string, real>, now: real, key: string) {
    key in items && items[key] > now
  }

  function Used(items: map<string, real>, now: real, key: string, ttl: real): map<string, real> {
    if IsLive(items, now, key) then Purged(items, now) else Purged(items, now)[key := now + ttl]
  }

  class MemoryReplayStore {
    var items: map<string, real>

    constructor ()
      ensures items == map[]
    {
      items := map[];
    }

    method Use(now: real, key: string, ttl: real) returns (ok: bool)
      modifies this
      ensures ok <==> !IsLive(old(items), now, key)
      ensures items == Used(old(items), now, key, ttl)
      // live entries stay as they are, expired ones go, and an accepted key is live until its time-to-live is over
      ensures forall k <- old(items) :: old(items)[k] > now ==> k in items && items[k] == old(items)[k]
      ensures forall k <- items :: (ok && k == key) || (k in old(items) && items[k] > now)
      ensures ok ==> key in items && items[key] == now + ttl
    {
      var keys := items.Keys;
      ghost var was := items;
      while keys != {}
        invariant keys <= was.Keys
        invariant items == map k | k in was && (k in keys || was[k] > now) :: was[k]
      {
        var k :| k in keys;
        if items[k] <= now {
          items := items - {k};
        }
        keys := keys - {k};
      }
      if key in items && items[key] > now {
        return false;
      }
      items := items[key := now + ttl];
      return true;
    }
  }

  // ----- runs of the store, in the order its lock is taken

  /** One use: checked is the reading of the age check, now that of the store, taken before its lock. */
  datatype Call = Call(checked: real, now: real, key: string)

  function ItemsAfter(calls: seq<Call>): map<string, real> {
    if calls == [] then map[]
    else Used(ItemsAfter(calls[..|calls| - 1]), calls[|calls| - 1].now, calls[|calls| - 1].key, REPLAY_TTL)
  }

  predicate Accepted(calls: seq<Call>, j: nat)
    requires j < |calls|
  {
    !IsLive(ItemsAfter(calls[..j]), calls[j].now, calls[j].key)
  }

  /** No use is more than lag older than one before it. */
  predicate Orderly(calls: seq<Call>, lag: Duration) {
    forall i, j :: 0 <= i < j < |calls| ==> calls[i].now <= calls[j].now + lag
  }

  method UseAll(calls: seq<Call>) returns (accepted: seq<bool>)
    ensures |accepted| == |calls|
    ensures forall j :: 0 <= j < |calls| ==> (accepted[j] <==> Accepted(calls, j))
  {
    var store := new MemoryReplayStore();
    accepted := [];
    for n := 0 to |calls|
      invariant store.items == ItemsAfter(calls[..n])
      invariant |accepted| == n
      invariant forall j :: 0 <= j < n ==> (accepted[j] <==> Accepted(calls, j))
    {
      assert calls[..n + 1][..n] == calls[..n];
      var ok := store.Use(calls[n].now, calls[n].key, REPLAY_TTL);
      accepted := accepted + [ok];
    }
  }

  lemma ItemsStep(calls: seq<Call>, n: nat)
    requires n < |calls|
    ensures ItemsAfter(calls[..n + 1]) == Used(ItemsAfter(calls[..n]), calls[n].now, calls[n].key, REPLAY_TTL)
  {
    assert calls[..n + 1][..n] == calls[..n];
  }

  /** A use before an entry's time leaves the entry alone. */
  lemma EntryKept(items: map<string, real>, call: Call, key: string, until: real)
    requires key in items && items[key] >= until > call.now
    ensures var after := Used(items, call.now, call.key, REPLAY_TTL); key in after && after[key] == items[key]
  {
  }

  ghost predicate Outlives(calls: seq<Call>, i: nat, n: nat)
    requires i < n <= |calls|
  {
    var key, until, items := calls[i].key, calls[i].now + REPLAY_TTL, ItemsAfter(calls[..n]);
    key in items && items[key] >= until
  }

  /** An accepted key stays in the store until some use comes a full time-to-live later. */
  lemma {:induction false} EntryOutlivesItsTime(calls: seq<Call>, i: nat, n: nat)
    requires i < n <= |calls| && Accepted(calls, i)
    ensures Outlives(calls, i, n) || exists m :: i < m < n && calls[m].now >= calls[i].now + REPLAY_TTL
    decreases n
  {
    ItemsStep(calls, n - 1);
    if i < n - 1 && calls[n - 1].now < calls[i].now + REPLAY_TTL {
      EntryOutlivesItsTime(calls, i, n - 1);
      if Outlives(calls, i, n - 1) {
        EntryKept(ItemsAfter(calls[..n - 1]), calls[n - 1], calls[i].key, calls[i].now + REPLAY_TTL);
      }
    }
  }

  /** Two accepted uses of one key are a full time-to-live apart, less the lag of the clock readings. */
  lemma AcceptedUsesAreApart(calls: seq<Call>, lag: Duration, i: nat, j: nat)
    requires Orderly(calls, lag) && i < j < |calls| && calls[i].key == calls[j].key
    requires Accepted(calls, i) && Accepted(calls, j)
    ensures calls[j].now >= calls[i].now + REPLAY_TTL - lag
  {
    EntryOutlivesItsTime(calls, i, j);
  }

  /** Every entry is the trace of an accepted use. */
  lemma {:induction false} EntriesComeFromUses(calls: seq<Call>, n: nat, key: string)
    requires n <= |calls| && key in ItemsAfter(calls[..n])
    ensures exists i :: 0 <= i < n && calls[i].key == key && Accepted(calls, i) &&
                        ItemsAfter(calls[..n])[key] == calls[i].now + REPLAY_TTL
    decreases n
  {
    ItemsStep(calls, n - 1);
    var before := ItemsAfter(calls[..n - 1]);
    if calls[n - 1].key == key && Accepted(calls, n - 1) {
      assert ItemsAfter(calls[..n])[key] == calls[n - 1].now + REPLAY_TTL;
    } else {
      assert key in before && ItemsAfter(calls[..n])[key] == before[key];
      EntriesComeFromUses(calls, n - 1, key);
    }
  }

  /** With an orderly clock, a use is accepted iff no accepted use of its key is younger than the time-to-live. */
  lemma AcceptedIff(calls: seq<Call>, j: nat)
    requires Orderly(calls, 0.0) && j < |calls|
    ensures Accepted(calls, j) <==>
            forall i :: 0 <= i < j && calls[i].key == calls[j].key && Accepted(calls, i) ==>
              calls[j].now >= calls[i].now + REPLAY_TTL
  {
    if Accepted(calls, j) {
      forall i | 0 <= i < j && calls[i].key == calls[j].key && Accepted(calls, i)
        ensures calls[j].now >= calls[i].now + REPLAY_TTL
      {
        AcceptedUsesAreApart(calls, 0.0, i, j);
      }
    } else {
      EntriesComeFromUses(calls, j, calls[j].key);
    }
  }

  // ----- signed requests

  /** How the signature library compares ages with the allowed skew: each bound may or may not include its end. */
  datatype Bounds = Bounds(oldIsStrict: bool, newIsStrict: bool)

  predicate Fresh(b: Bounds, created: real, now: real) {
    (if b.oldIsStrict then now - created < MAX_SKEW else now - created <= MAX_SKEW) &&
    (if b.newIsStrict then created - now < MAX_SKEW else created - now <= MAX_SKEW)
  }

  /** A request is accepted at a use when it is fresh and its key, the signer's id with the nonce, is not live. */
  predicate RequestAccepted(b: Bounds, created: real, calls: seq<Call>, j: nat)
    requires j < |calls|
  {
    Fresh(b, created, calls[j].checked) && Accepted(calls, j)
  }

  /**
   What the clocks may do: store readings come up to lag out of order, and the store reads its clock up to early before
   and up to late after the age check of the same request.
   */
  datatype Clocks = Clocks(lag: Duration, early: Duration, late: Duration)

  predicate Keep(c: Clocks, calls: seq<Call>) {
    Orderly(calls, c.lag) && forall x <- calls :: x.checked - c.early <= x.now <= x.checked + c.late
  }

  /** By how much the ages of two uses can come closer than the store keeps them apart. */
  function Slack(c: Clocks): Duration {
    c.lag + c.early + c.late
  }

  /** Two acceptances of one request are checked within the slack of the two ends of the freshness window. */
  lemma AcceptedTwiceOnlyNearTheEnds(b: Bounds, created: real, c: Clocks, calls: seq<Call>, i: nat, j: nat)
    requires Keep(c, calls) && i < j < |calls| && calls[i].key == calls[j].key
    requires RequestAccepted(b, created, calls, i) && RequestAccepted(b, created, calls, j)
    ensures created - MAX_SKEW <= calls[i].checked <= created - MAX_SKEW + Slack(c)
    ensures created + MAX_SKEW - Slack(c) <= calls[j].checked <= created + MAX_SKEW
  {
    AcceptedUsesAreApart(calls, c.lag, i, j);
    assert calls[i] in calls && calls[j] in calls;
  }

  /** Without slack only the ends themselves remain, and not even those when either end is excluded. */
  lemma AcceptedTwiceOnlyAtTheEnds(b: Bounds, created: real, c: Clocks, calls: seq<Call>, i: nat, j: nat)
    requires Slack(c) == 0.0 && Keep(c, calls) && i < j < |calls| && calls[i].key == calls[j].key
    requires RequestAccepted(b, created, calls, i) && RequestAccepted(b, created, calls, j)
    ensures calls[i].checked == created - MAX_SKEW && calls[j].checked == created + MAX_SKEW
    ensures !b.oldIsStrict && !b.newIsStrict
  {
    AcceptedTwiceOnlyNearTheEnds(b, created, c, calls, i, j);
  }

  ghost predicate IsAcceptedTwice(b: Bounds, created: real, calls: seq<Call>) {
    exists i, j :: 0 <= i < j < |calls| && calls[i].key == calls[j].key &&
                   RequestAccepted(b, created, calls, i) && RequestAccepted(b, created, calls, j)
  }

  lemma AcceptedTwiceNeedsSlackOrEnds(b: Bounds, created: real, c: Clocks, calls: seq<Call>)
    requires Slack(c) == 0.0 && Keep(c, calls) && IsAcceptedTwice(b, created, calls)
    ensures !b.oldIsStrict && !b.newIsStrict
  {
    var i, j :| 0 <= i < j < |calls| && calls[i].key == calls[j].key &&
                RequestAccepted(b, created, calls, i) && RequestAccepted(b, created, calls, j);
    AcceptedTwiceOnlyAtTheEnds(b, created, c, calls, i, j);
  }

  /** A request checked e inside both ends, and in between another one that purges its entry. */
  function Replayed(c: Clocks, created: real, e: real): seq<Call> {
    var first, last := created - MAX_SKEW + e, created + MAX_SKEW - e;
    [Call(first, first - c.early, "k:n"), Call(first - c.early + REPLAY_TTL, first - c.early + REPLAY_TTL, "k:m"),
     Call(last, last + c.late, "k:n")]
  }

  lemma ReplayIsAccepted(b: Bounds, created: real, c: Clocks, e: real)
    requires 0.0 <= 2.0 * e <= Slack(c) && e <= 1.0 && (e > 0.0 || (!b.oldIsStrict && !b.newIsStrict))
    ensures Keep(c, Replayed(c, created, e)) && IsAcceptedTwice(b, created, Replayed(c, created, e))
  {
    var calls := Replayed(c, created, e);
    assert "k:n"[2] != "k:m"[2];
    assert calls[..0] == [];
    ItemsStep(calls, 0);
    ItemsStep(calls, 1);
    assert "k:n" !in ItemsAfter(calls[..2]);
    assert RequestAccepted(b, created, calls, 0) && RequestAccepted(b, created, calls, 2);
  }

  /** No request is ever accepted twice exactly when the clocks agree and some bound is strict. */
  lemma NoneIsAcceptedTwiceIff(b: Bounds, created: real, c: Clocks)
    ensures (forall calls: seq<Call> :: Keep(c, calls) ==> !IsAcceptedTwice(b, created, calls)) <==>
            c == Clocks(0.0, 0.0, 0.0) && (b.oldIsStrict || b.newIsStrict)
  {
    if c == Clocks(0.0, 0.0, 0.0) && (b.oldIsStrict || b.newIsStrict) {
      forall calls: seq<Call> | Keep(c, calls) ensures !IsAcceptedTwice(b, created, calls) {
        if IsAcceptedTwice(b, created, calls) {
          AcceptedTwiceNeedsSlackOrEnds(b, created, c, calls);
        }
      }
    } else {
      ReplayIsAccepted(b, created, c, if Slack(c) > 2.0 then 1.0 else Slack(c) / 2.0);
    }
  }
}
