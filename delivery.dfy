/**
 * What the delivery steps of the agents compute: whether a playback device
 * is active, which accepted episodes are queued, re-queued as pending or
 * dropped, and which pending entries a redelivery takes out of the store.
 */
module Delivery {
  import opened Wrappers
  import opened Json
  import opened Episodes
  import opened PendingStore

  /**
   * The device loop of `check_spotify_active_device`: true at the first
   * device whose `is_active` is truthy; an item without `.get` before it
   * raises, which the check reports as false.
   */
  function FirstActive(ds: seq<Device>): bool
    decreases |ds|
  {
    if ds == [] then false
    else
      match ds[0]
      case Malformed => false
      case Device(_, active) => Truthy(active) || FirstActive(ds[1..])
  }

  /** The whole check; a device query that raises gives false. */
  function ActiveDevice(devices: Option<seq<Device>>): bool {
    devices.Some? && FirstActive(devices.value)
  }

  /** A device counts exactly when an active one comes before any malformed item. */
  lemma {:induction false} FirstActiveMeans(ds: seq<Device>)
    ensures FirstActive(ds) <==>
            exists k :: 0 <= k < |ds| && ds[k].Device? && Truthy(ds[k].isActive)
                        && forall j :: 0 <= j < k ==> ds[j].Device?
    decreases |ds|
  {
    if ds != [] {
      FirstActiveMeans(ds[1..]);
      if ds[0].Device? && !Truthy(ds[0].isActive) && FirstActive(ds[1..]) {
        var k :| 0 <= k < |ds[1..]| && ds[1..][k].Device? && Truthy(ds[1..][k].isActive)
                 && forall j :: 0 <= j < k ==> ds[1..][j].Device?;
        assert ds[k + 1] == ds[1..][k];
        forall j | 0 <= j < k + 1 ensures ds[j].Device? {
          if j > 0 { assert ds[j] == ds[1..][j - 1]; }
        }
      }
      if exists k :: 0 <= k < |ds| && ds[k].Device? && Truthy(ds[k].isActive)
                     && forall j :: 0 <= j < k ==> ds[j].Device? {
        var k :| 0 <= k < |ds| && ds[k].Device? && Truthy(ds[k].isActive)
                 && forall j :: 0 <= j < k ==> ds[j].Device?;
        if k > 0 && !Truthy(ds[0].isActive) {
          assert ds[1..][k - 1] == ds[k];
          forall j | 0 <= j < k - 1 ensures ds[1..][j].Device? {
            assert ds[1..][j] == ds[j + 1];
          }
        }
      }
    }
  }

  /** What becomes of one accepted episode when a device is active. */
  datatype Fate = Dropped | Queued | Requeued

  /**
   * An episode without a uri is dropped; one the queue call accepts is
   * queued; a refused or raising call sends it back to pending.
   */
  function FateOf(d: EpisodeData, addToQueue: Value -> Option<bool>): Fate {
    if d.episode.uri.None? then Dropped
    else if addToQueue(Str(d.episode.uri.value)) == Some(true) then Queued
    else Requeued
  }

  /** The episodes with the given fate, in input order. */
  function WithFate(ds: seq<EpisodeData>, addToQueue: Value -> Option<bool>, f: Fate): (r: seq<EpisodeData>)
    decreases |ds|
  {
    if ds == [] then []
    else
      var last := ds[|ds| - 1];
      WithFate(ds[..|ds| - 1], addToQueue, f) + (if FateOf(last, addToQueue) == f then [last] else [])
  }

  /** What the last episode adds to its fate's list. */
  lemma WithFateLast(ds: seq<EpisodeData>, addToQueue: Value -> Option<bool>, f: Fate)
    requires ds != []
    ensures multiset(WithFate(ds, addToQueue, f))
            == multiset(WithFate(ds[..|ds| - 1], addToQueue, f))
               + (if FateOf(ds[|ds| - 1], addToQueue) == f then multiset{ds[|ds| - 1]} else multiset{})
  {
  }

  /** The queued, re-queued and dropped episodes together are the input. */
  lemma {:induction false} FatesPartition(ds: seq<EpisodeData>, addToQueue: Value -> Option<bool>)
    ensures multiset(WithFate(ds, addToQueue, Queued)) + multiset(WithFate(ds, addToQueue, Requeued))
            + multiset(WithFate(ds, addToQueue, Dropped)) == multiset(ds)
    decreases |ds|
  {
    if ds != [] {
      FatesPartition(ds[..|ds| - 1], addToQueue);
      FatesStep(ds, addToQueue);
    }
  }

  /** The partition grows by the last episode, in its fate's share. */
  lemma FatesStep(ds: seq<EpisodeData>, addToQueue: Value -> Option<bool>)
    requires ds != []
    requires var init := ds[..|ds| - 1];
      multiset(WithFate(init, addToQueue, Queued)) + multiset(WithFate(init, addToQueue, Requeued))
      + multiset(WithFate(init, addToQueue, Dropped)) == multiset(init)
    ensures multiset(WithFate(ds, addToQueue, Queued)) + multiset(WithFate(ds, addToQueue, Requeued))
            + multiset(WithFate(ds, addToQueue, Dropped)) == multiset(ds)
  {
    var init, last := ds[..|ds| - 1], ds[|ds| - 1];
    MultisetOfLast(ds);
    WithFateLast(ds, addToQueue, Queued);
    WithFateLast(ds, addToQueue, Requeued);
    WithFateLast(ds, addToQueue, Dropped);
    FateCounts(multiset(WithFate(ds, addToQueue, Queued)), multiset(WithFate(ds, addToQueue, Requeued)),
               multiset(WithFate(ds, addToQueue, Dropped)), multiset(WithFate(init, addToQueue, Queued)),
               multiset(WithFate(init, addToQueue, Requeued)), multiset(WithFate(init, addToQueue, Dropped)),
               multiset(init), last, FateOf(last, addToQueue));
  }

  lemma MultisetOfLast<T>(s: seq<T>)
    requires s != []
    ensures multiset(s) == multiset(s[..|s| - 1]) + multiset{s[|s| - 1]}
  {
    assert s == s[..|s| - 1] + [s[|s| - 1]];
  }

  /** One more item, of fate `f`, grows exactly its fate's share. */
  lemma FateCounts(q: multiset<EpisodeData>, r: multiset<EpisodeData>, d: multiset<EpisodeData>,
                   q0: multiset<EpisodeData>, r0: multiset<EpisodeData>, d0: multiset<EpisodeData>,
                   m0: multiset<EpisodeData>, x: EpisodeData, f: Fate)
    requires q0 + r0 + d0 == m0
    requires q == q0 + (if f == Queued then multiset{x} else multiset{})
    requires r == r0 + (if f == Requeued then multiset{x} else multiset{})
    requires d == d0 + (if f == Dropped then multiset{x} else multiset{})
    ensures q + r + d == m0 + multiset{x}
  {
  }

  /** Each fate's list holds only input episodes of that fate. */
  lemma {:induction false} WithFateMembers(ds: seq<EpisodeData>, addToQueue: Value -> Option<bool>, f: Fate)
    ensures forall d :: d in WithFate(ds, addToQueue, f) ==> d in ds && FateOf(d, addToQueue) == f
    decreases |ds|
  {
    if ds != [] {
      var init := ds[..|ds| - 1];
      WithFateMembers(init, addToQueue, f);
      assert ds == init + [ds[|ds| - 1]];
    }
  }

  /** `episode_data['episode']['uri']` of a pending entry, None where the redelivery loop skips it. */
  function PendingUri(entry: Value): Option<Value> {
    match Get(entry, "episode")
    case None => None
    case Some(episode) => Get(episode, "uri")
  }

  predicate Taken(entry: Value, addToQueue: Value -> Option<bool>) {
    PendingUri(entry).Some? && addToQueue(PendingUri(entry).value) == Some(true)
  }

  /** The pending entries a redelivery puts on the playback queue, in store order. */
  function Redelivered(entries: seq<Value>, addToQueue: Value -> Option<bool>): seq<Value>
    decreases |entries|
  {
    if entries == [] then []
    else
      var last := entries[|entries| - 1];
      Redelivered(entries[..|entries| - 1], addToQueue) + (if Taken(last, addToQueue) then [last] else [])
  }

  /**
   * The ids collected for removal: those of the redelivered entries that have
   * one. An entry without an id is queued but raises before its id is noted.
   */
  function RedeliveredIds(entries: seq<Value>, addToQueue: Value -> Option<bool>): seq<Value>
    decreases |entries|
  {
    if entries == [] then []
    else
      var last := entries[|entries| - 1];
      RedeliveredIds(entries[..|entries| - 1], addToQueue)
      + (if Taken(last, addToQueue) && EntryId(last).Some? then [EntryId(last).value] else [])
  }

  lemma {:induction false} RedeliveredIdsSound(entries: seq<Value>, addToQueue: Value -> Option<bool>)
    ensures forall id :: id in RedeliveredIds(entries, addToQueue) ==>
              exists e :: e in entries && Taken(e, addToQueue) && EntryId(e) == Some(id)
    decreases |entries|
  {
    if entries != [] {
      var init := entries[..|entries| - 1];
      RedeliveredIdsSound(init, addToQueue);
      assert entries == init + [entries[|entries| - 1]];
      forall id | id in RedeliveredIds(init, addToQueue)
        ensures exists e :: e in entries && Taken(e, addToQueue) && EntryId(e) == Some(id)
      {
        var e :| e in init && Taken(e, addToQueue) && EntryId(e) == Some(id);
        assert e in entries;
      }
    }
  }

  lemma {:induction false} RedeliveredIdsComplete(entries: seq<Value>, addToQueue: Value -> Option<bool>)
    ensures forall e :: e in entries && Taken(e, addToQueue) && EntryId(e).Some? ==>
              EntryId(e).value in RedeliveredIds(entries, addToQueue)
    decreases |entries|
  {
    if entries != [] {
      var init, last := entries[..|entries| - 1], entries[|entries| - 1];
      RedeliveredIdsComplete(init, addToQueue);
      assert entries == init + [last];
      forall e | e in entries && Taken(e, addToQueue) && EntryId(e).Some?
        ensures EntryId(e).value in RedeliveredIds(entries, addToQueue)
      {
        if e != last {
          assert e in init;
        }
      }
    }
  }

  /** At most one id per redelivered entry is collected. */
  lemma {:induction false} RedeliveredIdsCount(entries: seq<Value>, addToQueue: Value -> Option<bool>)
    ensures |RedeliveredIds(entries, addToQueue)| <= |Redelivered(entries, addToQueue)|
    decreases |entries|
  {
    if entries != [] {
      RedeliveredIdsCount(entries[..|entries| - 1], addToQueue);
    }
  }

  /**
   * After the removal every redelivered entry that has an id is gone from
   * the store, and an entry whose id no redelivered entry shares stays.
   */
  lemma RedeliveredLeaveStore(entries: seq<Value>, addToQueue: Value -> Option<bool>)
    ensures var kept := Without(entries, RedeliveredIds(entries, addToQueue));
      (forall e :: e in entries && Taken(e, addToQueue) && EntryId(e).Some? ==> e !in kept)
      && (forall e :: e in entries && EntryId(e).Some? && EntryId(e).value !in RedeliveredIds(entries, addToQueue) ==> e in kept)
  {
    RedeliveredIdsComplete(entries, addToQueue);
    WithoutMembers(entries, RedeliveredIds(entries, addToQueue));
  }
}
