/**
 * The pending-delivery store: episodes waiting for an active playback device,
 * kept in memory and written to a backing file after every change.
 */
module PendingStore {
  import opened Wrappers
  import opened Json

  /** `episode.copy()` with `added_at` set; entries that are not dictionaries raise in the source. */
  function Stamp(entry: Value, addedAt: string): Value {
    if entry.Object? then Object(entry.fields["added_at" := Str(addedAt)]) else entry
  }

  function Stamped(entries: seq<Value>, addedAt: string): (r: seq<Value>)
    ensures |r| == |entries|
    ensures forall k :: 0 <= k < |entries| ==> r[k] == Stamp(entries[k], addedAt)
  {
    seq(|entries|, k requires 0 <= k < |entries| => Stamp(entries[k], addedAt))
  }

  /** The number of leading entries that are dictionaries. */
  function ObjectPrefix(entries: seq<Value>): (n: nat)
    ensures n <= |entries|
    ensures forall k :: 0 <= k < n ==> entries[k].Object?
    ensures n < |entries| ==> !entries[n].Object?
    decreases |entries|
  {
    if entries == [] || !entries[0].Object? then 0 else 1 + ObjectPrefix(entries[1..])
  }

  /** `entry['episode']['id']`, or None where that lookup raises. */
  function EntryId(entry: Value): Option<Value> {
    match Get(entry, "episode")
    case None => None
    case Some(episode) => Get(episode, "id")
  }

  predicate AllIdentified(entries: seq<Value>) {
    forall k :: 0 <= k < |entries| ==> EntryId(entries[k]).Some?
  }

  /** Whether `entry` is one of those `remove_processed_episodes(ids)` drops. */
  predicate Listed(entry: Value, ids: seq<Value>) {
    EntryId(entry).Some? && EntryId(entry).value in ids
  }

  /** The entries whose episode id is not listed, in their original order. */
  function Without(entries: seq<Value>, ids: seq<Value>): seq<Value>
    decreases |entries|
  {
    if entries == [] then []
    else (if Listed(entries[0], ids) then [] else [entries[0]]) + Without(entries[1..], ids)
  }

  /**
   * The backing file after an attempt to save `pending`: the list when the
   * write succeeds. A failed write leaves the file as it was (it could not be
   * opened) or unreadable (opening it for writing emptied it and the dump
   * stopped part-way).
   */
  ghost predicate AfterSave(file: Option<seq<Value>>, before: Option<seq<Value>>, pending: seq<Value>, saveOk: bool) {
    if saveOk then file == Some(pending) else file == before || file == None
  }

  /** The backing file after an operation that saves `pending` when `saves` holds, and otherwise leaves the file alone. */
  ghost predicate FileAfter(saves: bool, file: Option<seq<Value>>, before: Option<seq<Value>>, pending: seq<Value>, saveOk: bool) {
    if saves then AfterSave(file, before, pending, saveOk) else file == before
  }

  /** Two operations one after the other leave the file as one that saves the final list when either saves. */
  lemma FileAfterCompose(a: bool, b: bool, f0: Option<seq<Value>>, f1: Option<seq<Value>>, f2: Option<seq<Value>>,
                         p1: seq<Value>, p2: seq<Value>, saveOk: bool)
    requires FileAfter(a, f1, f0, p1, saveOk) && FileAfter(b, f2, f1, p2, saveOk)
    requires !b ==> p2 == p1
    ensures FileAfter(a || b, f2, f0, p2, saveOk)
  {
  }

  class QueueManager {
    /** The in-memory pending list; the authoritative copy. */
    var pending: seq<Value>
    /** What the backing file holds: None when it is missing or unreadable. */
    ghost var persisted: Option<seq<Value>>

    /** Loading: a missing or unreadable file gives an empty list. */
    constructor (file: Option<seq<Value>>)
      ensures pending == (if file.Some? then file.value else [])
      ensures persisted == file
    {
      pending := if file.Some? then file.value else [];
      persisted := file;
    }

    /**
     * `_save_pending_episodes`: a failed write is only logged, and the list
     * in memory stays as it is; the file may be left unreadable.
     */
    method Save(saveOk: bool)
      modifies this
      ensures pending == old(pending)
      ensures AfterSave(persisted, old(persisted), pending, saveOk)
    {
      if saveOk {
        persisted := Some(pending);
      } else {
        ghost var truncated: bool :| true;
        if truncated {
          persisted := None;
        }
      }
    }

    /** `get_pending_episodes`. */
    function PendingEpisodes(): seq<Value>
      reads this
    {
      pending
    }

    /**
     * `add_pending_episodes`: each entry is copied, stamped with `addedAt` and
     * appended, then the list is saved. An entry that is not a dictionary
     * raises: the entries before it stay appended and nothing is saved.
     */
    method AddPendingEpisodes(episodes: seq<Value>, addedAt: string, saveOk: bool) returns (ok: bool)
      modifies this
      ensures ok <==> ObjectPrefix(episodes) == |episodes|
      ensures pending == old(pending) + Stamped(episodes[..ObjectPrefix(episodes)], addedAt)
      ensures FileAfter(ok, persisted, old(persisted), pending, saveOk)
    {
      var i := 0;
      while i < |episodes|
        invariant 0 <= i <= ObjectPrefix(episodes)
        invariant pending == old(pending) + Stamped(episodes[..i], addedAt)
        invariant persisted == old(persisted)
      {
        if !episodes[i].Object? {
          return false;
        }
        assert Stamped(episodes[..i + 1], addedAt) == Stamped(episodes[..i], addedAt) + [Stamp(episodes[i], addedAt)];
        pending := pending + [Stamp(episodes[i], addedAt)];
        i := i + 1;
      }
      assert episodes[..i] == episodes;
      Save(saveOk);
      ok := true;
    }

    /**
     * `remove_processed_episodes`: keeps the entries whose episode id is not
     * listed, then saves. An entry without `episode.id` makes the filter raise:
     * nothing changes and nothing is saved.
     */
    method RemoveProcessedEpisodes(ids: seq<Value>, saveOk: bool) returns (ok: bool)
      modifies this
      ensures ok <==> AllIdentified(old(pending))
      ensures pending == (if ok then Without(old(pending), ids) else old(pending))
      ensures FileAfter(ok, persisted, old(persisted), pending, saveOk)
    {
      if !AllIdentified(pending) {
        return false;
      }
      pending := Without(pending, ids);
      Save(saveOk);
      ok := true;
    }
  }

  /** The kept entries are exactly the unlisted ones, in order. */
  lemma {:induction false} WithoutMembers(entries: seq<Value>, ids: seq<Value>)
    ensures |Without(entries, ids)| <= |entries|
    ensures forall e :: e in Without(entries, ids) <==> e in entries && !Listed(e, ids)
    decreases |entries|
  {
    if entries != [] {
      WithoutMembers(entries[1..], ids);
      assert entries == [entries[0]] + entries[1..];
    }
  }

  lemma {:induction false} WithoutAppend(a: seq<Value>, b: seq<Value>, ids: seq<Value>)
    ensures Without(a + b, ids) == Without(a, ids) + Without(b, ids)
    decreases |a|
  {
    if a != [] {
      WithoutAppend(a[1..], b, ids);
      assert (a + b)[1..] == a[1..] + b;
    } else {
      assert a + b == b;
    }
  }

  /** Removing ids that no entry carries changes nothing. */
  lemma {:induction false} WithoutUnlisted(entries: seq<Value>, ids: seq<Value>)
    requires forall k :: 0 <= k < |entries| ==> !Listed(entries[k], ids)
    ensures Without(entries, ids) == entries
    decreases |entries|
  {
    if entries != [] {
      WithoutUnlisted(entries[1..], ids);
      assert entries == [entries[0]] + entries[1..];
    }
  }

  /** Removing the same ids twice is the same as removing them once. */
  lemma {:induction false} WithoutIdempotent(entries: seq<Value>, ids: seq<Value>)
    ensures Without(Without(entries, ids), ids) == Without(entries, ids)
  {
    var once := Without(entries, ids);
    WithoutMembers(entries, ids);
    forall k | 0 <= k < |once| ensures !Listed(once[k], ids) {
      assert once[k] in once;
    }
    WithoutUnlisted(once, ids);
  }

  /** Stamping an entry does not change its episode id. */
  lemma StampKeepsId(entry: Value, addedAt: string)
    ensures EntryId(Stamp(entry, addedAt)) == EntryId(entry)
  {
  }

  /**
   * Queueing an entry and then removing its id restores the list, when no
   * earlier entry shares that id.
   */
  lemma AddThenRemove(entries: seq<Value>, entry: Value, addedAt: string, id: Value)
    requires entry.Object? && EntryId(entry) == Some(id)
    requires forall k :: 0 <= k < |entries| ==> EntryId(entries[k]) != Some(id)
    ensures Without(entries + [Stamp(entry, addedAt)], [id]) == entries
  {
    var stamped := Stamp(entry, addedAt);
    WithoutAppend(entries, [stamped], [id]);
    WithoutUnlisted(entries, [id]);
    StampKeepsId(entry, addedAt);
    assert Listed(stamped, [id]);
    assert Without([stamped], [id]) == [] + Without([], [id]);
  }

  function EpisodeEntry(id: string): Value {
    Object(map["episode" := Object(map["id" := Str(id)])])
  }

  /** Three pending episodes A, B, C; after removing A and B only C is left. */
  lemma RemoveTwoOfThree()
    ensures Without([EpisodeEntry("A"), EpisodeEntry("B"), EpisodeEntry("C")], [Str("A"), Str("B")])
            == [EpisodeEntry("C")]
  {
    var a, b, c := EpisodeEntry("A"), EpisodeEntry("B"), EpisodeEntry("C");
    var ids := [Str("A"), Str("B")];
    assert EntryId(c) == Some(Str("C")) && Str("C") !in ids;
    assert Without([c], ids) == [c] + Without([], ids);
    assert [a, b, c][1..] == [b, c] && [b, c][1..] == [c];
  }
}
