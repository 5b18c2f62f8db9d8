/** What the dedupe window of the runtime store guarantees, and how it survives a flush and a load. */
module DedupeWindow {
  import opened Runtime
  import Text
  import opened Wrappers

  /** The queue and the set of recent ids agree, without duplicates and within the configured size. */
  ghost predicate WindowOk(r: RuntimeState) {
    && NoDuplicates(r.order)
    && r.seen == Elements(r.order)
    && |r.order| <= r.windowSize
  }

  lemma {:induction false} EvictKeepsNewest(r: RuntimeState)
    requires NoDuplicates(r.order) && r.seen == Elements(r.order)
    ensures Evict(r) == r.(order := Newest(r.windowSize, r.order), seen := Elements(Newest(r.windowSize, r.order)))
    decreases |r.order|
  {
    if |r.order| > r.windowSize {
      var next := r.(order := r.order[1..], seen := r.seen - {r.order[0]});
      assert r.order == [r.order[0]] + next.order;
      assert next.seen == Elements(next.order);
      EvictKeepsNewest(next);
    }
  }

  /** A known id changes nothing; a new one goes to the end and pushes out the oldest if need be. */
  lemma InsertRecentMeaning(r: RuntimeState, id: MessageId)
    requires WindowOk(r)
    ensures WindowOk(InsertRecent(r, id))
    ensures InsertRecent(r, id).order == if id in r.seen then r.order else Newest(r.windowSize, r.order + [id])
    ensures InsertRecent(r, id) == r.(order := InsertRecent(r, id).order, seen := InsertRecent(r, id).seen)
  {
    if id !in r.seen {
      var grown := r.(order := r.order + [id], seen := r.seen + {id});
      assert grown.seen == Elements(grown.order);
      EvictKeepsNewest(grown);
    } else {
      assert Evict(r) == r;
    }
  }

  lemma ProcessKeepsWindow(r: RuntimeState, id: MessageId, stamp: Stamp)
    requires WindowOk(r)
    ensures WindowOk(MarkProcessed(r, id, stamp))
    ensures MarkProcessed(r, id, stamp).order == if id in r.seen then r.order else Newest(r.windowSize, r.order + [id])
    ensures MarkProcessed(r, id, stamp).pending == r.pending - {id}
    ensures MarkProcessed(r, id, stamp).windowSize == r.windowSize
    ensures MarkProcessed(r, id, stamp).floor == r.floor
    ensures MarkProcessed(r, id, stamp).storm == r.storm
  {
    InsertRecentMeaning(MarkFailed(r, id), id);
  }

  lemma {:induction false} InsertAllKeepsWindow(r: RuntimeState, ids: seq<MessageId>)
    requires WindowOk(r)
    ensures WindowOk(InsertAll(r, ids))
    ensures InsertAll(r, ids) == r.(order := InsertAll(r, ids).order, seen := InsertAll(r, ids).seen)
    decreases |ids|
  {
    if ids != [] {
      InsertAllKeepsWindow(r, ids[..|ids| - 1]);
      InsertRecentMeaning(InsertAll(r, ids[..|ids| - 1]), ids[|ids| - 1]);
    }
  }

  /** Whatever the file holds, duplicate ids included, a loaded store satisfies the window invariant. */
  lemma LoadEstablishesWindow(file: Option<RuntimeFile>, windowSize: nat, floor: Option<Stamp>, now: int)
    ensures WindowOk(Loaded(file, windowSize, floor, now))
    ensures Loaded(file, windowSize, floor, now).pending == {}
    ensures Loaded(file, windowSize, floor, now).windowSize == windowSize
    ensures Loaded(file, windowSize, floor, now).floor == floor
    ensures file.Some? ==> Loaded(file, windowSize, floor, now).storm == file.value.storm
  {
    if file.Some? {
      var f := file.value;
      InsertAllKeepsWindow(
        RuntimeState(windowSize, floor, f.lastSeen, [], {}, {}, f.storm, WindowStartAtLoad(f.storm, now)), f.recent);
    }
  }

  lemma {:induction false} InsertAllMembers(r: RuntimeState, ids: seq<MessageId>)
    requires WindowOk(r)
    ensures forall id <- InsertAll(r, ids).order :: id in r.order || id in ids
    decreases |ids|
  {
    if ids != [] {
      var front, last := ids[..|ids| - 1], ids[|ids| - 1];
      assert ids == front + [last];
      InsertAllMembers(r, front);
      InsertAllKeepsWindow(r, front);
      InsertRecentMeaning(InsertAll(r, front), last);
    }
  }

  /** A load invents no ids. */
  lemma LoadedIdsAreStored(file: Option<RuntimeFile>, windowSize: nat, floor: Option<Stamp>, now: int)
    ensures forall id <- Loaded(file, windowSize, floor, now).order :: file.Some? && id in file.value.recent
  {
    if file.Some? {
      var f := file.value;
      InsertAllMembers(
        RuntimeState(windowSize, floor, f.lastSeen, [], {}, {}, f.storm, WindowStartAtLoad(f.storm, now)), f.recent);
    }
  }

  lemma NewestAppend(n: nat, s: seq<MessageId>, id: MessageId)
    ensures Newest(n, Newest(n, s) + [id]) == Newest(n, s + [id])
  {
  }

  lemma {:induction false} InsertAllKeepsNewest(r: RuntimeState, ids: seq<MessageId>)
    requires r.order == [] && r.seen == {}
    requires NoDuplicates(ids)
    ensures InsertAll(r, ids).order == Newest(r.windowSize, ids)
    decreases |ids|
  {
    if ids != [] {
      var front, last := ids[..|ids| - 1], ids[|ids| - 1];
      assert ids == front + [last];
      InsertAllKeepsNewest(r, front);
      InsertAllKeepsWindow(r, front);
      InsertRecentMeaning(InsertAll(r, front), last);
      assert last !in Newest(r.windowSize, front);
      NewestAppend(r.windowSize, front, last);
    }
  }

  /** Loading what was flushed, under any window size, keeps exactly the newest ids that fit, the last seen
      timestamp and the storm state; nothing is in progress. */
  lemma FlushThenLoad(r: RuntimeState, windowSize: nat, floor: Option<Stamp>, now: int)
    requires WindowOk(r)
    ensures Loaded(Some(Flushed(r)), windowSize, floor, now)
         == RuntimeState(windowSize, floor, r.lastSeen, Newest(windowSize, r.order),
                         Elements(Newest(windowSize, r.order)), {}, r.storm, WindowStartAtLoad(r.storm, now))
  {
    var empty := RuntimeState(windowSize, floor, r.lastSeen, [], {}, {}, r.storm, WindowStartAtLoad(r.storm, now));
    InsertAllKeepsNewest(empty, r.order);
    InsertAllKeepsWindow(empty, r.order);
  }

  /** Under the same configuration a restart forgets the ids in progress, restarts the failure window of an
      unfinished count, and nothing else. */
  lemma RestartRestoresStore(r: RuntimeState, now: int)
    requires WindowOk(r)
    ensures Loaded(Some(Flushed(r)), r.windowSize, r.floor, now)
         == r.(pending := {}, windowStart := WindowStartAtLoad(r.storm, now))
  {
    FlushThenLoad(r, r.windowSize, r.floor, now);
  }

  /** `log` lists the ids in the order this store took them as processed. While the window holds the newest of
      them, an id of the log is accepted again only when at least `windowSize` others, all different from it
      and from each other, were processed after it. */
  lemma AcceptedAgainOnlyAfterAFullWindow(r: RuntimeState, log: seq<MessageId>, id: MessageId, stamp: Stamp, j: nat)
    requires WindowOk(r) && r.order == Newest(r.windowSize, log)
    requires j < |log| && log[j] == id
    requires Accepts(r, id, stamp)
    ensures j + r.windowSize < |log|
    ensures NoDuplicates(Newest(r.windowSize, log)) && id !in Newest(r.windowSize, log)
    ensures |Newest(r.windowSize, log)| == r.windowSize
    ensures Newest(r.windowSize, log) == log[|log| - r.windowSize..]
  {
    NewestHolds(r.windowSize, log, j);
    assert id !in Newest(r.windowSize, log);
  }

  lemma NewestHolds(n: nat, s: seq<MessageId>, j: nat)
    requires j < |s|
    ensures |s| <= j + n ==> s[j] in Newest(n, s)
  {
    if n < |s| <= j + n {
      assert Newest(n, s)[j - (|s| - n)] == s[j];
    }
  }

  /** An id bounced by a full or closed queue is accepted again when it is replayed. */
  lemma BouncedIdIsAcceptedAgain(r: RuntimeState, id: MessageId, stamp: Stamp)
    requires Accepts(r, id, stamp)
    ensures !Accepts(ShouldEnqueue(r, id, stamp), id, stamp)
    ensures MarkFailed(ShouldEnqueue(r, id, stamp), id) == r
  {
    assert r.pending + {id} - {id} == r.pending;
  }

  // ----- Timestamps -----

  ghost predicate Later(stamp: Stamp, later: Stamp) {
    stamp.instant.Some? && later.instant.Some? && stamp.instant.value <= later.instant.value
  }

  /** Without a floor everything is admitted, and the floor itself is. Between parsed timestamps the instants decide,
      so that whatever is admitted, everything later is; otherwise the texts decide in the same way. */
  lemma FloorMeaning(stamp: Stamp, later: Stamp, f: Stamp)
    ensures !BeforeFloor(stamp, None) && !BeforeFloor(f, Some(f))
    ensures stamp.instant.Some? && f.instant.Some? ==>
      (BeforeFloor(stamp, Some(f)) <==> f.instant.value > stamp.instant.value)
    ensures stamp.instant.None? || f.instant.None? ==> (BeforeFloor(stamp, Some(f)) <==> Text.Less(stamp.text, f.text))
    ensures f.instant.Some? && Later(stamp, later) && !BeforeFloor(stamp, Some(f)) ==> !BeforeFloor(later, Some(f))
    ensures f.instant.None? && !Text.Less(later.text, stamp.text) && !BeforeFloor(stamp, Some(f)) ==>
      !BeforeFloor(later, Some(f))
  {
    Text.LessIrreflexive(f.text);
    if f.instant.None? && Text.Less(later.text, f.text) && !Text.Less(later.text, stamp.text) {
      if later.text == stamp.text {
      } else {
        Text.LessConnected(later.text, stamp.text);
        Text.LessTransitive(stamp.text, later.text, f.text);
      }
    }
  }

  /** The last seen timestamp is one of the two, and below neither. */
  lemma LastSeenMeaning(r: RuntimeState, id: MessageId, stamp: Stamp)
    ensures var seen := MarkProcessed(r, id, stamp).lastSeen;
      && seen.Some? && (seen.value == stamp.text || seen == r.lastSeen)
      && !Text.Less(seen.value, stamp.text)
      && (r.lastSeen.Some? ==> !Text.Less(seen.value, r.lastSeen.value))
  {
    Text.LessIrreflexive(stamp.text);
    if r.lastSeen.Some? {
      Text.LessIrreflexive(r.lastSeen.value);
      if Text.Less(r.lastSeen.value, stamp.text) && Text.Less(stamp.text, r.lastSeen.value) {
        Text.LessTransitive(stamp.text, r.lastSeen.value, stamp.text);
      }
    }
  }
}
