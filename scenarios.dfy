/**
 * End-to-end runs of `TrackEventTracker` on small inputs: each method builds
 * a fresh tracker, drives it through the public operations and states what
 * the calls return.
 */
module Scenarios {
  import opened Types
  import opened DescriptorTracks
  import opened TrackEventTracking

  /** A process tracker that never reports reuse: a pid or tid is its own identity. */
  function StableResolver(): IdentityResolver
  {
    IdentityResolver(
      (pid: uint32, tid: uint32) => tid as nat,
      (pid: uint32, tid: uint32, uuid: uint64) => tid as nat,
      (pid: uint32) => pid as nat,
      (pid: uint32, ts: int64, uuid: uint64) => pid as nat,
      (c: Cheri.CHERIContextId, ts: int64) => CHERIIdentity(c.pid as nat, c.tid as nat, c.cid as nat))
  }

  /** A process tracker whose restarted threads and processes are numbered 1000 plus the uuid. */
  function RestartingResolver(): IdentityResolver
  {
    IdentityResolver(
      (pid: uint32, tid: uint32) => tid as nat,
      (pid: uint32, tid: uint32, uuid: uint64) => 1000 + uuid as nat,
      (pid: uint32) => pid as nat,
      (pid: uint32, ts: int64, uuid: uint64) => 1000 + uuid as nat,
      (c: Cheri.CHERIContextId, ts: int64) => CHERIIdentity(c.pid as nat, c.tid as nat, c.cid as nat))
  }

  const DefaultName: StringId := 100

  /** Asking twice for the same uuid gives the same track and adds no row the second time. */
  method ResolveTwice() returns (first: Option<TrackId>, second: Option<TrackId>, rowsAfterFirst: nat,
                                 rowsAfterSecond: nat)
    ensures first.Some? && first == second
    ensures rowsAfterFirst == rowsAfterSecond
  {
    var tracker := new TrackEventTracker(StableResolver(), DefaultName);
    tracker.ReserveDescriptorChildTrack(1, 0, 7);
    first := tracker.GetDescriptorTrack(1, NullStringId);
    rowsAfterFirst := |tracker.trackTable|;
    second := tracker.GetDescriptorTrack(1, NullStringId);
    rowsAfterSecond := |tracker.trackTable|;
  }

  /**
   * Two tracks naming each other as parent: the lookup ends, the track is
   * global, and its row points at the row of its parent.
   */
  method ParentCycle() returns (track: Option<TrackId>, row: TrackRow, parentRow: Option<TrackId>)
    ensures track.Some? && row.track.GlobalTrack?
    ensures parentRow.Some? && row.parentId == parentRow
  {
    var tracker := new TrackEventTracker(StableResolver(), DefaultName);
    tracker.ReserveDescriptorChildTrack(1, 2, 7);
    tracker.ReserveDescriptorChildTrack(2, 1, 8);
    assert tracker.reservedDescriptorTracks == map[1 := ChildReservation(2, 7), 2 := ChildReservation(1, 8)];
    track := tracker.GetDescriptorTrack(1, NullStringId);
    row := tracker.trackTable[track.value];
    parentRow := Some(tracker.descriptorTracks[2]);
  }

  /**
   * A second thread reservation for a uuid with another pid and tid and an
   * earlier timestamp: the comparison as written would take it for the same
   * track and lower the timestamp to 10; the corrected comparison refuses it,
   * so the first pid, tid and timestamp 20 stay.
   */
  method ConflictingThreadReservation() returns (kept: DescriptorTrackReservation, sameAsWritten: bool)
    ensures kept.pid == Some(1) && kept.tid == Some(1) && kept.minTimestamp == 20
    ensures sameAsWritten
  {
    var tracker := new TrackEventTracker(StableResolver(), DefaultName);
    tracker.ReserveDescriptorThreadTrack(7, 0, 7, 1, 1, 20);
    tracker.ReserveDescriptorThreadTrack(7, 0, 7, 2, 2, 10);
    kept := tracker.reservedDescriptorTracks[7];
    sameAsWritten := IsForSameTrackAsWritten(ThreadReservation(0, 7, 1, 1, 20), ThreadReservation(0, 7, 2, 2, 10));
  }

  /**
   * An incremental counter with multiplier 1000 on sequence 3: deltas 5 and
   * 2 read 5000 and 7000; after the sequence is cleared, delta 1 reads 1000.
   * A sample from sequence 4 is refused and leaves the total alone.
   */
  method IncrementalCounterRoundTrip() returns (a: Option<real>, b: Option<real>, wrong: Option<real>,
                                              c: Option<real>)
    ensures a == Some(5000.0) && b == Some(7000.0)
    ensures wrong.None?
    ensures c == Some(1000.0)
  {
    var tracker := new TrackEventTracker(StableResolver(), DefaultName);
    tracker.ReserveDescriptorCounterTrack(9, 0, 7, 8, 1000, true, 3);
    var r := CounterReservation(0, 7, 8, 1000, true, 3);
    assert tracker.reservedDescriptorTracks == map[9 := r];
    a := tracker.ConvertToAbsoluteCounterValue(9, 3, 5.0);
    assert tracker.reservedDescriptorTracks == map[9 := r.(latestValue := 5.0)];
    b := tracker.ConvertToAbsoluteCounterValue(9, 3, 2.0);
    assert tracker.reservedDescriptorTracks == map[9 := r.(latestValue := 7.0)];
    wrong := tracker.ConvertToAbsoluteCounterValue(9, 4, 1.0);
    tracker.OnIncrementalStateCleared(3);
    assert tracker.reservedDescriptorTracks[9] == r;
    c := tracker.ConvertToAbsoluteCounterValue(9, 3, 1.0);
  }

  /** A counter that is not incremental scales each sample on its own, whatever the sequence. */
  method AbsoluteCounter() returns (a: Option<real>, b: Option<real>, unknown: Option<real>)
    ensures a == Some(30.0) && b == Some(10.0) && unknown.None?
  {
    var tracker := new TrackEventTracker(StableResolver(), DefaultName);
    tracker.ReserveDescriptorCounterTrack(9, 0, 7, 8, 10, false, 3);
    a := tracker.ConvertToAbsoluteCounterValue(9, 3, 3.0);
    b := tracker.ConvertToAbsoluteCounterValue(9, 4, 1.0);
    unknown := tracker.ConvertToAbsoluteCounterValue(10, 3, 1.0);
  }

  /** Two counters under one thread get two rows of their own. */
  method SiblingCounters() returns (first: Option<TrackId>, second: Option<TrackId>)
    ensures first.Some? && second.Some? && first != second
  {
    var tracker := new TrackEventTracker(StableResolver(), DefaultName);
    tracker.ReserveDescriptorThreadTrack(1, 0, 7, 5, 6, 10);
    var a := CounterUnderThread(tracker, 2);
    var b := CounterUnderThread(tracker, 3);
    first, second := Some(a), Some(b);
  }

  /** Reserving and looking up a new counter `uuid` under track 1 adds a row for it. */
  method CounterUnderThread(tracker: TrackEventTracker, uuid: uint64) returns (id: TrackId)
    requires tracker.Valid() && forall k :: k in tracker.reservedDescriptorTracks ==> k < uuid
    modifies tracker
    ensures tracker.Valid() && forall k :: k in tracker.reservedDescriptorTracks ==> k <= uuid
    ensures |old(tracker.trackTable)| <= id < |tracker.trackTable|
  {
    tracker.ReserveDescriptorCounterTrack(uuid, 1, 7, 8, 1, false, 3);
    assert tracker.reservedDescriptorTracks == old(tracker.reservedDescriptorTracks)[uuid := CounterReservation(1, 7, 8, 1, false, 3)];
    assert uuid !in tracker.descriptorTracks;
    var res := tracker.GetDescriptorTrack(uuid, NullStringId);
    id := res.value;
  }

  /** The default track is created once and then found again. */
  method DefaultTrackTwice() returns (first: TrackId, second: TrackId, name: StringId)
    ensures first == second && name == DefaultName
  {
    var tracker := new TrackEventTracker(StableResolver(), DefaultName);
    first := tracker.GetOrCreateDefaultDescriptorTrack();
    second := tracker.GetOrCreateDefaultDescriptorTrack();
    name := tracker.trackTable[second].name;
  }

  /** A child track without a name of its own takes the first event name it is asked with. */
  method UnnamedChildTakesEventName() returns (name: StringId, later: StringId)
    ensures name == 42 && later == 42
  {
    var tracker := new TrackEventTracker(StableResolver(), DefaultName);
    tracker.ReserveDescriptorChildTrack(1, 0, NullStringId);
    var track := tracker.GetDescriptorTrack(1, 42);
    name := tracker.trackTable[track.value].name;
    track := tracker.GetDescriptorTrack(1, 43);
    later := tracker.trackTable[track.value].name;
  }

  /** A child of a thread track is a new, non-root track of that same thread. */
  method ChildOfThread() returns (child: TrackRow, parent: TrackRow)
    ensures child.track.ThreadTrack? && !child.track.isRootInScope && !child.track.isCounter
    ensures parent.track == ThreadTrack(child.track.utid, false, true)
  {
    var tracker := new TrackEventTracker(StableResolver(), DefaultName);
    tracker.ReserveDescriptorThreadTrack(1, 0, 7, 5, 6, 10);
    tracker.ReserveDescriptorChildTrack(2, 1, 8);
    assert tracker.reservedDescriptorTracks == map[1 := ThreadReservation(0, 7, 5, 6, 10), 2 := ChildReservation(1, 8)];
    var track := tracker.GetDescriptorTrack(2, NullStringId);
    child := tracker.trackTable[track.value];
    parent := tracker.trackTable[tracker.descriptorTracks[1]];
  }

  /** Thread track 1 (thread 6 of process 5) and its unnamed-scope children 2 and 3. */
  const ThreadWithChildren: map<uint64, DescriptorTrackReservation> :=
    map[1 := ThreadReservation(0, 7, 5, 6, 10), 2 := ChildReservation(1, 8), 3 := ChildReservation(1, 9)]

  /**
   * Two children of one thread track: looking up the first leaves the
   * second unresolved, so the second still takes the thread's scope, and
   * looking up the second leaves the first child's row as it was.
   */
  method ChildrenOfThread() returns (first: TrackRow, second: TrackRow, firstAfter: TrackRow)
    ensures first.track.ThreadTrack? && second.track.ThreadTrack?
    ensures !second.track.isRootInScope && second.track.utid == first.track.utid
    ensures firstAfter == first
  {
    var tracker := new TrackEventTracker(StableResolver(), DefaultName);
    tracker.ReserveDescriptorThreadTrack(1, 0, 7, 5, 6, 10);
    tracker.ReserveDescriptorChildTrack(2, 1, 8);
    tracker.ReserveDescriptorChildTrack(3, 1, 9);
    assert tracker.reservedDescriptorTracks == ThreadWithChildren;
    var a := FirstChild(tracker);
    first := tracker.trackTable[a];
    var b := SecondChild(tracker, a);
    second := tracker.trackTable[b];
    firstAfter := tracker.trackTable[a];
  }

  /** The lookup of child 2 resolves and creates 2 and its thread track 1, and nothing of 3. */
  method FirstChild(tracker: TrackEventTracker) returns (a: TrackId)
    requires tracker.Valid() && tracker.reservedDescriptorTracks == ThreadWithChildren
    requires tracker.resolvedDescriptorTracks == map[] && tracker.descriptorTracks == map[]
    modifies tracker
    ensures tracker.Valid() && tracker.reservedDescriptorTracks == ThreadWithChildren
    ensures 3 !in tracker.resolvedDescriptorTracks && 3 !in tracker.descriptorTracks
    ensures 2 in tracker.descriptorTracks && tracker.descriptorTracks[2] == a && a < |tracker.trackTable|
    ensures 1 in tracker.descriptorTracks && tracker.descriptorTracks[1] != a
    ensures 1 in tracker.resolvedDescriptorTracks && tracker.resolvedDescriptorTracks[1].ThreadTrack?
    ensures tracker.trackTable[a].track.ThreadTrack?
            && tracker.trackTable[a].track.utid == tracker.resolvedDescriptorTracks[1].utid
  {
    ChainOfChild(ThreadWithChildren, 2);
    var track := tracker.GetDescriptorTrack(2, NullStringId);
    a := track.value;
    assert AddedWithin(tracker.resolvedDescriptorTracks, map[], {2, 1}, 3);
    assert AddedWithin(tracker.descriptorTracks, map[], {2, 1}, 3);
    tracker.CreatedTrack(1);
  }

  /**
   * The lookup of child 3 after that of child 2: 3 takes the scope of thread
   * track 1, and the row `a` of child 2 stays as it was.
   */
  method SecondChild(tracker: TrackEventTracker, a: TrackId) returns (b: TrackId)
    requires tracker.Valid() && tracker.reservedDescriptorTracks == ThreadWithChildren
    requires 3 !in tracker.resolvedDescriptorTracks && 3 !in tracker.descriptorTracks
    requires 2 in tracker.descriptorTracks && tracker.descriptorTracks[2] == a && a < |tracker.trackTable|
    requires 1 in tracker.descriptorTracks && tracker.descriptorTracks[1] != a
    requires 1 in tracker.resolvedDescriptorTracks && tracker.resolvedDescriptorTracks[1].ThreadTrack?
    modifies tracker
    ensures b < |tracker.trackTable| && tracker.trackTable[b].track.ThreadTrack?
    ensures !tracker.trackTable[b].track.isRootInScope
    ensures tracker.trackTable[b].track.utid == old(tracker.resolvedDescriptorTracks[1].utid)
    ensures a < |tracker.trackTable| && tracker.trackTable[a] == old(tracker.trackTable[a])
  {
    ghost var rows, tracks, resolved := tracker.trackTable, tracker.descriptorTracks, tracker.resolvedDescriptorTracks;
    ghost var byUtid, byUpid := tracker.descriptorUuidsByUtid, tracker.descriptorUuidsByUpid;
    var track := tracker.GetDescriptorTrack(3, NullStringId);
    b := track.value;
    ChildTakesParentScope(tracker.resolver, resolved, tracker.resolvedDescriptorTracks, byUtid, byUpid,
                          ParentSettled(ThreadWithChildren, resolved, 3, []));
    SiblingRowUntouched(resolved, tracker.resolvedDescriptorTracks, tracks, tracker.descriptorTracks,
                        rows, tracker.trackTable, a);
  }

  /** Child 3 of thread track 1, resolved after 1, is a non-root track of 1's thread. */
  lemma ChildTakesParentScope(resolver: IdentityResolver, resolved: map<uint64, ResolvedDescriptorTrack>,
                              resolved': map<uint64, ResolvedDescriptorTrack>,
                              byUtid: map<UniqueTid, uint64>, byUpid: map<UniquePid, uint64>, settled: bool)
    requires FreshResolution(resolver, ThreadWithChildren, resolved', 3, [], byUtid, byUpid, settled)
    requires 1 in resolved && resolved[1].ThreadTrack? && Extends(resolved', resolved)
    ensures resolved'[3].ThreadTrack? && !resolved'[3].isRootInScope && resolved'[3].utid == resolved[1].utid
  {
    assert !HasOwnScope(ThreadWithChildren[3]) && ThreadWithChildren[3].parentUuid == 1;
    assert resolved'[3] == ScopeFromParent(false, Some(resolved[1]));
  }

  /**
   * The lookup of child 3 changes only the rows of 3 and of its parent 1;
   * row `a`, which is neither 1's row nor one appended by that lookup, stays.
   */
  lemma SiblingRowUntouched(resolved: map<uint64, ResolvedDescriptorTrack>,
                            resolved': map<uint64, ResolvedDescriptorTrack>,
                            tracks: map<uint64, TrackId>, tracks': map<uint64, TrackId>,
                            rows: seq<TrackRow>, rows': seq<TrackRow>, a: TrackId)
    requires WithinChain(Chain(ThreadWithChildren, 3, {}), resolved, resolved', tracks, tracks', rows, rows')
    requires 1 in tracks && tracks[1] != a && a < |rows| && Extends(tracks', tracks)
    requires 3 in tracks' ==> |rows| <= tracks'[3]
    ensures a < |rows'| && rows'[a] == rows[a]
  {
    ChainOfChild(ThreadWithChildren, 3);
    assert a !in RowsOf(tracks', {3, 1});
    assert RowKept(rows', rows, a);
  }

  /** The chain of a child of root track 1 is the child and 1. */
  lemma ChainOfChild(reserved: map<uint64, DescriptorTrackReservation>, child: uint64)
    requires child != 1 && child in reserved && 1 in reserved
    requires reserved[child].parentUuid == 1 && reserved[1].parentUuid == 0
    ensures Chain(reserved, child, {}) == {child, 1}
  {
    ChainUnfolds(reserved, child, {});
    assert {} + {child} == {child};
  }

  /** Two unrelated root tracks 1 and 2, named 7 and 8. */
  const TwoRoots: map<uint64, DescriptorTrackReservation> := map[1 := ChildReservation(0, 7), 2 := ChildReservation(0, 8)]

  /**
   * Two unrelated root tracks: looking up the first neither resolves nor
   * creates the second, and creating the second keeps the first's row and
   * its name.
   */
  method SeparateRoots() returns (first: TrackRow, firstAfter: TrackRow)
    ensures first.name == 7 && firstAfter == first
  {
    var tracker := new TrackEventTracker(StableResolver(), DefaultName);
    tracker.ReserveDescriptorChildTrack(1, 0, 7);
    tracker.ReserveDescriptorChildTrack(2, 0, 8);
    assert tracker.reservedDescriptorTracks == TwoRoots;
    var a := FirstRoot(tracker);
    first := tracker.trackTable[a];
    ghost var resolved, tracks, rows := tracker.resolvedDescriptorTracks, tracker.descriptorTracks, tracker.trackTable;
    var b := tracker.GetDescriptorTrack(2, NullStringId);
    OtherRootRowUntouched(resolved, tracker.resolvedDescriptorTracks, tracks, tracker.descriptorTracks,
                          rows, tracker.trackTable, a);
    firstAfter := tracker.trackTable[a];
  }

  /** The lookup of root 1 creates its row, named as reserved, and leaves 2 unresolved and without a track. */
  method FirstRoot(tracker: TrackEventTracker) returns (a: TrackId)
    requires tracker.Valid() && tracker.reservedDescriptorTracks == TwoRoots
    requires tracker.resolvedDescriptorTracks == map[] && tracker.descriptorTracks == map[]
    modifies tracker
    ensures tracker.Valid() && tracker.reservedDescriptorTracks == TwoRoots
    ensures 2 !in tracker.resolvedDescriptorTracks && 2 !in tracker.descriptorTracks
    ensures a < |tracker.trackTable| && tracker.trackTable[a].name == 7
  {
    var track := tracker.GetDescriptorTrack(1, NullStringId);
    a := track.value;
    assert Chain(TwoRoots, 1, {}) == {1};
    assert AddedWithin(tracker.resolvedDescriptorTracks, map[], {1}, 2);
    assert AddedWithin(tracker.descriptorTracks, map[], {1}, 2);
  }

  /** The lookup of root 2 changes no row but its own, which it appends. */
  lemma OtherRootRowUntouched(resolved: map<uint64, ResolvedDescriptorTrack>,
                              resolved': map<uint64, ResolvedDescriptorTrack>,
                              tracks: map<uint64, TrackId>, tracks': map<uint64, TrackId>,
                              rows: seq<TrackRow>, rows': seq<TrackRow>, a: TrackId)
    requires WithinChain(Chain(TwoRoots, 2, {}), resolved, resolved', tracks, tracks', rows, rows')
    requires a < |rows| && (2 in tracks' ==> |rows| <= tracks'[2])
    ensures a < |rows'| && rows'[a] == rows[a]
  {
    assert Chain(TwoRoots, 2, {}) == {2};
    assert a !in RowsOf(tracks', {2});
    assert RowKept(rows', rows, a);
  }

  /**
   * Three uuids describe thread 6 of process 5 one after another: the first
   * gets the process tracker's thread, each later one a restarted thread,
   * and each its own primary row.
   */
  method ThreadReuse() returns (first: TrackId, second: TrackId, third: TrackId)
    ensures first != second && second != third && first != third
  {
    var tracker := new TrackEventTracker(RestartingResolver(), DefaultName);
    first := DescribeThread(tracker, 1);
    second := DescribeThread(tracker, 2);
    third := DescribeThread(tracker, 3);
  }

  /**
   * Reserving and looking up thread 6 of process 5 for a new `uuid`: the
   * process tracker's thread while nobody owns it, a restarted thread after.
   */
  method DescribeThread(tracker: TrackEventTracker, uuid: uint64) returns (id: TrackId)
    requires tracker.Valid() && tracker.resolver == RestartingResolver()
    requires forall k :: k in tracker.reservedDescriptorTracks ==> k < uuid
    modifies tracker
    ensures tracker.Valid() && 6 in tracker.descriptorUuidsByUtid
    ensures forall k :: k in tracker.reservedDescriptorTracks ==> k <= uuid
    ensures id < |tracker.trackTable|
    ensures tracker.trackTable[id].track
            == ThreadTrack(if 6 in old(tracker.descriptorUuidsByUtid) then 1000 + uuid as nat else 6, false, true)
    ensures RowsKept(tracker.trackTable, old(tracker.trackTable))
  {
    ghost var byUtid := tracker.descriptorUuidsByUtid;
    ghost var byUpid := tracker.descriptorUuidsByUpid;
    ghost var resolved := tracker.resolvedDescriptorTracks;
    tracker.ReserveDescriptorThreadTrack(uuid, 0, 7, 5, 6, 20);
    assert tracker.reservedDescriptorTracks == old(tracker.reservedDescriptorTracks)[uuid := ThreadReservation(0, 7, 5, 6, 20)];
    assert uuid !in tracker.resolvedDescriptorTracks;
    assert ParentSettled(tracker.reservedDescriptorTracks, tracker.resolvedDescriptorTracks, uuid, []);
    var res := tracker.GetDescriptorTrack(uuid, NullStringId);
    id := res.value;
    ThreadOfRestartingResolver(tracker.reservedDescriptorTracks, tracker.resolvedDescriptorTracks, uuid, byUtid, byUpid);
    OwnedThreadStaysOwned(byUtid, byUpid, resolved, tracker.descriptorUuidsByUtid, tracker.descriptorUuidsByUpid,
                          tracker.resolvedDescriptorTracks, uuid);
  }

  /** What `RestartingResolver` makes of thread 6 of process 5 reserved for `uuid`. */
  lemma ThreadOfRestartingResolver(reserved: map<uint64, DescriptorTrackReservation>,
                                   resolved: map<uint64, ResolvedDescriptorTrack>, uuid: uint64,
                                   byUtid: map<UniqueTid, uint64>, byUpid: map<UniquePid, uint64>)
    requires uuid in reserved && reserved[uuid] == ThreadReservation(0, 7, 5, 6, 20)
    requires FreshResolution(RestartingResolver(), reserved, resolved, uuid, [], byUtid, byUpid, true)
    ensures resolved[uuid] == ThreadTrack(if 6 in byUtid then 1000 + uuid as nat else 6, false, true)
  {
    var t := OwnScopeResolution(RestartingResolver(), uuid, reserved[uuid], byUtid, byUpid);
    assert t.utid == ThreadIdentity(RestartingResolver(), byUtid, 5, 6, uuid);
  }

  /** A thread with an owner keeps one once `uuid` is resolved as well. */
  lemma OwnedThreadStaysOwned(byUtid: map<UniqueTid, uint64>, byUpid: map<UniquePid, uint64>,
                              m: map<uint64, ResolvedDescriptorTrack>, byUtid': map<UniqueTid, uint64>,
                              byUpid': map<UniquePid, uint64>, m': map<uint64, ResolvedDescriptorTrack>, uuid: uint64)
    requires PrimaryOwners(byUtid, byUpid, m) && PrimaryOwners(byUtid', byUpid', m') && Extends(m', m)
    requires uuid in m' && m'[uuid] == ThreadTrack(if 6 in byUtid then 1000 + uuid as nat else 6, false, true)
    ensures 6 in byUtid'
  {
    if 6 in byUtid {
      var owner := byUtid[6];
      assert m'[owner] == m[owner] == ThreadTrack(6, false, true);
    } else {
      assert IsPrimaryThreadTrack(m'[uuid]);
    }
  }

  /** Two uuids for the same CHERI context resolve to its one interned track. */
  method SharedCHERIContext() returns (first: TrackId, second: TrackId)
    ensures first == second
  {
    var ccid := Cheri.CHERIContextId(5, 6, 7, Some(1));
    var tracker := new TrackEventTracker(StableResolver(), DefaultName);
    tracker.ReserveDescriptorCHERIContextTrack(1, 0, 7, ccid, 10);
    var a := tracker.GetDescriptorTrack(1, NullStringId);
    first := a.value;
    assert 2 !in tracker.resolvedDescriptorTracks;
    tracker.ReserveDescriptorCHERIContextTrack(2, 0, 7, ccid, 10);
    var b := tracker.GetDescriptorTrack(2, NullStringId);
    second := b.value;
    tracker.PrimaryTracksShareRows(1, 2);
  }
}
