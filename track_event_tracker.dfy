/**
 * `TrackEventTracker` (src/trace_processor/importers/proto/track_event_tracker.h):
 * reservations made while tokenizing track descriptors, lazy memoized
 * resolution of a uuid's parent chain into a scope and identity, creation of
 * the track rows, and conversion of counter samples.
 *
 * The tracker's collaborators are modelled as follows: the process tracker
 * that maps pids, tids and CHERI contexts to unique identities is a fixed
 * `IdentityResolver` of pure functions, and the storage's track table is the
 * sequence `trackTable`, whose next index is the next fresh `TrackId`.
 */
module TrackEventTracking {
  import opened Types
  import opened Cheri
  import opened DescriptorTracks

  type TrackId = nat

  /** One row of the track table: what the track is, its name and its parent track. */
  datatype TrackRow = TrackRow(track: ResolvedDescriptorTrack, name: StringId, parentId: Option<TrackId>)

  datatype CHERIIdentity = CHERIIdentity(upid: UniquePid, utid: UniqueTid, ucid: UniqueCid)

  /**
   * The process tracker, as seen from this class: the identity of a thread,
   * process or CHERI context, and the new thread or process it starts when a
   * pid or tid turns out to have been reused. A uuid is resolved at most
   * once, so each restart is asked for on behalf of one uuid, which is
   * passed along.
   */
  datatype IdentityResolver = IdentityResolver(
    updateThread: (uint32, uint32) -> UniqueTid,
    startNewThread: (uint32, uint32, uint64) -> UniqueTid,
    getOrCreateProcess: uint32 -> UniquePid,
    startNewProcess: (uint32, int64, uint64) -> UniquePid,
    cheriContext: (CHERIContextId, int64) -> CHERIIdentity)

  /** `kDefaultDescriptorTrackUuid`. */
  const DefaultDescriptorTrackUuid: uint64 := 0

  function PathSet(path: seq<uint64>): (onPath: set<uint64>)
    ensures forall u :: u in onPath <==> u in path
  {
    set u | u in path
  }

  /** Every recursive step of a resolution pushes a reserved uuid that is not yet on the path. */
  lemma PathGrows(keys: set<uint64>, path: seq<uint64>, uuid: uint64)
    requires uuid in keys && uuid !in path
    ensures PathSet(path + [uuid]) == PathSet(path) + {uuid}
    ensures |keys - PathSet(path + [uuid])| < |keys - PathSet(path)|
  {
    assert PathSet(path + [uuid]) == PathSet(path) + {uuid};
    VisitShrinks(keys, PathSet(path), uuid);
  }

  lemma VisitShrinks(keys: set<uint64>, visited: set<uint64>, uuid: uint64)
    requires uuid in keys && uuid !in visited
    ensures |keys - (visited + {uuid})| < |keys - visited|
  {
    assert keys - (visited + {uuid}) == (keys - visited) - {uuid};
  }

  /** The parent of reserved `uuid` is a uuid a lookup follows: not 0, reserved, and not in `stop`. */
  predicate UsableParent(reserved: map<uint64, DescriptorTrackReservation>, uuid: uint64, stop: set<uint64>)
    requires uuid in reserved
  {
    var p := reserved[uuid].parentUuid;
    p != 0 && p !in stop && p in reserved
  }

  /**
   * The uuids a lookup of `uuid` may resolve or create: `uuid` itself and,
   * when `uuid` is reserved and not yet visited and its parent is usable,
   * the chain of that parent. The chain ends at parent 0, at an unreserved
   * parent and at a uuid reached again.
   */
  ghost function Chain(reserved: map<uint64, DescriptorTrackReservation>, uuid: uint64, visited: set<uint64>)
    : (c: set<uint64>)
    ensures uuid in c
    decreases |reserved.Keys - visited|
  {
    if uuid in reserved && uuid !in visited && UsableParent(reserved, uuid, visited + {uuid}) then
      VisitShrinks(reserved.Keys, visited, uuid);
      {uuid} + Chain(reserved, reserved[uuid].parentUuid, visited + {uuid})
    else {uuid}
  }

  /** Visiting more uuids first only shortens a chain. */
  lemma {:induction false} ChainShrinks(reserved: map<uint64, DescriptorTrackReservation>, uuid: uint64,
                                        visited: set<uint64>, more: set<uint64>)
    requires visited <= more
    ensures Chain(reserved, uuid, more) <= Chain(reserved, uuid, visited)
    decreases |reserved.Keys - visited|
  {
    if uuid in reserved && uuid !in more && UsableParent(reserved, uuid, more + {uuid}) {
      VisitShrinks(reserved.Keys, visited, uuid);
      ChainShrinks(reserved, reserved[uuid].parentUuid, visited + {uuid}, more + {uuid});
    }
  }

  /**
   * A chain that may pass through `other` lies within the chain that stops
   * at `other` and the chain of `other` itself.
   */
  lemma {:induction false} ChainThrough(reserved: map<uint64, DescriptorTrackReservation>, uuid: uint64,
                                        visited: set<uint64>, other: uint64)
    ensures Chain(reserved, uuid, visited) <= Chain(reserved, uuid, visited + {other}) + Chain(reserved, other, visited)
    decreases |reserved.Keys - visited|
  {
    if uuid in reserved && uuid !in visited && uuid != other && UsableParent(reserved, uuid, visited + {uuid}) {
      var p := reserved[uuid].parentUuid;
      VisitShrinks(reserved.Keys, visited, uuid);
      ChainThrough(reserved, p, visited + {uuid}, other);
      ChainShrinks(reserved, other, visited, visited + {uuid});
      assert visited + {uuid} + {other} == visited + {other} + {uuid};
    }
  }

  /** One step of the chain: past a usable parent, the chain is the parent's, visited from `uuid`. */
  lemma ChainUnfolds(reserved: map<uint64, DescriptorTrackReservation>, uuid: uint64, visited: set<uint64>)
    requires uuid in reserved && uuid !in visited && UsableParent(reserved, uuid, visited + {uuid})
    ensures Chain(reserved, uuid, visited) == {uuid} + Chain(reserved, reserved[uuid].parentUuid, visited + {uuid})
  {
  }

  /** The chain of a usable parent lies within the chain of its child. */
  lemma ParentChainWithin(reserved: map<uint64, DescriptorTrackReservation>, uuid: uint64)
    requires uuid in reserved && UsableParent(reserved, uuid, {uuid})
    ensures Chain(reserved, reserved[uuid].parentUuid, {}) <= Chain(reserved, uuid, {})
  {
    var p := reserved[uuid].parentUuid;
    assert {} + {uuid} == {uuid};
    ChainThrough(reserved, p, {}, uuid);
  }

  /** The rows of the uuids in `uuids` that have a track. */
  ghost function RowsOf(tracks: map<uint64, TrackId>, uuids: set<uint64>): set<TrackId>
  {
    set u | u in uuids && u in tracks :: tracks[u]
  }

  /** More uuids with more tracks have more rows. */
  lemma RowsOfGrows(tracks: map<uint64, TrackId>, tracks': map<uint64, TrackId>, uuids: set<uint64>,
                    uuids': set<uint64>)
    requires Extends(tracks', tracks) && uuids <= uuids'
    ensures RowsOf(tracks, uuids) <= RowsOf(tracks', uuids')
  {
    forall i | i in RowsOf(tracks, uuids)
      ensures i in RowsOf(tracks', uuids')
    {
      var u :| u in uuids && u in tracks && tracks[u] == i;
      assert tracks'[u] == i;
    }
  }

  /** Rows are only appended, and of the rows of `before` only those in `ids` may differ in `after`. */
  ghost predicate RowsUnchangedExcept(after: seq<TrackRow>, before: seq<TrackRow>, ids: set<TrackId>)
  {
    |before| <= |after| && forall i {:trigger RowKept(after, before, i)} :: 0 <= i < |before| && i !in ids ==> RowKept(after, before, i)
  }

  /** Row `i` of `before` is still there, unchanged, in `after`. */
  ghost predicate RowKept(after: seq<TrackRow>, before: seq<TrackRow>, i: int)
  {
    0 <= i < |before| && i < |after| && after[i] == before[i]
  }

  /** Every uuid `after` has and `before` lacks is one of `chain`. */
  ghost predicate KeysWithin<V>(after: map<uint64, V>, before: map<uint64, V>, chain: set<uint64>)
  {
    forall u {:trigger AddedWithin(after, before, chain, u)} :: AddedWithin(after, before, chain, u)
  }

  /** If `after` has `u` and `before` does not, `u` is one of `chain`. */
  ghost predicate AddedWithin<V>(after: map<uint64, V>, before: map<uint64, V>, chain: set<uint64>, u: uint64)
  {
    u in after ==> u in before || u in chain
  }

  /** New keys within a set are within any larger set. */
  lemma KeysWithinWider<V>(after: map<uint64, V>, before: map<uint64, V>, chain: set<uint64>, chain': set<uint64>)
    requires KeysWithin(after, before, chain) && chain <= chain'
    ensures KeysWithin(after, before, chain')
  {
    forall u
      ensures AddedWithin(after, before, chain', u)
    {
      assert AddedWithin(after, before, chain, u);
    }
  }

  /** New keys of two steps, each within its set, are within the larger set. */
  lemma KeysWithinSteps<V>(m: map<uint64, V>, m': map<uint64, V>, m'': map<uint64, V>,
                           chain: set<uint64>, chain': set<uint64>)
    requires KeysWithin(m', m, chain) && KeysWithin(m'', m', chain') && chain <= chain'
    ensures KeysWithin(m'', m, chain')
  {
    forall u
      ensures AddedWithin(m'', m, chain', u)
    {
      assert AddedWithin(m', m, chain, u) && AddedWithin(m'', m', chain', u);
    }
  }

  /** Adding a uuid of the chain keeps the new keys within the chain. */
  lemma KeysWithinAdd<V>(m: map<uint64, V>, m': map<uint64, V>, chain: set<uint64>, k: uint64, v: V)
    requires KeysWithin(m', m, chain) && k in chain
    ensures KeysWithin(m'[k := v], m, chain)
  {
    var m'' := m'[k := v];
    forall u
      ensures AddedWithin(m'', m, chain, u)
    {
      assert AddedWithin(m', m, chain, u);
    }
  }

  /**
   * What a lookup confined to the uuids `chain` changes: it resolves and
   * creates tracks only for uuids of `chain`, and of the existing rows it
   * changes only the rows of those uuids' tracks.
   */
  ghost predicate WithinChain(chain: set<uint64>,
                              resolved: map<uint64, ResolvedDescriptorTrack>,
                              resolved': map<uint64, ResolvedDescriptorTrack>,
                              tracks: map<uint64, TrackId>, tracks': map<uint64, TrackId>,
                              rows: seq<TrackRow>, rows': seq<TrackRow>)
  {
    KeysWithin(resolved', resolved, chain) && KeysWithin(tracks', tracks, chain)
    && RowsUnchangedExcept(rows', rows, RowsOf(tracks', chain))
  }

  /** A frame within a chain is a frame within any larger set of uuids. */
  lemma WithinChainWider(chain: set<uint64>, chain': set<uint64>,
                         resolved: map<uint64, ResolvedDescriptorTrack>,
                         resolved': map<uint64, ResolvedDescriptorTrack>,
                         tracks: map<uint64, TrackId>, tracks': map<uint64, TrackId>,
                         rows: seq<TrackRow>, rows': seq<TrackRow>)
    requires chain <= chain' && WithinChain(chain, resolved, resolved', tracks, tracks', rows, rows')
    ensures WithinChain(chain', resolved, resolved', tracks, tracks', rows, rows')
  {
    KeysWithinWider(resolved', resolved, chain, chain');
    KeysWithinWider(tracks', tracks, chain, chain');
    RowsOfGrows(tracks', tracks', chain, chain');
    var ids, ids' := RowsOf(tracks', chain), RowsOf(tracks', chain');
    forall i | 0 <= i < |rows| && i !in ids'
      ensures RowKept(rows', rows, i)
    {
    }
  }

  /** Changing the row of one uuid of the chain keeps the frame. */
  lemma RowOfChainChanges(chain: set<uint64>, uuid: uint64,
                          resolved: map<uint64, ResolvedDescriptorTrack>, resolved': map<uint64, ResolvedDescriptorTrack>,
                          tracks: map<uint64, TrackId>, tracks': map<uint64, TrackId>,
                          rows: seq<TrackRow>, rows': seq<TrackRow>, rows'': seq<TrackRow>)
    requires uuid in chain && uuid in tracks'
    requires WithinChain(chain, resolved, resolved', tracks, tracks', rows, rows')
    requires |rows''| == |rows'| && forall i :: 0 <= i < |rows'| && i != tracks'[uuid] ==> rows''[i] == rows'[i]
    ensures WithinChain(chain, resolved, resolved', tracks, tracks', rows, rows'')
  {
    var ids := RowsOf(tracks', chain);
    assert tracks'[uuid] in ids;
    forall i | 0 <= i < |rows| && i !in ids
      ensures RowKept(rows'', rows, i)
    {
      assert RowKept(rows', rows, i);
    }
  }

  /** Adding the row of `uuid`, a uuid of the chain, keeps the frame. */
  lemma MaterializedWithinChain(chain: set<uint64>, uuid: uint64, id: TrackId,
                                resolved: map<uint64, ResolvedDescriptorTrack>,
                                resolved': map<uint64, ResolvedDescriptorTrack>,
                                tracks: map<uint64, TrackId>, tracks': map<uint64, TrackId>,
                                tracks'': map<uint64, TrackId>,
                                rows: seq<TrackRow>, rows': seq<TrackRow>, rows'': seq<TrackRow>)
    requires uuid in chain && uuid !in tracks' && tracks'' == tracks'[uuid := id]
    requires WithinChain(chain, resolved, resolved', tracks, tracks', rows, rows')
    requires RowsUnchangedExcept(rows'', rows', {id})
    ensures WithinChain(chain, resolved, resolved', tracks, tracks'', rows, rows'')
  {
    var ids := RowsOf(tracks'', chain);
    assert id in ids by { assert tracks''[uuid] == id; }
    forall i | 0 <= i < |rows'| && i !in ids
      ensures RowKept(rows'', rows', i)
    {
      assert i !in {id};
    }
    WithinChainSteps(chain, chain, resolved, resolved', resolved', tracks, tracks', tracks'', rows, rows', rows'');
  }

  /** Two lookups, each within its chain and the second's chain the larger, are together within the larger chain. */
  lemma WithinChainSteps(chain: set<uint64>, chain': set<uint64>,
                         resolved: map<uint64, ResolvedDescriptorTrack>,
                         resolved': map<uint64, ResolvedDescriptorTrack>,
                         resolved'': map<uint64, ResolvedDescriptorTrack>,
                         tracks: map<uint64, TrackId>, tracks': map<uint64, TrackId>,
                         tracks'': map<uint64, TrackId>,
                         rows: seq<TrackRow>, rows': seq<TrackRow>, rows'': seq<TrackRow>)
    requires chain <= chain' && Extends(tracks'', tracks')
    requires WithinChain(chain, resolved, resolved', tracks, tracks', rows, rows')
    requires WithinChain(chain', resolved', resolved'', tracks', tracks'', rows', rows'')
    ensures WithinChain(chain', resolved, resolved'', tracks, tracks'', rows, rows'')
  {
    KeysWithinSteps(resolved, resolved', resolved'', chain, chain');
    KeysWithinSteps(tracks, tracks', tracks'', chain, chain');
    RowsOfGrows(tracks', tracks'', chain, chain');
    var ids, ids' := RowsOf(tracks', chain), RowsOf(tracks'', chain');
    forall i | 0 <= i < |rows| && i !in ids'
      ensures RowKept(rows'', rows, i)
    {
      assert RowKept(rows', rows, i) && RowKept(rows'', rows', i);
    }
  }

  /** `m'` holds every entry of `m` unchanged. */
  ghost predicate Extends<K, V>(m': map<K, V>, m: map<K, V>)
  {
    forall k :: k in m ==> k in m' && m'[k] == m[k]
  }

  /** A reservation without a process, thread or CHERI context takes its scope from its parent. */
  predicate HasOwnScope(r: DescriptorTrackReservation)
  {
    r.cheriContext.Some? || r.tid.Some? || r.pid.Some?
  }

  /**
   * What a memoized resolution `t` of reservation `r` may be, given the
   * resolutions `m`: a CHERI context, thread or process reservation is a
   * root, non-counter track of that scope; any other reservation is either a
   * root global track (no parent, an unknown parent, or a parent reached
   * through a cycle) or a track in the scope of its resolved parent.
   */
  ghost predicate Agrees(r: DescriptorTrackReservation, t: ResolvedDescriptorTrack,
                         m: map<uint64, ResolvedDescriptorTrack>)
  {
    if r.cheriContext.Some? then t.CHERIContextTrack? && !t.isCounter && t.isRootInScope
    else if r.tid.Some? then t.ThreadTrack? && !t.isCounter && t.isRootInScope
    else if r.pid.Some? then t.ProcessTrack? && !t.isCounter && t.isRootInScope
    else t == ScopeFromParent(r.isCounter, None)
         || (r.parentUuid != 0 && r.parentUuid in m
             && t == ScopeFromParent(r.isCounter, Some(m[r.parentUuid])))
  }

  lemma AgreesGrows(r: DescriptorTrackReservation, t: ResolvedDescriptorTrack,
                    m: map<uint64, ResolvedDescriptorTrack>, m': map<uint64, ResolvedDescriptorTrack>)
    requires Agrees(r, t, m) && Extends(m', m)
    ensures Agrees(r, t, m')
  {
  }

  /**
   * Scopes only come from process, thread and CHERI context reservations:
   * while there is none, every resolved track is global.
   */
  ghost predicate GlobalWithoutScopedReservations(reserved: map<uint64, DescriptorTrackReservation>,
                                                  resolved: map<uint64, ResolvedDescriptorTrack>)
  {
    NoScopedReservations(reserved) ==> forall u :: u in resolved ==> resolved[u].GlobalTrack?
  }

  /** No reservation is for a process, thread or CHERI context. */
  ghost predicate NoScopedReservations(reserved: map<uint64, DescriptorTrackReservation>)
  {
    forall u :: u in reserved ==> !HasOwnScope(reserved[u])
  }

  ghost predicate ReservationsAgree(reserved: map<uint64, DescriptorTrackReservation>,
                                   resolved: map<uint64, ResolvedDescriptorTrack>)
  {
    (forall u :: u in reserved ==> WellFormed(reserved[u]))
    && (forall u :: u in resolved ==> u in reserved && Agrees(reserved[u], resolved[u], resolved))
    && GlobalWithoutScopedReservations(reserved, resolved)
  }

  /**
   * Updating reservations without touching what defines their tracks (a
   * new name or timestamp, a counter's running total) keeps every memoized
   * resolution valid.
   */
  lemma IdentityPreservingUpdate(reserved: map<uint64, DescriptorTrackReservation>,
                                 reserved': map<uint64, DescriptorTrackReservation>,
                                 resolved: map<uint64, ResolvedDescriptorTrack>)
    requires ReservationsAgree(reserved, resolved)
    requires reserved.Keys <= reserved'.Keys
    requires forall u :: u in reserved ==> SameIdentity(reserved'[u], reserved[u])
    requires forall u :: u in reserved' && u !in reserved ==> WellFormed(reserved'[u])
    ensures ReservationsAgree(reserved', resolved)
  {
    forall u | u in resolved
      ensures Agrees(reserved'[u], resolved[u], resolved)
    {
      assert SameIdentity(reserved'[u], reserved[u]);
    }
    if NoScopedReservations(reserved') {
      forall u | u in reserved
        ensures !HasOwnScope(reserved[u])
      {
        assert SameIdentity(reserved'[u], reserved[u]);
        assert !HasOwnScope(reserved'[u]);
      }
    }
  }

  /** Memoizing a resolution its reservation allows keeps the memo valid. */
  lemma InsertResolution(reserved: map<uint64, DescriptorTrackReservation>,
                         resolved: map<uint64, ResolvedDescriptorTrack>, uuid: uint64, t: ResolvedDescriptorTrack)
    requires ReservationsAgree(reserved, resolved) && uuid in reserved && uuid !in resolved
    requires Agrees(reserved[uuid], t, resolved)
    requires NoScopedReservations(reserved) ==> t.GlobalTrack?
    ensures ReservationsAgree(reserved, resolved[uuid := t])
  {
    forall u | u in resolved[uuid := t]
      ensures Agrees(reserved[u], resolved[uuid := t][u], resolved[uuid := t])
    {
      AgreesGrows(reserved[u], resolved[uuid := t][u], resolved, resolved[uuid := t]);
    }
  }

  predicate IsPrimaryThreadTrack(t: ResolvedDescriptorTrack)
  {
    t.ThreadTrack? && !t.isCounter && t.isRootInScope
  }

  predicate IsPrimaryProcessTrack(t: ResolvedDescriptorTrack)
  {
    t.ProcessTrack? && !t.isCounter && t.isRootInScope
  }

  predicate IsPrimaryCHERITrack(t: ResolvedDescriptorTrack)
  {
    t.CHERIContextTrack? && !t.isCounter && t.isRootInScope
  }

  /** The tracks that share one interned row per identity. */
  predicate IsPrimaryTrack(t: ResolvedDescriptorTrack)
  {
    IsPrimaryThreadTrack(t) || IsPrimaryProcessTrack(t) || IsPrimaryCHERITrack(t)
  }

  function CHERIIdentityOf(t: ResolvedDescriptorTrack): (id: CHERIIdentity)
    requires t.CHERIContextTrack?
    ensures CHERIContextTrack(id.upid, id.utid, id.ucid, t.isCounter, t.isRootInScope) == t
  {
    CHERIIdentity(t.upid, t.utid, t.ucid)
  }

  /** Row `id` is the row interned for `track` in the identity maps when `track` is a primary track. */
  predicate IsInternedRow(threadTracks: map<UniqueTid, TrackId>, processTracks: map<UniquePid, TrackId>,
                          cheriTracks: map<CHERIIdentity, TrackId>, track: ResolvedDescriptorTrack, id: TrackId)
  {
    (IsPrimaryThreadTrack(track) ==> track.utid in threadTracks && threadTracks[track.utid] == id)
    && (IsPrimaryProcessTrack(track) ==> track.upid in processTracks && processTracks[track.upid] == id)
    && (IsPrimaryCHERITrack(track) ==>
          CHERIIdentityOf(track) in cheriTracks && cheriTracks[CHERIIdentityOf(track)] == id)
  }

  /** Every row of `before` keeps what it describes in `after`; rows are only added or renamed and re-parented. */
  ghost predicate RowsKept(after: seq<TrackRow>, before: seq<TrackRow>)
  {
    |before| <= |after| && forall i :: 0 <= i < |before| ==> after[i].track == before[i].track
  }

  /** Whether `track` is a primary track whose identity already has a row in the identity maps. */
  predicate HasInternedRow(threadTracks: map<UniqueTid, TrackId>, processTracks: map<UniquePid, TrackId>,
                           cheriTracks: map<CHERIIdentity, TrackId>, track: ResolvedDescriptorTrack)
  {
    (IsPrimaryThreadTrack(track) && track.utid in threadTracks)
    || (IsPrimaryProcessTrack(track) && track.upid in processTracks)
    || (IsPrimaryCHERITrack(track) && CHERIIdentityOf(track) in cheriTracks)
  }

  /**
   * Resolving the parent of `uuid` resolves nothing new: it has no parent,
   * its parent is on `path`, unknown, or already resolved.
   */
  ghost predicate ParentSettled(reserved: map<uint64, DescriptorTrackReservation>,
                                resolved: map<uint64, ResolvedDescriptorTrack>, uuid: uint64, path: seq<uint64>)
  {
    uuid in reserved ==>
      var p := reserved[uuid].parentUuid;
      p == 0 || p in path || p == uuid || p !in reserved || p in resolved
  }

  /**
   * The reuse maps against the resolutions `m`: the uuid recorded for an
   * identity owns that identity's primary track, and every primary thread or
   * process track has its identity recorded.
   */
  ghost predicate PrimaryOwners(byUtid: map<UniqueTid, uint64>, byUpid: map<UniquePid, uint64>,
                                m: map<uint64, ResolvedDescriptorTrack>)
  {
    (forall utid :: utid in byUtid ==> byUtid[utid] in m && m[byUtid[utid]] == ThreadTrack(utid, false, true))
    && (forall upid :: upid in byUpid ==> byUpid[upid] in m && m[byUpid[upid]] == ProcessTrack(upid, false, true))
    && (forall u {:trigger m[u].utid} :: u in m && IsPrimaryThreadTrack(m[u]) ==> m[u].utid in byUtid)
    && (forall u {:trigger m[u].upid} :: u in m && IsPrimaryProcessTrack(m[u]) ==> m[u].upid in byUpid)
  }

  /** Resolving `uuid` to primary track `t` and recording `uuid` as the owner of its identity keeps the owners right. */
  lemma RecordOwner(byUtid: map<UniqueTid, uint64>, byUpid: map<UniquePid, uint64>,
                    m: map<uint64, ResolvedDescriptorTrack>, uuid: uint64, t: ResolvedDescriptorTrack)
    requires PrimaryOwners(byUtid, byUpid, m) && uuid !in m
    ensures IsPrimaryThreadTrack(t) ==> PrimaryOwners(byUtid[t.utid := uuid], byUpid, m[uuid := t])
    ensures IsPrimaryProcessTrack(t) ==> PrimaryOwners(byUtid, byUpid[t.upid := uuid], m[uuid := t])
    ensures !IsPrimaryThreadTrack(t) && !IsPrimaryProcessTrack(t) ==> PrimaryOwners(byUtid, byUpid, m[uuid := t])
  {
  }

  /** A track that takes its scope from its parent is never a primary track. */
  lemma UnscopedTrackIsNotPrimary(r: DescriptorTrackReservation, t: ResolvedDescriptorTrack,
                                  m: map<uint64, ResolvedDescriptorTrack>)
    requires Agrees(r, t, m) && !HasOwnScope(r)
    ensures !IsPrimaryTrack(t)
  {
  }

  /**
   * The utid of the thread reserved for `uuid`: the process tracker's
   * thread for the pid and tid, unless a primary thread track of another
   * uuid already owns it, in which case the tid was reused and a new thread
   * is started.
   */
  function ThreadIdentity(resolver: IdentityResolver, byUtid: map<UniqueTid, uint64>,
                          pid: uint32, tid: uint32, uuid: uint64): (utid: UniqueTid)
    ensures resolver.updateThread(pid, tid) !in byUtid ==> utid == resolver.updateThread(pid, tid)
    ensures resolver.updateThread(pid, tid) in byUtid ==> utid == resolver.startNewThread(pid, tid, uuid)
  {
    var utid := resolver.updateThread(pid, tid);
    if utid in byUtid then resolver.startNewThread(pid, tid, uuid) else utid
  }

  /** The upid of the process reserved for `uuid`, with the same reuse rule as `ThreadIdentity`. */
  function ProcessIdentity(resolver: IdentityResolver, byUpid: map<UniquePid, uint64>,
                           pid: uint32, timestamp: int64, uuid: uint64): (upid: UniquePid)
    ensures resolver.getOrCreateProcess(pid) !in byUpid ==> upid == resolver.getOrCreateProcess(pid)
    ensures resolver.getOrCreateProcess(pid) in byUpid ==> upid == resolver.startNewProcess(pid, timestamp, uuid)
  {
    var upid := resolver.getOrCreateProcess(pid);
    if upid in byUpid then resolver.startNewProcess(pid, timestamp, uuid) else upid
  }

  /**
   * What a CHERI context, thread or process reservation of `uuid` may
   * resolve to, whatever the reuse maps held: the primary track of the
   * process tracker's identity or, for a reused pid or tid, of the new one.
   */
  predicate IdentityAsReserved(resolver: IdentityResolver, uuid: uint64, r: DescriptorTrackReservation,
                               t: ResolvedDescriptorTrack)
  {
    if r.cheriContext.Some? then
      var id := resolver.cheriContext(r.cheriContext.value, r.minTimestamp);
      t == CHERIContextTrack(id.upid, id.utid, id.ucid, false, true)
    else if r.tid.Some? then
      r.pid.Some? && IsPrimaryThreadTrack(t)
      && (t.utid == resolver.updateThread(r.pid.value, r.tid.value)
          || t.utid == resolver.startNewThread(r.pid.value, r.tid.value, uuid))
    else if r.pid.Some? then
      IsPrimaryProcessTrack(t)
      && (t.upid == resolver.getOrCreateProcess(r.pid.value)
          || t.upid == resolver.startNewProcess(r.pid.value, r.minTimestamp, uuid))
    else false
  }

  /**
   * The resolution of a CHERI context, thread or process reservation of
   * `uuid`, given the uuids that already own a utid or upid: a CHERI context
   * takes precedence over a thread, and a thread over a process.
   */
  function OwnScopeResolution(resolver: IdentityResolver, uuid: uint64, r: DescriptorTrackReservation,
                              byUtid: map<UniqueTid, uint64>, byUpid: map<UniquePid, uint64>)
    : (t: ResolvedDescriptorTrack)
    requires HasOwnScope(r) && WellFormed(r)
    ensures IdentityAsReserved(resolver, uuid, r, t) && IsPrimaryTrack(t)
    ensures r.cheriContext.None? && r.tid.Some? ==>
              t.ThreadTrack? && t.utid == ThreadIdentity(resolver, byUtid, r.pid.value, r.tid.value, uuid)
    ensures r.cheriContext.None? && r.tid.None? ==>
              t.ProcessTrack? && t.upid == ProcessIdentity(resolver, byUpid, r.pid.value, r.minTimestamp, uuid)
  {
    if r.cheriContext.Some? then
      var id := resolver.cheriContext(r.cheriContext.value, r.minTimestamp);
      CHERIContextTrack(id.upid, id.utid, id.ucid, false, true)
    else if r.tid.Some? then
      ThreadTrack(ThreadIdentity(resolver, byUtid, r.pid.value, r.tid.value, uuid), false, true)
    else
      ProcessTrack(ProcessIdentity(resolver, byUpid, r.pid.value, r.minTimestamp, uuid), false, true)
  }

  /**
   * What the first resolution of `uuid` gave, with `path` the uuids whose
   * resolution was in progress, `byUtid` and `byUpid` the reuse maps before
   * it, and `settled` whether its parent needed no resolution of its own: a
   * CHERI context, thread or process reservation gets its primary track (the
   * one `OwnScopeResolution` computes from the earlier reuse maps when
   * nothing else was resolved first); any other reservation gets the scope
   * of its usable parent or, without one, becomes a root global track.
   */
  ghost predicate FreshResolution(resolver: IdentityResolver, reserved: map<uint64, DescriptorTrackReservation>,
                                  resolved: map<uint64, ResolvedDescriptorTrack>, uuid: uint64, path: seq<uint64>,
                                  byUtid: map<UniqueTid, uint64>, byUpid: map<UniquePid, uint64>, settled: bool)
  {
    uuid in reserved && uuid in resolved && WellFormed(reserved[uuid]) &&
    var r := reserved[uuid];
    var t := resolved[uuid];
    var p := r.parentUuid;
    (HasOwnScope(r) ==> IdentityAsReserved(resolver, uuid, r, t))
    && (HasOwnScope(r) && settled ==> t == OwnScopeResolution(resolver, uuid, r, byUtid, byUpid))
    && (!HasOwnScope(r) ==>
          if p != 0 && p !in path && p != uuid && p in reserved
          then p in resolved && t == ScopeFromParent(r.isCounter, Some(resolved[p]))
          else t == GlobalTrack(r.isCounter, true))
  }

  lemma FreshResolutionGrows(resolver: IdentityResolver, reserved: map<uint64, DescriptorTrackReservation>,
                             resolved: map<uint64, ResolvedDescriptorTrack>,
                             resolved': map<uint64, ResolvedDescriptorTrack>, uuid: uint64, path: seq<uint64>,
                             byUtid: map<UniqueTid, uint64>, byUpid: map<UniquePid, uint64>, settled: bool)
    requires FreshResolution(resolver, reserved, resolved, uuid, path, byUtid, byUpid, settled)
    requires Extends(resolved', resolved)
    ensures FreshResolution(resolver, reserved, resolved', uuid, path, byUtid, byUpid, settled)
  {
  }

  class TrackEventTracker {
    const resolver: IdentityResolver
    const defaultDescriptorTrackName: StringId

    var threadTracks: map<UniqueTid, TrackId>
    var processTracks: map<UniquePid, TrackId>
    /** The interned CHERI context tracks (`InternCHERIContextTrack()`), one row per identity. */
    var cheriTracks: map<CHERIIdentity, TrackId>
    var reservedDescriptorTracks: map<uint64, DescriptorTrackReservation>
    var resolvedDescriptorTracks: map<uint64, ResolvedDescriptorTrack>
    var descriptorTracks: map<uint64, TrackId>
    var descriptorUuidsByUpid: map<UniquePid, uint64>
    var descriptorUuidsByUtid: map<UniqueTid, uint64>
    var trackTable: seq<TrackRow>

    /** Every reservation is well formed and every memoized resolution is one its reservation allows. */
    ghost predicate ResolutionsAgree()
      reads this`reservedDescriptorTracks, this`resolvedDescriptorTracks
    {
      ReservationsAgree(reservedDescriptorTracks, resolvedDescriptorTracks)
    }

    /**
     * Every created track has a row describing its resolution, a primary
     * track's row is the one interned for its identity, and the interned
     * rows describe those tracks.
     */
    ghost predicate RowsDescribeTracks()
      reads this`descriptorTracks, this`resolvedDescriptorTracks, this`trackTable,
            this`threadTracks, this`processTracks, this`cheriTracks
    {
      (forall u :: u in descriptorTracks ==>
         descriptorTracks[u] < |trackTable| && u in resolvedDescriptorTracks &&
         trackTable[descriptorTracks[u]].track == resolvedDescriptorTracks[u] &&
         IsInternedRow(threadTracks, processTracks, cheriTracks, resolvedDescriptorTracks[u], descriptorTracks[u]))
      && (forall utid :: utid in threadTracks ==>
            threadTracks[utid] < |trackTable| &&
            trackTable[threadTracks[utid]].track == ThreadTrack(utid, false, true))
      && (forall upid :: upid in processTracks ==>
            processTracks[upid] < |trackTable| &&
            trackTable[processTracks[upid]].track == ProcessTrack(upid, false, true))
      && (forall id :: id in cheriTracks ==>
            cheriTracks[id] < |trackTable| &&
            trackTable[cheriTracks[id]].track == CHERIContextTrack(id.upid, id.utid, id.ucid, false, true))
    }

    ghost predicate Core()
      reads this
    {
      ResolutionsAgree() && RowsDescribeTracks()
    }

    /** The resolutions agree with the reservations, and the reuse maps with the resolutions. */
    ghost predicate ResolutionsOwned()
      reads this`reservedDescriptorTracks, this`resolvedDescriptorTracks,
            this`descriptorUuidsByUtid, this`descriptorUuidsByUpid
    {
      ResolutionsAgree() && PrimaryOwners(descriptorUuidsByUtid, descriptorUuidsByUpid, resolvedDescriptorTracks)
    }

    ghost predicate Valid()
      reads this
    {
      ResolutionsOwned() && RowsDescribeTracks()
    }

    constructor (resolver: IdentityResolver, defaultDescriptorTrackName: StringId)
      ensures Valid()
      ensures this.resolver == resolver && this.defaultDescriptorTrackName == defaultDescriptorTrackName
      ensures reservedDescriptorTracks == map[] && resolvedDescriptorTracks == map[]
      ensures descriptorTracks == map[] && threadTracks == map[] && processTracks == map[] && cheriTracks == map[]
      ensures descriptorUuidsByUpid == map[] && descriptorUuidsByUtid == map[] && trackTable == []
    {
      this.resolver := resolver;
      this.defaultDescriptorTrackName := defaultDescriptorTrackName;
      threadTracks, processTracks, cheriTracks := map[], map[], map[];
      reservedDescriptorTracks, resolvedDescriptorTracks, descriptorTracks := map[], map[], map[];
      descriptorUuidsByUpid, descriptorUuidsByUtid := map[], map[];
      trackTable := [];
    }

    // Reservations.

    /** Insert `reservation` for an unreserved `uuid`, or check it against the existing one. */
    method Reserve(uuid: uint64, reservation: DescriptorTrackReservation, policy: UpdatePolicy)
      requires ResolutionsAgree() && WellFormed(reservation)
      modifies this`reservedDescriptorTracks
      ensures ResolutionsAgree()
      ensures reservedDescriptorTracks == Upsert(old(reservedDescriptorTracks), uuid, reservation, policy)
    {
      ghost var before := reservedDescriptorTracks;
      reservedDescriptorTracks := Upsert(reservedDescriptorTracks, uuid, reservation, policy);
      IdentityPreservingUpdate(before, reservedDescriptorTracks, resolvedDescriptorTracks);
    }

    method ReserveDescriptorProcessTrack(uuid: uint64, name: StringId, pid: uint32, timestamp: int64)
      requires Valid()
      modifies this`reservedDescriptorTracks
      ensures Valid()
      ensures reservedDescriptorTracks == Upsert(old(reservedDescriptorTracks), uuid,
                ProcessReservation(name, pid, timestamp), KeepEarliestTimestamp)
    {
      Reserve(uuid, ProcessReservation(name, pid, timestamp), KeepEarliestTimestamp);
    }

    method ReserveDescriptorThreadTrack(uuid: uint64, parentUuid: uint64, name: StringId,
                                        pid: uint32, tid: uint32, timestamp: int64)
      requires Valid()
      modifies this`reservedDescriptorTracks
      ensures Valid()
      ensures reservedDescriptorTracks == Upsert(old(reservedDescriptorTracks), uuid,
                ThreadReservation(parentUuid, name, pid, tid, timestamp), KeepEarliestTimestamp)
    {
      Reserve(uuid, ThreadReservation(parentUuid, name, pid, tid, timestamp), KeepEarliestTimestamp);
    }

    method ReserveDescriptorCHERIContextTrack(uuid: uint64, parentUuid: uint64, name: StringId,
                                              ccid: CHERIContextId, timestamp: int64)
      requires Valid()
      modifies this`reservedDescriptorTracks
      ensures Valid()
      ensures reservedDescriptorTracks == Upsert(old(reservedDescriptorTracks), uuid,
                CHERIContextReservation(parentUuid, name, ccid, timestamp), KeepEarliestTimestamp)
    {
      Reserve(uuid, CHERIContextReservation(parentUuid, name, ccid, timestamp), KeepEarliestTimestamp);
    }

    method ReserveDescriptorChildTrack(uuid: uint64, parentUuid: uint64, name: StringId)
      requires Valid()
      modifies this`reservedDescriptorTracks
      ensures Valid()
      ensures reservedDescriptorTracks == Upsert(old(reservedDescriptorTracks), uuid,
                ChildReservation(parentUuid, name), TakeNewName)
    {
      Reserve(uuid, ChildReservation(parentUuid, name), TakeNewName);
    }

    method ReserveDescriptorCounterTrack(uuid: uint64, parentUuid: uint64, name: StringId,
                                         category: StringId, unitMultiplier: int64,
                                         isIncremental: bool, packetSequenceId: uint32)
      requires Valid()
      modifies this`reservedDescriptorTracks
      ensures Valid()
      ensures reservedDescriptorTracks == Upsert(old(reservedDescriptorTracks), uuid,
                CounterReservation(parentUuid, name, category, unitMultiplier, isIncremental,
                                   packetSequenceId), TakeNewName)
    {
      Reserve(uuid, CounterReservation(parentUuid, name, category, unitMultiplier, isIncremental,
                                       packetSequenceId), TakeNewName);
    }

    // Resolution.

    /**
     * The resolution of `uuid` once its parent (if any is usable) has been
     * resolved to `parent`; a thread or process reservation records `uuid` as
     * the owner of its utid or upid.
     */
    method ResolveScope(uuid: uint64, reservation: DescriptorTrackReservation,
                        parent: Option<ResolvedDescriptorTrack>)
      returns (t: ResolvedDescriptorTrack)
      requires Valid() && uuid in reservedDescriptorTracks && reservation == reservedDescriptorTracks[uuid]
      requires uuid !in resolvedDescriptorTracks
      modifies this`descriptorUuidsByUpid, this`descriptorUuidsByUtid
      ensures Core() && PrimaryOwners(descriptorUuidsByUtid, descriptorUuidsByUpid, resolvedDescriptorTracks[uuid := t])
      ensures HasOwnScope(reservation) ==> Agrees(reservation, t, resolvedDescriptorTracks)
      ensures NoScopedReservations(reservedDescriptorTracks) && (parent.Some? ==> parent.value.GlobalTrack?) ==>
                t.GlobalTrack?
      ensures HasOwnScope(reservation) ==>
                t == OwnScopeResolution(resolver, uuid, reservation, old(descriptorUuidsByUtid),
                                        old(descriptorUuidsByUpid))
      ensures reservation.cheriContext.None? && reservation.tid.Some? ==>
                descriptorUuidsByUtid == old(descriptorUuidsByUtid)[t.utid := uuid]
                && descriptorUuidsByUpid == old(descriptorUuidsByUpid)
      ensures reservation.cheriContext.None? && reservation.tid.None? && reservation.pid.Some? ==>
                descriptorUuidsByUpid == old(descriptorUuidsByUpid)[t.upid := uuid]
                && descriptorUuidsByUtid == old(descriptorUuidsByUtid)
      ensures reservation.cheriContext.Some? || !HasOwnScope(reservation) ==>
                descriptorUuidsByUtid == old(descriptorUuidsByUtid)
                && descriptorUuidsByUpid == old(descriptorUuidsByUpid)
      ensures !HasOwnScope(reservation) ==> t == ScopeFromParent(reservation.isCounter, parent)
    {
      RecordOwner(descriptorUuidsByUtid, descriptorUuidsByUpid, resolvedDescriptorTracks, uuid,
                  ScopeFromParent(reservation.isCounter, parent));
      if !HasOwnScope(reservation) {
        return ScopeFromParent(reservation.isCounter, parent);
      }
      t := OwnScopeResolution(resolver, uuid, reservation, descriptorUuidsByUtid, descriptorUuidsByUpid);
      RecordOwner(descriptorUuidsByUtid, descriptorUuidsByUpid, resolvedDescriptorTracks, uuid, t);
      if reservation.cheriContext.None? {
        if reservation.tid.Some? {
          descriptorUuidsByUtid := descriptorUuidsByUtid[t.utid := uuid];
        } else {
          descriptorUuidsByUpid := descriptorUuidsByUpid[t.upid := uuid];
        }
      }
    }

    /** The parent's memoized resolution, when the parent has one. */
    ghost function ResolvedParent(reservation: DescriptorTrackReservation): (parent: Option<ResolvedDescriptorTrack>)
      reads this
      ensures parent.Some? <==> reservation.parentUuid != 0 && reservation.parentUuid in resolvedDescriptorTracks
      ensures parent.Some? ==> parent.value == resolvedDescriptorTracks[reservation.parentUuid]
    {
      if reservation.parentUuid != 0 && reservation.parentUuid in resolvedDescriptorTracks
      then Some(resolvedDescriptorTracks[reservation.parentUuid])
      else None
    }

    /**
     * The memoized resolution of `uuid`, or None when it was never reserved.
     * `descendentUuids` holds the uuids whose resolution is in progress
     * below this one; none of them is resolved by this call.
     */
    method ResolveDescriptorTrack(uuid: uint64, descendentUuids: seq<uint64>)
      returns (res: Option<ResolvedDescriptorTrack>)
      requires Valid() && uuid !in descendentUuids
      requires forall d :: d in descendentUuids ==> d !in resolvedDescriptorTracks
      modifies this`resolvedDescriptorTracks, this`descriptorUuidsByUpid, this`descriptorUuidsByUtid
      ensures Valid()
      ensures Extends(resolvedDescriptorTracks, old(resolvedDescriptorTracks))
      ensures forall d :: d in descendentUuids ==> d !in resolvedDescriptorTracks
      ensures KeysWithin(resolvedDescriptorTracks, old(resolvedDescriptorTracks),
                         Chain(reservedDescriptorTracks, uuid, PathSet(descendentUuids)))
      ensures res.None? <==> uuid !in reservedDescriptorTracks
      ensures res.Some? ==> uuid in resolvedDescriptorTracks && resolvedDescriptorTracks[uuid] == res.value
      ensures res.Some? && NoScopedReservations(reservedDescriptorTracks) ==> res.value.GlobalTrack?
      ensures res.None? || uuid in old(resolvedDescriptorTracks) ==>
                resolvedDescriptorTracks == old(resolvedDescriptorTracks)
                && descriptorUuidsByUtid == old(descriptorUuidsByUtid)
                && descriptorUuidsByUpid == old(descriptorUuidsByUpid)
      ensures res.Some? && uuid !in old(resolvedDescriptorTracks) ==>
                FreshResolution(resolver, reservedDescriptorTracks, resolvedDescriptorTracks, uuid, descendentUuids,
                                old(descriptorUuidsByUtid), old(descriptorUuidsByUpid),
                                ParentSettled(old(reservedDescriptorTracks), old(resolvedDescriptorTracks), uuid, descendentUuids))
      decreases |reservedDescriptorTracks.Keys - PathSet(descendentUuids)|, 2
    {
      if uuid in resolvedDescriptorTracks {
        return Some(resolvedDescriptorTracks[uuid]);
      }
      if uuid !in reservedDescriptorTracks {
        return None;
      }
      var t := ResolveDescriptorTrackImpl(uuid, reservedDescriptorTracks[uuid], descendentUuids);
      ghost var resolved := resolvedDescriptorTracks;
      Memoize(uuid, t);
      KeysWithinAdd(old(resolvedDescriptorTracks), resolved, Chain(reservedDescriptorTracks, uuid, PathSet(descendentUuids)),
                    uuid, t);
      return Some(t);
    }

    /** Record the resolution `t` of `uuid`, which its reservation allows. */
    method Memoize(uuid: uint64, t: ResolvedDescriptorTrack)
      requires Core() && uuid in reservedDescriptorTracks && uuid !in resolvedDescriptorTracks
      requires PrimaryOwners(descriptorUuidsByUtid, descriptorUuidsByUpid, resolvedDescriptorTracks[uuid := t])
      requires Agrees(reservedDescriptorTracks[uuid], t, resolvedDescriptorTracks)
      requires NoScopedReservations(reservedDescriptorTracks) ==> t.GlobalTrack?
      modifies this`resolvedDescriptorTracks
      ensures Valid()
      ensures resolvedDescriptorTracks == old(resolvedDescriptorTracks)[uuid := t]
    {
      InsertResolution(reservedDescriptorTracks, resolvedDescriptorTracks, uuid, t);
      resolvedDescriptorTracks := resolvedDescriptorTracks[uuid := t];
    }

    /**
     * Resolves the parent chain first, unless the parent is 0 or already on
     * the path (a cycle), then derives the scope of `uuid` itself.
     */
    method ResolveDescriptorTrackImpl(uuid: uint64, reservation: DescriptorTrackReservation,
                                      descendentUuids: seq<uint64>)
      returns (t: ResolvedDescriptorTrack)
      requires Valid() && uuid in reservedDescriptorTracks && reservation == reservedDescriptorTracks[uuid]
      requires uuid !in resolvedDescriptorTracks && uuid !in descendentUuids
      requires forall d :: d in descendentUuids ==> d !in resolvedDescriptorTracks
      modifies this`resolvedDescriptorTracks, this`descriptorUuidsByUpid, this`descriptorUuidsByUtid
      ensures Core() && PrimaryOwners(descriptorUuidsByUtid, descriptorUuidsByUpid, resolvedDescriptorTracks[uuid := t])
      ensures Extends(resolvedDescriptorTracks, old(resolvedDescriptorTracks))
      ensures uuid !in resolvedDescriptorTracks
      ensures forall d :: d in descendentUuids ==> d !in resolvedDescriptorTracks
      ensures KeysWithin(resolvedDescriptorTracks, old(resolvedDescriptorTracks),
                         Chain(reservedDescriptorTracks, uuid, PathSet(descendentUuids)))
      ensures Agrees(reservation, t, resolvedDescriptorTracks)
      ensures NoScopedReservations(reservedDescriptorTracks) ==> t.GlobalTrack?
      ensures reservation.parentUuid != 0 && reservation.parentUuid !in descendentUuids + [uuid]
              && reservation.parentUuid in reservedDescriptorTracks ==>
                reservation.parentUuid in resolvedDescriptorTracks
      ensures !HasOwnScope(reservation) ==> t == ScopeFromParent(reservation.isCounter, ResolvedParent(reservation))
      ensures !HasOwnScope(reservation) && (reservation.parentUuid == 0 || reservation.parentUuid in descendentUuids + [uuid]
              || reservation.parentUuid !in reservedDescriptorTracks) ==>
                t == GlobalTrack(reservation.isCounter, true)
      ensures HasOwnScope(reservation) ==> IdentityAsReserved(resolver, uuid, reservation, t)
      ensures HasOwnScope(reservation) && ParentSettled(old(reservedDescriptorTracks), old(resolvedDescriptorTracks), uuid, descendentUuids) ==>
                t == OwnScopeResolution(resolver, uuid, reservation, old(descriptorUuidsByUtid),
                                        old(descriptorUuidsByUpid))
      decreases |reservedDescriptorTracks.Keys - PathSet(descendentUuids)|, 1
    {
      var parent := ResolveParent(uuid, reservation, descendentUuids);
      t := ResolveScope(uuid, reservation, parent);
    }

    /** The resolution of the parent of `uuid`, when it has a parent that is not on the path. */
    method ResolveParent(uuid: uint64, reservation: DescriptorTrackReservation, descendentUuids: seq<uint64>)
      returns (parent: Option<ResolvedDescriptorTrack>)
      requires Valid() && uuid in reservedDescriptorTracks && reservation == reservedDescriptorTracks[uuid]
      requires uuid !in resolvedDescriptorTracks && uuid !in descendentUuids
      requires forall d :: d in descendentUuids ==> d !in resolvedDescriptorTracks
      modifies this`resolvedDescriptorTracks, this`descriptorUuidsByUpid, this`descriptorUuidsByUtid
      ensures Valid()
      ensures Extends(resolvedDescriptorTracks, old(resolvedDescriptorTracks))
      ensures uuid !in resolvedDescriptorTracks
      ensures forall d :: d in descendentUuids ==> d !in resolvedDescriptorTracks
      ensures parent == ResolvedParent(reservation)
      ensures NoScopedReservations(reservedDescriptorTracks) && parent.Some? ==> parent.value.GlobalTrack?
      ensures reservation.parentUuid != 0 && reservation.parentUuid !in descendentUuids + [uuid]
              && reservation.parentUuid in reservedDescriptorTracks ==>
                reservation.parentUuid in resolvedDescriptorTracks
      ensures reservation.parentUuid == 0 || reservation.parentUuid in descendentUuids + [uuid]
              || reservation.parentUuid !in reservedDescriptorTracks ==>
                parent.None?
      ensures KeysWithin(resolvedDescriptorTracks, old(resolvedDescriptorTracks),
                         Chain(reservedDescriptorTracks, uuid, PathSet(descendentUuids)))
      ensures ParentSettled(old(reservedDescriptorTracks), old(resolvedDescriptorTracks), uuid, descendentUuids) ==>
                resolvedDescriptorTracks == old(resolvedDescriptorTracks)
                && descriptorUuidsByUtid == old(descriptorUuidsByUtid)
                && descriptorUuidsByUpid == old(descriptorUuidsByUpid)
      decreases |reservedDescriptorTracks.Keys - PathSet(descendentUuids)|, 0
    {
      parent := None;
      var p := reservation.parentUuid;
      if p != 0 && p !in descendentUuids + [uuid] {
        PathGrows(reservedDescriptorTracks.Keys, descendentUuids, uuid);
        ghost var settled := p !in reservedDescriptorTracks || p in resolvedDescriptorTracks;
        parent := ResolveDescriptorTrack(p, descendentUuids + [uuid]);
        assert settled ==> resolvedDescriptorTracks == old(resolvedDescriptorTracks);
        if p in reservedDescriptorTracks {
          ChainUnfolds(reservedDescriptorTracks, uuid, PathSet(descendentUuids));
          KeysWithinWider(resolvedDescriptorTracks, old(resolvedDescriptorTracks),
                          Chain(reservedDescriptorTracks, p, PathSet(descendentUuids + [uuid])),
                          Chain(reservedDescriptorTracks, uuid, PathSet(descendentUuids)));
        }
      }
    }

    // Track creation.

    /** Append a new row for `track` to the track table. */
    method InsertRow(track: ResolvedDescriptorTrack) returns (id: TrackId)
      modifies this`trackTable
      ensures id == |old(trackTable)| && trackTable == old(trackTable) + [TrackRow(track, NullStringId, None)]
    {
      id := |trackTable|;
      trackTable := trackTable + [TrackRow(track, NullStringId, None)];
    }

    /**
     * The row for a resolved track: the single row of a primary process,
     * thread or CHERI context track is shared by every uuid resolving to it;
     * every other track, counters included, gets a row of its own.
     */
    method CreateTrackFromResolved(track: ResolvedDescriptorTrack) returns (id: TrackId)
      requires RowsDescribeTracks()
      modifies this`trackTable, this`threadTracks, this`processTracks, this`cheriTracks
      ensures RowsDescribeTracks()
      ensures id < |trackTable| && trackTable[id].track == track
              && IsInternedRow(threadTracks, processTracks, cheriTracks, track, id)
      ensures IsPrimaryThreadTrack(track) && track.utid in old(threadTracks) ==> id == old(threadTracks)[track.utid]
      ensures IsPrimaryProcessTrack(track) && track.upid in old(processTracks) ==> id == old(processTracks)[track.upid]
      ensures IsPrimaryCHERITrack(track) && CHERIIdentityOf(track) in old(cheriTracks) ==>
                id == old(cheriTracks)[CHERIIdentityOf(track)]
      ensures var interned := HasInternedRow(old(threadTracks), old(processTracks), old(cheriTracks), track);
              (interned ==> trackTable == old(trackTable))
              && (!interned ==> id == |old(trackTable)| && trackTable == old(trackTable) + [TrackRow(track, NullStringId, None)])
      ensures threadTracks == if IsPrimaryThreadTrack(track) then old(threadTracks)[track.utid := id]
                              else old(threadTracks)
      ensures processTracks == if IsPrimaryProcessTrack(track) then old(processTracks)[track.upid := id]
                               else old(processTracks)
      ensures cheriTracks == if IsPrimaryCHERITrack(track) then old(cheriTracks)[CHERIIdentityOf(track) := id]
                             else old(cheriTracks)
    {
      if IsPrimaryThreadTrack(track) {
        if track.utid in threadTracks {
          return threadTracks[track.utid];
        }
        id := InsertRow(track);
        threadTracks := threadTracks[track.utid := id];
        return id;
      }
      if IsPrimaryProcessTrack(track) {
        if track.upid in processTracks {
          return processTracks[track.upid];
        }
        id := InsertRow(track);
        processTracks := processTracks[track.upid := id];
        return id;
      }
      if IsPrimaryCHERITrack(track) {
        var key := CHERIIdentityOf(track);
        if key in cheriTracks {
          return cheriTracks[key];
        }
        id := InsertRow(track);
        cheriTracks := cheriTracks[key := id];
        return id;
      }
      id := InsertRow(track);
    }

    /**
     * Create the row for the freshly resolved `uuid`, record it, and set the
     * row's parent and, when the reservation has one, its name.
     */
    method MaterializeTrack(uuid: uint64, track: ResolvedDescriptorTrack, parentId: Option<TrackId>,
                            name: StringId) returns (id: TrackId)
      requires RowsDescribeTracks() && uuid in resolvedDescriptorTracks && resolvedDescriptorTracks[uuid] == track
      requires uuid !in descriptorTracks
      modifies this`descriptorTracks, this`trackTable, this`threadTracks, this`processTracks, this`cheriTracks
      ensures RowsDescribeTracks()
      ensures descriptorTracks == old(descriptorTracks)[uuid := id]
      ensures RowsKept(trackTable, old(trackTable))
      ensures id < |trackTable|
      ensures name != NullStringId ==> trackTable[id].name == name
      ensures parentId.Some? ==> trackTable[id].parentId == parentId
      ensures !IsPrimaryTrack(track) ==>
                |old(trackTable)| <= id && trackTable[id].name == name
      ensures |trackTable| <= |old(trackTable)| + 1 && RowsUnchangedExcept(trackTable, old(trackTable), {id})
    {
      id := CreateTrackFromResolved(track);
      descriptorTracks := descriptorTracks[uuid := id];
      var row := trackTable[id];
      UpdateRow(id, row.(parentId := if parentId.Some? then parentId else row.parentId,
                         name := if name != NullStringId then name else row.name));
    }

    /** Replace the name or parent of row `id`; what the row describes stays. */
    method UpdateRow(id: TrackId, row: TrackRow)
      requires RowsDescribeTracks() && id < |trackTable| && row.track == trackTable[id].track
      modifies this`trackTable
      ensures RowsDescribeTracks()
      ensures trackTable == old(trackTable)[id := row]
    {
      trackTable := trackTable[id := row];
    }

    /**
     * The track of `uuid`, creating it (and the tracks of its reserved
     * ancestors that are not on `descendentUuids`) on the first call.
     */
    method GetDescriptorTrackImpl(uuid: uint64, descendentUuids: seq<uint64>) returns (res: Option<TrackId>)
      requires Valid() && uuid !in descendentUuids
      modifies this`resolvedDescriptorTracks, this`descriptorUuidsByUpid, this`descriptorUuidsByUtid,
               this`descriptorTracks, this`trackTable, this`threadTracks, this`processTracks, this`cheriTracks
      ensures Valid()
      ensures res.None? <==> uuid !in reservedDescriptorTracks
      ensures res.Some? ==> uuid in descriptorTracks && descriptorTracks[uuid] == res.value
      ensures Extends(descriptorTracks, old(descriptorTracks))
      ensures Extends(resolvedDescriptorTracks, old(resolvedDescriptorTracks))
      ensures forall u :: u in descriptorTracks && u !in old(descriptorTracks) ==> u !in descendentUuids
      ensures RowsKept(trackTable, old(trackTable))
      ensures res.None? || uuid in old(descriptorTracks) ==> unchanged(this)
      ensures WithinChain(Chain(reservedDescriptorTracks, uuid, {}), old(resolvedDescriptorTracks), resolvedDescriptorTracks,
                          old(descriptorTracks), descriptorTracks, old(trackTable), trackTable)
      ensures res.Some? && uuid !in old(descriptorTracks) ==> CreatedAsReserved(uuid, descendentUuids, res.value)
      ensures res.Some? && uuid !in old(descriptorTracks) && !IsPrimaryTrack(resolvedDescriptorTracks[uuid]) ==>
                |old(trackTable)| <= res.value
      ensures res.Some? && uuid !in old(resolvedDescriptorTracks) ==>
                FreshResolution(resolver, reservedDescriptorTracks, resolvedDescriptorTracks, uuid, [],
                                old(descriptorUuidsByUtid), old(descriptorUuidsByUpid), ParentSettled(old(reservedDescriptorTracks), old(resolvedDescriptorTracks), uuid, []))
      decreases |reservedDescriptorTracks.Keys - PathSet(descendentUuids)|, 3
    {
      if uuid in descriptorTracks {
        CreatedTrack(uuid);
        return Some(descriptorTracks[uuid]);
      }
      res := CreateIfReserved(uuid, descendentUuids);
    }

    /** First lookup of `uuid`: resolve it and, when it is reserved, create its track. */
    method CreateIfReserved(uuid: uint64, descendentUuids: seq<uint64>) returns (res: Option<TrackId>)
      requires Valid() && uuid !in descendentUuids && uuid !in descriptorTracks
      modifies this`resolvedDescriptorTracks, this`descriptorUuidsByUpid, this`descriptorUuidsByUtid,
               this`descriptorTracks, this`trackTable, this`threadTracks, this`processTracks, this`cheriTracks
      ensures Valid()
      ensures res.None? <==> uuid !in reservedDescriptorTracks
      ensures res.None? ==> unchanged(this)
      ensures WithinChain(Chain(reservedDescriptorTracks, uuid, {}), old(resolvedDescriptorTracks), resolvedDescriptorTracks,
                          old(descriptorTracks), descriptorTracks, old(trackTable), trackTable)
      ensures res.Some? ==> uuid in descriptorTracks && descriptorTracks[uuid] == res.value
      ensures Extends(descriptorTracks, old(descriptorTracks))
      ensures Extends(resolvedDescriptorTracks, old(resolvedDescriptorTracks))
      ensures forall u :: u in descriptorTracks && u !in old(descriptorTracks) ==> u !in descendentUuids
      ensures RowsKept(trackTable, old(trackTable))
      ensures res.Some? ==> CreatedAsReserved(uuid, descendentUuids, res.value)
      ensures res.Some? && !IsPrimaryTrack(resolvedDescriptorTracks[uuid]) ==>
                |old(trackTable)| <= res.value
      ensures res.Some? && uuid !in old(resolvedDescriptorTracks) ==>
                FreshResolution(resolver, reservedDescriptorTracks, resolvedDescriptorTracks, uuid, [],
                                old(descriptorUuidsByUtid), old(descriptorUuidsByUpid), ParentSettled(old(reservedDescriptorTracks), old(resolvedDescriptorTracks), uuid, []))
      decreases |reservedDescriptorTracks.Keys - PathSet(descendentUuids)|, 2
    {
      if uuid !in reservedDescriptorTracks {
        return None;
      }
      ghost var before := (resolvedDescriptorTracks, descriptorTracks, trackTable);
      assert PathSet([]) == {};
      var resolvedTrack := ResolveDescriptorTrack(uuid, []);
      ghost var chain := Chain(reservedDescriptorTracks, uuid, {});
      ghost var resolved := resolvedDescriptorTracks;
      var id := CreateDescriptorTrack(uuid, resolvedTrack.value, descendentUuids);
      WithinChainSteps(chain, chain, before.0, resolved, resolvedDescriptorTracks, before.1, before.1, descriptorTracks,
                       before.2, before.2, trackTable);
      return Some(id);
    }

    /**
     * The row of a freshly created track carries the reservation's name, if
     * it has one, and points at the track of its parent when the parent was
     * created along with it.
     */
    ghost predicate CreatedAsReserved(uuid: uint64, descendentUuids: seq<uint64>, id: TrackId)
      reads this`reservedDescriptorTracks, this`resolvedDescriptorTracks, this`trackTable, this`descriptorTracks
    {
      uuid in reservedDescriptorTracks && uuid in resolvedDescriptorTracks && id < |trackTable| &&
      var r := reservedDescriptorTracks[uuid];
      var t := resolvedDescriptorTracks[uuid];
      (r.name != NullStringId ==> trackTable[id].name == r.name)
      && (!IsPrimaryTrack(t) ==> trackTable[id].name == r.name)
      && (r.parentUuid != 0 && r.parentUuid !in descendentUuids + [uuid]
          && r.parentUuid in reservedDescriptorTracks ==>
            r.parentUuid in descriptorTracks
            && trackTable[id].parentId == Some(descriptorTracks[r.parentUuid]))
    }

    /** Create the parent's track first, unless it is on the path, then the track of `uuid`. */
    method CreateDescriptorTrack(uuid: uint64, track: ResolvedDescriptorTrack, descendentUuids: seq<uint64>)
      returns (id: TrackId)
      requires Valid() && uuid !in descendentUuids && uuid !in descriptorTracks
      requires uuid in resolvedDescriptorTracks && resolvedDescriptorTracks[uuid] == track
      modifies this`resolvedDescriptorTracks, this`descriptorUuidsByUpid, this`descriptorUuidsByUtid,
               this`descriptorTracks, this`trackTable, this`threadTracks, this`processTracks, this`cheriTracks
      ensures Valid()
      ensures uuid in descriptorTracks && descriptorTracks[uuid] == id
      ensures Extends(descriptorTracks, old(descriptorTracks))
      ensures Extends(resolvedDescriptorTracks, old(resolvedDescriptorTracks))
      ensures forall u :: u in descriptorTracks && u !in old(descriptorTracks) ==> u !in descendentUuids
      ensures RowsKept(trackTable, old(trackTable))
      ensures CreatedAsReserved(uuid, descendentUuids, id)
      ensures !IsPrimaryTrack(track) ==> |old(trackTable)| <= id
      ensures WithinChain(Chain(reservedDescriptorTracks, uuid, {}), old(resolvedDescriptorTracks), resolvedDescriptorTracks,
                          old(descriptorTracks), descriptorTracks, old(trackTable), trackTable)
      decreases |reservedDescriptorTracks.Keys - PathSet(descendentUuids)|, 1
    {
      var parentId := CreateParentTrack(uuid, descendentUuids);
      id := CreateOwnTrack(uuid, track, parentId, descendentUuids, Chain(reservedDescriptorTracks, uuid, {}),
                           old(resolvedDescriptorTracks), old(descriptorTracks), old(trackTable));
    }

    /**
     * The row of `uuid` itself, once its parent has a track: named as
     * reserved and pointing at the parent's row.
     */
    method CreateOwnTrack(uuid: uint64, track: ResolvedDescriptorTrack, parentId: Option<TrackId>,
                          descendentUuids: seq<uint64>, ghost chain: set<uint64>,
                          ghost resolved0: map<uint64, ResolvedDescriptorTrack>, ghost tracks0: map<uint64, TrackId>,
                          ghost rows0: seq<TrackRow>) returns (id: TrackId)
      requires Valid() && uuid in reservedDescriptorTracks && uuid !in descriptorTracks
      requires uuid in resolvedDescriptorTracks && resolvedDescriptorTracks[uuid] == track
      requires var p := reservedDescriptorTracks[uuid].parentUuid;
               p != 0 && p !in descendentUuids + [uuid] && p in reservedDescriptorTracks ==>
                 p in descriptorTracks && parentId == Some(descriptorTracks[p])
      requires uuid in chain
      requires WithinChain(chain, resolved0, resolvedDescriptorTracks, tracks0, descriptorTracks, rows0, trackTable)
      modifies this`descriptorTracks, this`trackTable, this`threadTracks, this`processTracks, this`cheriTracks
      ensures Valid()
      ensures descriptorTracks == old(descriptorTracks)[uuid := id]
      ensures RowsKept(trackTable, old(trackTable))
      ensures RowsUnchangedExcept(trackTable, old(trackTable), {id})
      ensures CreatedAsReserved(uuid, descendentUuids, id)
      ensures !IsPrimaryTrack(track) ==> |old(trackTable)| <= id
      ensures WithinChain(chain, resolved0, resolvedDescriptorTracks, tracks0, descriptorTracks, rows0, trackTable)
    {
      id := MaterializeTrack(uuid, track, parentId, reservedDescriptorTracks[uuid].name);
      MaterializedWithinChain(chain, uuid, id, resolved0, resolvedDescriptorTracks, tracks0, old(descriptorTracks),
                              descriptorTracks, rows0, old(trackTable), trackTable);
    }

    /**
     * The track of the parent of `uuid`, created if need be, when the
     * reservation names a parent that is not on the path; `None` otherwise.
     */
    method CreateParentTrack(uuid: uint64, descendentUuids: seq<uint64>) returns (parentId: Option<TrackId>)
      requires Valid() && uuid !in descendentUuids && uuid !in descriptorTracks
      requires uuid in resolvedDescriptorTracks
      modifies this`resolvedDescriptorTracks, this`descriptorUuidsByUpid, this`descriptorUuidsByUtid,
               this`descriptorTracks, this`trackTable, this`threadTracks, this`processTracks, this`cheriTracks
      ensures Valid()
      ensures uuid !in descriptorTracks
      ensures Extends(descriptorTracks, old(descriptorTracks))
      ensures Extends(resolvedDescriptorTracks, old(resolvedDescriptorTracks))
      ensures forall u :: u in descriptorTracks && u !in old(descriptorTracks) ==> u !in descendentUuids
      ensures RowsKept(trackTable, old(trackTable))
      ensures var p := reservedDescriptorTracks[uuid].parentUuid;
              (parentId.Some? ==> p in descriptorTracks && descriptorTracks[p] == parentId.value)
              && (p != 0 && p !in descendentUuids + [uuid] && p in reservedDescriptorTracks ==> parentId.Some?)
      ensures WithinChain(Chain(reservedDescriptorTracks, uuid, {}), old(resolvedDescriptorTracks), resolvedDescriptorTracks,
                          old(descriptorTracks), descriptorTracks, old(trackTable), trackTable)
      decreases |reservedDescriptorTracks.Keys - PathSet(descendentUuids)|, 0
    {
      var parentUuid := reservedDescriptorTracks[uuid].parentUuid;
      parentId := None;
      if parentUuid != 0 && parentUuid !in descendentUuids + [uuid] {
        PathGrows(reservedDescriptorTracks.Keys, descendentUuids, uuid);
        parentId := GetDescriptorTrackImpl(parentUuid, descendentUuids + [uuid]);
        if parentUuid in reservedDescriptorTracks {
          ParentChainWithin(reservedDescriptorTracks, uuid);
          WithinChainWider(Chain(reservedDescriptorTracks, parentUuid, {}), Chain(reservedDescriptorTracks, uuid, {}),
                           old(resolvedDescriptorTracks), resolvedDescriptorTracks, old(descriptorTracks),
                           descriptorTracks, old(trackTable), trackTable);
        }
      }
    }

    // The public entry points.

    /**
     * The name a new track without a scope of its own gets: the reserved
     * name, or for an unnamed plain child track the event name.
     */
    function NameOnCreation(r: DescriptorTrackReservation, eventName: StringId): (name: StringId)
      ensures r.name != NullStringId || !IsChildTrack(r) ==> name == r.name
      ensures r.name == NullStringId && IsChildTrack(r) ==> name == eventName
    {
      if r.name == NullStringId && IsChildTrack(r) then eventName else r.name
    }

    /**
     * The track of `uuid`, created with its ancestors on the first call;
     * `None` when nothing was reserved for `uuid`. A plain child track whose
     * row has no name yet takes `eventName`.
     */
    method GetDescriptorTrack(uuid: uint64, eventName: StringId) returns (res: Option<TrackId>)
      requires Valid()
      modifies this`resolvedDescriptorTracks, this`descriptorUuidsByUpid, this`descriptorUuidsByUtid,
               this`descriptorTracks, this`trackTable, this`threadTracks, this`processTracks, this`cheriTracks
      ensures Valid()
      ensures res.None? <==> uuid !in reservedDescriptorTracks
      ensures res.None? ==>
                trackTable == old(trackTable) && descriptorTracks == old(descriptorTracks)
                && resolvedDescriptorTracks == old(resolvedDescriptorTracks)
      ensures res.Some? ==> uuid in descriptorTracks && descriptorTracks[uuid] == res.value
                            && res.value < |trackTable| && uuid in resolvedDescriptorTracks
                            && trackTable[res.value].track == resolvedDescriptorTracks[uuid]
      ensures res.Some? && NoScopedReservations(reservedDescriptorTracks) ==> trackTable[res.value].track.GlobalTrack?
      ensures res.Some? && uuid !in old(descriptorTracks) && !HasOwnScope(reservedDescriptorTracks[uuid]) ==>
                |old(trackTable)| <= res.value
                && trackTable[res.value].name == NameOnCreation(reservedDescriptorTracks[uuid], eventName)
      ensures descriptorTracks.Keys <= reservedDescriptorTracks.Keys
      ensures res.Some? && uuid !in old(descriptorTracks) ==>
                var p := reservedDescriptorTracks[uuid].parentUuid;
                p != 0 && p != uuid && p in reservedDescriptorTracks ==>
                  p in descriptorTracks && trackTable[res.value].parentId == Some(descriptorTracks[p])
      ensures uuid in old(descriptorTracks) ==>
                res == Some(old(descriptorTracks)[uuid]) && descriptorTracks == old(descriptorTracks)
                && resolvedDescriptorTracks == old(resolvedDescriptorTracks)
                && |trackTable| == |old(trackTable)|
                && (forall i :: 0 <= i < |trackTable| && i != res.value ==> trackTable[i] == old(trackTable)[i])
      ensures Extends(descriptorTracks, old(descriptorTracks))
      ensures Extends(resolvedDescriptorTracks, old(resolvedDescriptorTracks))
      ensures RowsKept(trackTable, old(trackTable))
      ensures res.Some? && uuid !in old(descriptorTracks) && reservedDescriptorTracks[uuid].name != NullStringId ==>
                trackTable[res.value].name == reservedDescriptorTracks[uuid].name
      ensures res.Some? && IsChildTrack(reservedDescriptorTracks[uuid]) && eventName != NullStringId ==>
                trackTable[res.value].name != NullStringId
      ensures res.Some? && uuid in old(descriptorTracks) && old(trackTable)[res.value].name != NullStringId ==>
                trackTable[res.value] == old(trackTable)[res.value]
      ensures uuid in old(descriptorTracks) && eventName == NullStringId ==> trackTable == old(trackTable)
      ensures res.Some? && uuid !in old(resolvedDescriptorTracks) ==>
                FreshResolution(resolver, reservedDescriptorTracks, resolvedDescriptorTracks, uuid, [],
                                old(descriptorUuidsByUtid), old(descriptorUuidsByUpid), ParentSettled(old(reservedDescriptorTracks), old(resolvedDescriptorTracks), uuid, []))
      ensures WithinChain(Chain(reservedDescriptorTracks, uuid, {}), old(resolvedDescriptorTracks), resolvedDescriptorTracks,
                          old(descriptorTracks), descriptorTracks, old(trackTable), trackTable)
    {
      res := GetDescriptorTrackImpl(uuid, []);
      if res.Some? {
        CreatedTrack(uuid);
        ghost var rows := trackTable;
        ApplyEventName(res.value, reservedDescriptorTracks[uuid], eventName);
        RowOfChainChanges(Chain(reservedDescriptorTracks, uuid, {}), uuid, old(resolvedDescriptorTracks), resolvedDescriptorTracks,
                          old(descriptorTracks), descriptorTracks, old(trackTable), rows, trackTable);
      }
    }

    /** What the invariant says about the row created for `uuid`. */
    lemma CreatedTrack(uuid: uint64)
      requires Valid() && uuid in descriptorTracks
      ensures uuid in reservedDescriptorTracks && uuid in resolvedDescriptorTracks
      ensures descriptorTracks[uuid] < |trackTable|
      ensures trackTable[descriptorTracks[uuid]].track == resolvedDescriptorTracks[uuid]
      ensures NoScopedReservations(reservedDescriptorTracks) ==> resolvedDescriptorTracks[uuid].GlobalTrack?
      ensures !HasOwnScope(reservedDescriptorTracks[uuid]) ==>
                !IsPrimaryTrack(resolvedDescriptorTracks[uuid])
    {
      if !HasOwnScope(reservedDescriptorTracks[uuid]) {
        UnscopedTrackIsNotPrimary(reservedDescriptorTracks[uuid], resolvedDescriptorTracks[uuid], resolvedDescriptorTracks);
      }
    }

    /** Two uuids that resolved to the same primary track share its one row. */
    lemma PrimaryTracksShareRows(u1: uint64, u2: uint64)
      requires Valid() && u1 in descriptorTracks && u2 in descriptorTracks
      requires resolvedDescriptorTracks[u1] == resolvedDescriptorTracks[u2]
      requires IsPrimaryTrack(resolvedDescriptorTracks[u1])
      ensures descriptorTracks[u1] == descriptorTracks[u2]
    {
      assert IsInternedRow(threadTracks, processTracks, cheriTracks, resolvedDescriptorTracks[u1], descriptorTracks[u1]);
      assert IsInternedRow(threadTracks, processTracks, cheriTracks, resolvedDescriptorTracks[u2], descriptorTracks[u2]);
    }

    /** An unnamed row of a plain child track takes `eventName`; any other row is left as it is. */
    method ApplyEventName(id: TrackId, r: DescriptorTrackReservation, eventName: StringId)
      requires RowsDescribeTracks() && id < |trackTable|
      modifies this`trackTable
      ensures RowsDescribeTracks()
      ensures trackTable == old(trackTable)[id := old(trackTable)[id].(name :=
                if eventName != NullStringId && IsChildTrack(r) && old(trackTable)[id].name == NullStringId
                then eventName else old(trackTable)[id].name)]
      ensures RowsKept(trackTable, old(trackTable)) && |trackTable| == |old(trackTable)|
      ensures forall i :: 0 <= i < |trackTable| && i != id ==> trackTable[i] == old(trackTable)[i]
      ensures trackTable[id].track == old(trackTable)[id].track && trackTable[id].parentId == old(trackTable)[id].parentId
      ensures old(trackTable)[id].name != NullStringId ==> trackTable[id] == old(trackTable)[id]
      ensures eventName == NullStringId ==> trackTable == old(trackTable)
    {
      var row := trackTable[id];
      if eventName != NullStringId && IsChildTrack(r) && row.name == NullStringId {
        UpdateRow(id, row.(name := eventName));
      }
    }

    /**
     * The absolute value of a sample on counter `uuid`: `None` for an unknown
     * uuid, a track that is not a counter, or an incremental counter fed from
     * another packet sequence. An accepted incremental sample moves the
     * counter's running total.
     */
    method ConvertToAbsoluteCounterValue(uuid: uint64, packetSequenceId: uint32, value: real)
      returns (res: Option<real>)
      requires Valid()
      modifies this`reservedDescriptorTracks
      ensures Valid()
      ensures uuid !in old(reservedDescriptorTracks) ==>
                res.None? && reservedDescriptorTracks == old(reservedDescriptorTracks)
      ensures uuid in old(reservedDescriptorTracks) ==>
                var r := old(reservedDescriptorTracks)[uuid];
                res == AbsoluteValue(r, packetSequenceId, value)
                && reservedDescriptorTracks == old(reservedDescriptorTracks)[uuid := AfterSample(r, packetSequenceId, value)]
    {
      if uuid !in reservedDescriptorTracks {
        return None;
      }
      var r := reservedDescriptorTracks[uuid];
      if !r.isCounter {
        return None;
      }
      if r.isIncremental {
        if r.packetSequenceId != packetSequenceId {
          return None;
        }
        var total := r.latestValue + value;
        ghost var before := reservedDescriptorTracks;
        reservedDescriptorTracks := reservedDescriptorTracks[uuid := r.(latestValue := total)];
        IdentityPreservingUpdate(before, reservedDescriptorTracks, resolvedDescriptorTracks);
        return Some(Scaled(r, total));
      }
      return Some(Scaled(r, value));
    }

    /** The track of the implicit default descriptor, reserved as a global child track if need be. */
    method GetOrCreateDefaultDescriptorTrack() returns (id: TrackId)
      requires Valid()
      modifies this`reservedDescriptorTracks, this`resolvedDescriptorTracks, this`descriptorUuidsByUpid,
               this`descriptorUuidsByUtid, this`descriptorTracks, this`trackTable, this`threadTracks,
               this`processTracks, this`cheriTracks
      ensures Valid()
      ensures DefaultDescriptorTrackUuid in descriptorTracks && descriptorTracks[DefaultDescriptorTrackUuid] == id
      ensures id < |trackTable|
      ensures DefaultDescriptorTrackUuid in old(reservedDescriptorTracks) ==>
                reservedDescriptorTracks == old(reservedDescriptorTracks)
      ensures DefaultDescriptorTrackUuid !in old(reservedDescriptorTracks) ==>
                reservedDescriptorTracks == old(reservedDescriptorTracks)[DefaultDescriptorTrackUuid :=
                  ChildReservation(0, defaultDescriptorTrackName)]
      ensures DefaultDescriptorTrackUuid in old(descriptorTracks) ==>
                id == old(descriptorTracks)[DefaultDescriptorTrackUuid] && descriptorTracks == old(descriptorTracks)
                && trackTable == old(trackTable)
      ensures DefaultDescriptorTrackUuid !in old(reservedDescriptorTracks) ==>
                trackTable[id].name == defaultDescriptorTrackName
      ensures Extends(descriptorTracks, old(descriptorTracks))
      ensures RowsKept(trackTable, old(trackTable))
    {
      var res := GetDescriptorTrack(DefaultDescriptorTrackUuid, NullStringId);
      if res.Some? {
        return res.value;
      }
      ReserveDescriptorChildTrack(DefaultDescriptorTrackUuid, 0, defaultDescriptorTrackName);
      res := GetDescriptorTrack(DefaultDescriptorTrackUuid, NullStringId);
      id := res.value;
    }

    /** Reset the running total of every incremental counter fed from `packetSequenceId`. */
    method OnIncrementalStateCleared(packetSequenceId: uint32)
      requires Valid()
      modifies this`reservedDescriptorTracks
      ensures Valid()
      ensures reservedDescriptorTracks.Keys == old(reservedDescriptorTracks).Keys
      ensures forall u :: u in reservedDescriptorTracks ==>
                reservedDescriptorTracks[u] == ClearIncremental(old(reservedDescriptorTracks)[u], packetSequenceId)
    {
      ghost var start := reservedDescriptorTracks;
      var pending := reservedDescriptorTracks.Keys;
      while pending != {}
        invariant pending <= start.Keys && reservedDescriptorTracks.Keys == start.Keys
        invariant forall u :: u in pending ==> reservedDescriptorTracks[u] == start[u]
        invariant forall u :: u in start && u !in pending ==>
                    reservedDescriptorTracks[u] == ClearIncremental(start[u], packetSequenceId)
        decreases pending
      {
        var u :| u in pending;
        reservedDescriptorTracks := reservedDescriptorTracks[u := ClearIncremental(reservedDescriptorTracks[u], packetSequenceId)];
        pending := pending - {u};
      }
      IdentityPreservingUpdate(start, reservedDescriptorTracks, resolvedDescriptorTracks);
    }
  }
}
