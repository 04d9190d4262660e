/**
 * The two value types nested in `TrackEventTracker`
 * (src/trace_processor/importers/proto/track_event_tracker.h):
 * `DescriptorTrackReservation`, the record a producer's track descriptor
 * leaves behind during tokenization, and `ResolvedDescriptorTrack`, the
 * scope and identity a reservation resolves to. Also the pure parts of the
 * tracker's operations on them: building and merging reservations, deriving
 * a child's scope from its parent, and converting counter samples.
 */
module DescriptorTracks {
  import opened Types
  import opened Cheri

  /** An interned string handle; 0 plays the part of `kNullStringId`. */
  type StringId = nat
  const NullStringId: StringId := 0

  type UniquePid = nat
  type UniqueTid = nat
  type UniqueCid = nat

  datatype DescriptorTrackReservation = DescriptorTrackReservation(
    parentUuid: uint64,
    pid: Option<uint32>,
    tid: Option<uint32>,
    cheriContext: Option<CHERIContextId>,
    minTimestamp: int64,
    name: StringId,
    isCounter: bool,
    category: StringId,
    unitMultiplier: int64,
    isIncremental: bool,
    packetSequenceId: uint32,
    latestValue: real)

  /** A reservation with every member at its declared default. */
  const DefaultReservation: DescriptorTrackReservation :=
    DescriptorTrackReservation(0, None, None, None, 0, NullStringId,
                               false, NullStringId, 1, false, 0, 0.0)

  /**
   * `IsForSameTrack` exactly as written: only `other.parent_uuid` is taken
   * from `other`; every other tied member is this reservation's own, so the
   * comparison reduces to equal parent uuids.
   */
  function IsForSameTrackAsWritten(self: DescriptorTrackReservation, other: DescriptorTrackReservation)
    : (same: bool)
    ensures same <==> self.parentUuid == other.parentUuid
  {
    (self.parentUuid, self.pid, self.tid, self.isCounter, self.category,
     self.unitMultiplier, self.isIncremental, self.packetSequenceId)
    ==
    (other.parentUuid, self.pid, self.tid, self.isCounter, self.category,
     self.unitMultiplier, self.isIncremental, self.packetSequenceId)
  }

  /**
   * `IsForSameTrack` as its comment describes it: every tied member of this
   * reservation is compared with the same member of `other`, and only the
   * name, the minimum timestamp and the latest counter value may differ.
   * The CHERI context is not among the tied members on either side.
   */
  function IsForSameTrack(self: DescriptorTrackReservation, other: DescriptorTrackReservation): (same: bool)
    ensures same ==> IsForSameTrackAsWritten(self, other)
    ensures SameIdentity(self, other) ==> same
    ensures same && self.cheriContext == other.cheriContext ==> SameIdentity(self, other)
  {
    (self.parentUuid, self.pid, self.tid, self.isCounter, self.category,
     self.unitMultiplier, self.isIncremental, self.packetSequenceId)
    ==
    (other.parentUuid, other.pid, other.tid, other.isCounter, other.category,
     other.unitMultiplier, other.isIncremental, other.packetSequenceId)
  }

  /**
   * The comparison as written lets through a descriptor for another process
   * under the same parent, which the described comparison refuses.
   */
  lemma AsWrittenAcceptsDifferentProcesses()
    ensures IsForSameTrackAsWritten(DefaultReservation.(pid := Some(1)), DefaultReservation.(pid := Some(2)))
    ensures !IsForSameTrack(DefaultReservation.(pid := Some(1)), DefaultReservation.(pid := Some(2)))
  {
  }

  /** The described comparison is an equivalence on reservations. */
  lemma IsForSameTrackIsEquivalence(a: DescriptorTrackReservation, b: DescriptorTrackReservation,
                                    c: DescriptorTrackReservation)
    ensures IsForSameTrack(a, a)
    ensures IsForSameTrack(a, b) == IsForSameTrack(b, a)
    ensures IsForSameTrack(a, b) && IsForSameTrack(b, c) ==> IsForSameTrack(a, c)
  {
  }

  /**
   * The members that define which track a reservation stands for; everything
   * except the name, the minimum timestamp and the latest counter value.
   */
  predicate SameIdentity(a: DescriptorTrackReservation, b: DescriptorTrackReservation)
  {
    a.parentUuid == b.parentUuid && a.pid == b.pid && a.tid == b.tid &&
    a.cheriContext == b.cheriContext && a.isCounter == b.isCounter &&
    a.category == b.category && a.unitMultiplier == b.unitMultiplier &&
    a.isIncremental == b.isIncremental && a.packetSequenceId == b.packetSequenceId
  }

  /** A thread reservation always names the thread's process too. */
  predicate WellFormed(r: DescriptorTrackReservation)
  {
    r.tid.Some? ==> r.pid.Some?
  }

  /** A plain child track: no process, thread or CHERI context, and not a counter. */
  predicate IsChildTrack(r: DescriptorTrackReservation)
  {
    r.pid.None? && r.tid.None? && r.cheriContext.None? && !r.isCounter
  }

  /** The counter members of `r` are at their declared defaults: `r` is no counter. */
  predicate CounterMembersDefault(r: DescriptorTrackReservation)
  {
    !r.isCounter && r.category == NullStringId && r.unitMultiplier == 1 && !r.isIncremental
    && r.packetSequenceId == 0 && r.latestValue == 0.0
  }

  // The reservations each Reserve* operation builds from its arguments; every
  // member an operation does not set keeps its declared default.

  function ProcessReservation(name: StringId, pid: uint32, timestamp: int64): (r: DescriptorTrackReservation)
    ensures r.parentUuid == 0 && r.pid == Some(pid) && r.tid.None? && r.cheriContext.None?
    ensures r.minTimestamp == timestamp && r.name == name && CounterMembersDefault(r)
    ensures WellFormed(r)
  {
    DefaultReservation.(pid := Some(pid), minTimestamp := timestamp, name := name)
  }

  function ThreadReservation(parentUuid: uint64, name: StringId, pid: uint32, tid: uint32,
                             timestamp: int64): (r: DescriptorTrackReservation)
    ensures r.parentUuid == parentUuid && r.pid == Some(pid) && r.tid == Some(tid) && r.cheriContext.None?
    ensures r.minTimestamp == timestamp && r.name == name && CounterMembersDefault(r)
    ensures WellFormed(r)
  {
    DefaultReservation.(parentUuid := parentUuid, pid := Some(pid), tid := Some(tid),
                        minTimestamp := timestamp, name := name)
  }

  function CHERIContextReservation(parentUuid: uint64, name: StringId, ccid: CHERIContextId,
                                   timestamp: int64): (r: DescriptorTrackReservation)
    ensures r.parentUuid == parentUuid && r.pid.None? && r.tid.None? && r.cheriContext == Some(ccid)
    ensures r.minTimestamp == timestamp && r.name == name && CounterMembersDefault(r)
    ensures WellFormed(r)
  {
    DefaultReservation.(parentUuid := parentUuid, cheriContext := Some(ccid),
                        minTimestamp := timestamp, name := name)
  }

  function ChildReservation(parentUuid: uint64, name: StringId): (r: DescriptorTrackReservation)
    ensures r.parentUuid == parentUuid && r.name == name && r.minTimestamp == 0
    ensures IsChildTrack(r) && CounterMembersDefault(r) && WellFormed(r)
  {
    DefaultReservation.(parentUuid := parentUuid, name := name)
  }

  function CounterReservation(parentUuid: uint64, name: StringId, category: StringId,
                              unitMultiplier: int64, isIncremental: bool,
                              packetSequenceId: uint32): (r: DescriptorTrackReservation)
    ensures r.parentUuid == parentUuid && r.name == name && r.minTimestamp == 0
    ensures r.pid.None? && r.tid.None? && r.cheriContext.None? && WellFormed(r)
    ensures r.isCounter && r.category == category && r.unitMultiplier == unitMultiplier
    ensures r.isIncremental == isIncremental && r.packetSequenceId == packetSequenceId && r.latestValue == 0.0
  {
    DefaultReservation.(parentUuid := parentUuid, name := name, isCounter := true,
                        category := category, unitMultiplier := unitMultiplier,
                        isIncremental := isIncremental, packetSequenceId := packetSequenceId)
  }

  /**
   * What a re-reservation that passes `IsForSameTrack` may update: process,
   * thread and CHERI tracks keep the earliest timestamp; child and counter
   * tracks take the new name.
   */
  datatype UpdatePolicy = KeepEarliestTimestamp | TakeNewName

  /**
   * Insert-or-verify: an unreserved uuid gets `incoming` verbatim; a reserved
   * one keeps its identity and is updated per `policy` only when `incoming`
   * passes `IsForSameTrack`. No other uuid is touched.
   */
  function Upsert(store: map<uint64, DescriptorTrackReservation>, uuid: uint64,
                  incoming: DescriptorTrackReservation, policy: UpdatePolicy)
    : (s: map<uint64, DescriptorTrackReservation>)
    ensures s.Keys == store.Keys + {uuid}
    ensures forall u :: u in store && u != uuid ==> s[u] == store[u]
    ensures uuid !in store ==> s[uuid] == incoming
    ensures uuid in store ==> SameIdentity(s[uuid], store[uuid])
    ensures uuid in store ==> s[uuid].latestValue == store[uuid].latestValue
    ensures uuid in store && !IsForSameTrack(store[uuid], incoming) ==> s == store
    ensures uuid in store && policy == KeepEarliestTimestamp ==>
              s[uuid].name == store[uuid].name && s[uuid].minTimestamp <= store[uuid].minTimestamp
    ensures uuid in store && policy == TakeNewName ==>
              s[uuid].minTimestamp == store[uuid].minTimestamp
    ensures uuid in store && IsForSameTrack(store[uuid], incoming) && policy == KeepEarliestTimestamp ==>
              s[uuid].minTimestamp == Min(store[uuid].minTimestamp, incoming.minTimestamp)
    ensures uuid in store && IsForSameTrack(store[uuid], incoming) && policy == TakeNewName ==>
              s[uuid].name == incoming.name
  {
    if uuid !in store then store[uuid := incoming]
    else
      var existing := store[uuid];
      if !IsForSameTrack(existing, incoming) then store
      else match policy
        case KeepEarliestTimestamp =>
          store[uuid := existing.(minTimestamp := Min(existing.minTimestamp, incoming.minTimestamp))]
        case TakeNewName =>
          store[uuid := existing.(name := incoming.name)]
  }

  /** Repeating a reservation with the same arguments changes nothing more. */
  lemma UpsertIdempotent(store: map<uint64, DescriptorTrackReservation>, uuid: uint64,
                         incoming: DescriptorTrackReservation, policy: UpdatePolicy)
    ensures Upsert(Upsert(store, uuid, incoming, policy), uuid, incoming, policy)
            == Upsert(store, uuid, incoming, policy)
  {
  }

  // ResolvedDescriptorTrack: a tagged variant over the four scopes.

  datatype Scope = Thread | Process | Global | CHERI

  /**
   * The constructors play the part of the static factories `Thread`,
   * `Process`, `Global` and `CHERIContext`. The identity destructors are the
   * accessors: `utid` exists only on thread and CHERI tracks, `upid` only on
   * process and CHERI tracks and `ucid` only on CHERI tracks, so reading one
   * in any other scope is rejected by the verifier, as the accessors'
   * debug checks reject it at run time.
   */
  datatype ResolvedDescriptorTrack =
    | ThreadTrack(utid: UniqueTid, isCounter: bool, isRootInScope: bool)
    | ProcessTrack(upid: UniquePid, isCounter: bool, isRootInScope: bool)
    | GlobalTrack(isCounter: bool, isRootInScope: bool)
    | CHERIContextTrack(upid: UniquePid, utid: UniqueTid, ucid: UniqueCid,
                        isCounter: bool, isRootInScope: bool)
  {
    /** `scope()`; an identity accessor is available exactly in the scopes its debug check allows. */
    function TrackScope(): (s: Scope)
      ensures (s == Thread || s == CHERI) <==> (ThreadTrack? || CHERIContextTrack?)
      ensures (s == Process || s == CHERI) <==> (ProcessTrack? || CHERIContextTrack?)
      ensures s == CHERI <==> CHERIContextTrack?
      ensures s == Global <==> GlobalTrack?
    {
      match this
      case ThreadTrack(_, _, _) => Thread
      case ProcessTrack(_, _, _) => Process
      case GlobalTrack(_, _) => Global
      case CHERIContextTrack(_, _, _, _, _) => CHERI
    }
  }

  /** Same scope and, for every accessor that scope allows, the same identity. */
  predicate SameScopeAndIdentity(a: ResolvedDescriptorTrack, b: ResolvedDescriptorTrack)
  {
    a.TrackScope() == b.TrackScope() &&
    (a.ThreadTrack? || a.CHERIContextTrack? ==> a.utid == b.utid) &&
    (a.ProcessTrack? || a.CHERIContextTrack? ==> a.upid == b.upid) &&
    (a.CHERIContextTrack? ==> a.ucid == b.ucid)
  }

  /**
   * The track a reservation without process, thread or CHERI context
   * resolves to: with no usable parent it is a root global track; otherwise
   * it is a non-root track in its parent's scope, for the parent's identity.
   */
  function ScopeFromParent(isCounter: bool, parent: Option<ResolvedDescriptorTrack>)
    : (t: ResolvedDescriptorTrack)
    ensures t.isCounter == isCounter
    ensures parent.None? ==> t.GlobalTrack? && t.isRootInScope
    ensures parent.Some? ==> !t.isRootInScope && SameScopeAndIdentity(t, parent.value)
  {
    match parent
    case None => GlobalTrack(isCounter, true)
    case Some(p) =>
      match p
      case ThreadTrack(utid, _, _) => ThreadTrack(utid, isCounter, false)
      case ProcessTrack(upid, _, _) => ProcessTrack(upid, isCounter, false)
      case GlobalTrack(_, _) => GlobalTrack(isCounter, false)
      case CHERIContextTrack(upid, utid, ucid, _, _) => CHERIContextTrack(upid, utid, ucid, isCounter, false)
  }

  // Counter values.

  /** Whether a sample on `packetSequenceId` may be converted for this reservation. */
  predicate AcceptsSample(r: DescriptorTrackReservation, packetSequenceId: uint32)
  {
    r.isCounter && (!r.isIncremental || r.packetSequenceId == packetSequenceId)
  }

  /** A value in the counter's unit: the sample times the unit multiplier. */
  function Scaled(r: DescriptorTrackReservation, value: real): (scaled: real)
    ensures r.unitMultiplier == 1 ==> scaled == value
  {
    value * (r.unitMultiplier as int as real)
  }

  /** The absolute value a sample converts to, if it is accepted at all. */
  function AbsoluteValue(r: DescriptorTrackReservation, packetSequenceId: uint32, value: real)
    : (out: Option<real>)
    ensures out.None? <==> !AcceptsSample(r, packetSequenceId)
    ensures out.Some? && !r.isIncremental ==> out.value == Scaled(r, value)
  {
    if !AcceptsSample(r, packetSequenceId) then None
    else if r.isIncremental then Some(Scaled(r, r.latestValue + value))
    else Some(Scaled(r, value))
  }

  /** The reservation after converting a sample: only an accepted incremental sample moves the total. */
  function AfterSample(r: DescriptorTrackReservation, packetSequenceId: uint32, value: real)
    : (r': DescriptorTrackReservation)
    ensures SameIdentity(r', r) && r'.name == r.name && r'.minTimestamp == r.minTimestamp
    ensures AcceptsSample(r, packetSequenceId) && r.isIncremental ==> r'.latestValue == r.latestValue + value
    ensures !(AcceptsSample(r, packetSequenceId) && r.isIncremental) ==> r' == r
  {
    if AcceptsSample(r, packetSequenceId) && r.isIncremental
    then r.(latestValue := r.latestValue + value)
    else r
  }

  /** The reservation after incremental state on `packetSequenceId` is cleared. */
  function ClearIncremental(r: DescriptorTrackReservation, packetSequenceId: uint32)
    : (r': DescriptorTrackReservation)
    ensures SameIdentity(r', r) && r'.name == r.name && r'.minTimestamp == r.minTimestamp
    ensures r.isIncremental && r.packetSequenceId == packetSequenceId ==> r'.latestValue == 0.0
    ensures !(r.isIncremental && r.packetSequenceId == packetSequenceId) ==> r' == r
  {
    if r.isIncremental && r.packetSequenceId == packetSequenceId
    then r.(latestValue := 0.0)
    else r
  }

  function Sum(values: seq<real>): (total: real)
  {
    if values == [] then 0.0 else values[0] + Sum(values[1..])
  }

  /**
   * Converting `values` one after another on `packetSequenceId`: the
   * reservation afterwards and the value each conversion returns.
   */
  function FeedSamples(r: DescriptorTrackReservation, packetSequenceId: uint32, values: seq<real>)
    : (fed: (DescriptorTrackReservation, seq<Option<real>>))
    decreases |values|
  {
    if values == [] then (r, [])
    else
      var rest := FeedSamples(AfterSample(r, packetSequenceId, values[0]), packetSequenceId, values[1..]);
      (rest.0, [AbsoluteValue(r, packetSequenceId, values[0])] + rest.1)
  }

  lemma {:induction false} SumOfPrefix(values: seq<real>, k: nat)
    requires 0 < k <= |values|
    ensures Sum(values[..k]) == values[0] + Sum(values[1..][..k - 1])
  {
    assert values[..k][1..] == values[1..][..k - 1];
  }

  /**
   * An incremental counter returns the running total: the k-th conversion
   * yields the scaled sum of the starting value and the first k+1 samples,
   * and afterwards the stored total has grown by the sum of all samples.
   */
  lemma {:induction false} IncrementalRunningTotal(r: DescriptorTrackReservation,
                                                   packetSequenceId: uint32, values: seq<real>)
    requires r.isCounter && r.isIncremental && r.packetSequenceId == packetSequenceId
    ensures |FeedSamples(r, packetSequenceId, values).1| == |values|
    ensures SameIdentity(FeedSamples(r, packetSequenceId, values).0, r)
    ensures FeedSamples(r, packetSequenceId, values).0.latestValue == r.latestValue + Sum(values)
    ensures forall k :: 0 <= k < |values| ==>
              FeedSamples(r, packetSequenceId, values).1[k]
              == Some(Scaled(r, r.latestValue + Sum(values[..k + 1])))
    decreases |values|
  {
    if values != [] {
      var r1 := AfterSample(r, packetSequenceId, values[0]);
      IncrementalRunningTotal(r1, packetSequenceId, values[1..]);
      var outs := FeedSamples(r, packetSequenceId, values).1;
      forall k | 0 <= k < |values|
        ensures outs[k] == Some(Scaled(r, r.latestValue + Sum(values[..k + 1])))
      {
        SumOfPrefix(values, k + 1);
        if k == 0 {
          assert values[1..][..0] == [];
          assert outs[0] == AbsoluteValue(r, packetSequenceId, values[0]);
        } else {
          var rest := FeedSamples(r1, packetSequenceId, values[1..]);
          assert outs[k] == rest.1[k - 1];
          assert rest.1[k - 1] == Some(Scaled(r1, r1.latestValue + Sum(values[1..][..k])));
          assert r1.latestValue + Sum(values[1..][..k]) == r.latestValue + Sum(values[..k + 1]);
          assert Scaled(r1, r1.latestValue + Sum(values[1..][..k])) == Scaled(r, r.latestValue + Sum(values[..k + 1]));
        }
        assert outs[k] == Some(Scaled(r, r.latestValue + Sum(values[..k + 1])));
      }
    }
  }

  /** A non-incremental counter scales each sample on its own and keeps no state. */
  lemma {:induction false} AbsoluteCounterIsStateless(r: DescriptorTrackReservation,
                                                      packetSequenceId: uint32, values: seq<real>)
    requires r.isCounter && !r.isIncremental
    ensures FeedSamples(r, packetSequenceId, values).0 == r
    ensures |FeedSamples(r, packetSequenceId, values).1| == |values|
    ensures forall k :: 0 <= k < |values| ==>
              FeedSamples(r, packetSequenceId, values).1[k] == Some(Scaled(r, values[k]))
    decreases |values|
  {
    if values != [] {
      AbsoluteCounterIsStateless(r, packetSequenceId, values[1..]);
    }
  }

  /**
   * After incremental state is cleared the running total restarts from zero,
   * whatever samples came before.
   */
  lemma ClearRestartsRunningTotal(r: DescriptorTrackReservation, packetSequenceId: uint32,
                                  before: seq<real>, after: seq<real>)
    requires r.isCounter && r.isIncremental && r.packetSequenceId == packetSequenceId
    ensures var cleared := ClearIncremental(FeedSamples(r, packetSequenceId, before).0, packetSequenceId);
            FeedSamples(cleared, packetSequenceId, after).0.latestValue == Sum(after)
  {
    IncrementalRunningTotal(r, packetSequenceId, before);
    var cleared := ClearIncremental(FeedSamples(r, packetSequenceId, before).0, packetSequenceId);
    IncrementalRunningTotal(cleared, packetSequenceId, after);
  }

  /** A sample from another packet sequence is refused and leaves an incremental counter as it was. */
  lemma {:induction false} WrongSequenceIsRefused(r: DescriptorTrackReservation,
                                                  packetSequenceId: uint32, values: seq<real>)
    requires r.isIncremental && r.packetSequenceId != packetSequenceId
    ensures FeedSamples(r, packetSequenceId, values).0 == r
    ensures forall k :: 0 <= k < |FeedSamples(r, packetSequenceId, values).1| ==>
              FeedSamples(r, packetSequenceId, values).1[k] == None
    decreases |values|
  {
    if values != [] {
      WrongSequenceIsRefused(r, packetSequenceId, values[1..]);
    }
  }
}
