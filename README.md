# TrackEventTracker, modelled in Dafny

This project models the track-descriptor bookkeeping of Perfetto's trace
processor, in the CHERI-extended fork: the `TrackEventTracker` class and the
CHERI identifier keys it depends on.

- **Reservations.** While tokenizing, producers describe tracks by a 64-bit
  uuid. Each `Reserve*` call records a `DescriptorTrackReservation` for the
  uuid: a process, a thread, a CHERI context, a plain child track or a
  counter. A repeated reservation is checked with `IsForSameTrack` and may
  refresh the earliest timestamp (process, thread, CHERI) or the name (child,
  counter).
- **Resolution.** On the first `GetDescriptorTrack` for a uuid, its parent
  chain is resolved into a `ResolvedDescriptorTrack`: a tagged variant over
  the scopes thread, process, global and CHERI, with the identities
  (utid, upid, ucid) that scope allows. A child takes the scope and identity
  of its parent. A track with no parent, an unknown parent or a parent reached
  again through a cycle becomes a root global track. Resolutions are memoized.
  A second uuid claiming a utid or upid already owned by another uuid is
  taken as pid/tid reuse: the process tracker is asked to start a new thread
  or process for that uuid. The model keys that answer by the uuid and does
  not assume it differs from earlier identities.
- **Track rows.** A resolved track gets a row in the track table. Primary
  process, thread and CHERI context tracks share one row per identity (the
  interning of `InternProcessTrack`, `InternThreadTrack` and
  `InternCHERIContextTrack`); every other track (children and counters) gets
  its own row. The row carries the reserved name, the row of the parent track
  and, for an unnamed plain child track, the name of the first event that
  used it.
- **Counters.** `ConvertToAbsoluteCounterValue` turns a sample into an
  absolute value. Incremental counters keep a running total per reservation,
  only accept samples from their own packet sequence, and are reset by
  `OnIncrementalStateCleared`. Every value is scaled by the unit multiplier.
- **CHERI keys.** `CompartmentId` equality and ordering (the tuple order of
  compartment id then optional exception level, an absent level first), and
  `CHERIContextId::compartment_id()`.

Files:

- `types.dfy` (module `Types`): fixed-width integers, `Option`, `Min`.
- `cheri.dfy` (module `Cheri`): `CompartmentId`, `CHERIContextId`, their
  operators and order lemmas.
- `descriptor_tracks.dfy` (module `DescriptorTracks`): the reservation record
  and its defaults; `IsForSameTrack` as written and as described; the
  insert-or-verify update `Upsert`; `ResolvedDescriptorTrack` and
  `ScopeFromParent`; the counter arithmetic with lemmas about sequences of
  samples.
- `track_event_tracker.dfy` (module `TrackEventTracking`): the class
  `TrackEventTracker` with the tracker's maps as fields and the track table as
  a sequence of rows. Its invariant `Valid()` says three things. Every
  memoized resolution is one its reservation allows. Every created track's
  row describes its resolution, and a primary track's row is the one interned
  for its identity. The reuse maps name uuids that own the matching primary
  tracks, and every primary thread or process track has its owner recorded.
- `scenarios.dfy` (module `Scenarios`): end-to-end runs on a fresh tracker
  with concrete inputs.

`IsForSameTrack` as written compares `other.parent_uuid` with this
reservation's parent uuid, but every other member of this reservation with
itself, so it holds exactly when the parent uuids agree. Its comment and
the member-by-member pairing say that each member of `other` is meant. Both readings are modelled (see
"## Findings"): `DescriptorTracks.IsForSameTrackAsWritten` is the code as
written, and `DescriptorTracks.IsForSameTrack` is the described comparison, which
the rest of the model uses. With it, a re-reservation with another pid or tid
is refused and the first reservation stays
(`Scenarios.ConflictingThreadReservation`).

The implementation file `src/trace_processor/importers/proto/track_event_tracker.cc`
is not part of this model. The bodies of the operations follow the header's
comments and the class's declared state.

## Model

| member | source | states |
|---|---|---|
| Cheri.Equal | src/trace_processor/types/cheri.h:18-20 | two compartment ids are equal exactly when their compartment ids and optional exception levels are equal, which is structural equality |
| Cheri.Less | src/trace_processor/types/cheri.h:22-24 | `a < b` exactly when a's compartment id is smaller, or the ids are equal and a's exception level precedes b's, an absent level preceding every present one |
| Cheri.OptionalLessIsStrictTotal | src/trace_processor/types/cheri.h:16 | the order on optional exception levels is irreflexive, transitive and total, and puts an absent level first |
| Cheri.LessIrreflexive | src/trace_processor/types/cheri.h:22-24 | no compartment id is less than itself |
| Cheri.LessTransitive | src/trace_processor/types/cheri.h:22-24 | the compartment order is transitive, so it is a strict order usable as a map key |
| Cheri.Trichotomy | src/trace_processor/types/cheri.h:18-24 | for any two compartment ids exactly one of less, equal and greater holds |
| Cheri.CompartmentIdOf | src/trace_processor/types/cheri.h:37-39 | the compartment of a CHERI context carries the context's compartment id and exception level |
| Cheri.CompartmentIgnoresPidTid | src/trace_processor/types/cheri.h:27-39 | contexts differing only in pid and tid name the same compartment |
| DescriptorTracks.IsForSameTrackAsWritten | src/trace_processor/importers/proto/track_event_tracker.h:164-171 | as written, a new reservation counts as the same track exactly when its parent uuid equals the existing one's |
| DescriptorTracks.AsWrittenAcceptsDifferentProcesses | src/trace_processor/importers/proto/track_event_tracker.h:164-171 | two reservations for different pids under the same parent pass the comparison as written and fail the described one |
| DescriptorTracks.IsForSameTrack | src/trace_processor/importers/proto/track_event_tracker.h:162-171 | the described comparison: every reservation with the same identity passes it, passing it implies passing the comparison as written, and two reservations that pass it and name the same CHERI context have the same identity; name, minimum timestamp and latest value are ignored |
| DescriptorTracks.IsForSameTrackIsEquivalence | src/trace_processor/importers/proto/track_event_tracker.h:162-171 | the described comparison is reflexive, symmetric and transitive |
| DescriptorTracks.ProcessReservation | src/trace_processor/importers/proto/track_event_tracker.h:146-160 | a process reservation is a root reservation naming the pid, name and timestamp, with every counter member at its default |
| DescriptorTracks.ThreadReservation | src/trace_processor/importers/proto/track_event_tracker.h:146-160 | a thread reservation names its parent, pid, tid, name and timestamp, with every counter member at its default |
| DescriptorTracks.CHERIContextReservation | src/trace_processor/importers/proto/track_event_tracker.h:146-160 | a CHERI context reservation names its parent, context, name and timestamp, without pid or tid, with every counter member at its default |
| DescriptorTracks.ChildReservation | src/trace_processor/importers/proto/track_event_tracker.h:146-160 | a child reservation names only its parent and name; it is a plain child track with timestamp 0 and default counter members |
| DescriptorTracks.CounterReservation | src/trace_processor/importers/proto/track_event_tracker.h:146-160 | a counter reservation names its parent, name, category, multiplier, incremental flag and sequence, has no pid, tid or context, and starts from the total 0 |
| DescriptorTracks.Upsert | src/trace_processor/importers/proto/track_event_tracker.h:32-110 | a new uuid is stored verbatim; an existing one keeps its identity and running total; the store is left alone when `IsForSameTrack` fails; otherwise processes, threads and CHERI contexts keep the earliest timestamp and children and counters take the new name; no other uuid changes |
| DescriptorTracks.UpsertIdempotent | src/trace_processor/importers/proto/track_event_tracker.h:32-110 | repeating the same reservation changes nothing more |
| DescriptorTracks.ScopeFromParent | src/trace_processor/importers/proto/track_event_tracker.h:80-83 | without a parent a track is a root global track; with one it is a non-root track with the parent's scope and identity; the counter flag is the reservation's own |
| DescriptorTracks.ResolvedDescriptorTrack.TrackScope | src/trace_processor/importers/proto/track_event_tracker.h:196-209 | the scope is thread or CHERI exactly on the tracks with a utid, process or CHERI exactly on those with a upid, CHERI exactly on those with a ucid, and global on the rest |
| DescriptorTracks.AbsoluteValue | src/trace_processor/importers/proto/track_event_tracker.h:125-133 | a sample is refused exactly when the track is not a counter or is incremental on another packet sequence; an absolute counter returns the sample times the multiplier |
| DescriptorTracks.AfterSample | src/trace_processor/importers/proto/track_event_tracker.h:125-133 | only an accepted incremental sample changes the reservation, by adding the sample to its running total; identity, name and timestamp stay |
| DescriptorTracks.ClearIncremental | src/trace_processor/importers/proto/track_event_tracker.h:140-143 | an incremental counter of the cleared sequence restarts its total at 0; every other reservation is unchanged |
| DescriptorTracks.IncrementalRunningTotal | src/trace_processor/importers/proto/track_event_tracker.h:125-133 | for a sequence of accepted samples, the k-th conversion returns the scaled sum of the starting total and the first k+1 samples, and the stored total grows by the sum of all samples |
| DescriptorTracks.AbsoluteCounterIsStateless | src/trace_processor/importers/proto/track_event_tracker.h:125-133 | an absolute counter returns each scaled sample and its reservation never changes |
| DescriptorTracks.ClearRestartsRunningTotal | src/trace_processor/importers/proto/track_event_tracker.h:140-143 | after a clear, the running total is the sum of the later samples only |
| DescriptorTracks.WrongSequenceIsRefused | src/trace_processor/importers/proto/track_event_tracker.h:128-130 | every sample from another sequence is refused and the incremental counter keeps its state |
| TrackEventTracking.IdentityPreservingUpdate | src/trace_processor/importers/proto/track_event_tracker.h:162-163 | updating reservations without changing their identity keeps every memoized resolution valid |
| TrackEventTracking.InsertResolution | src/trace_processor/importers/proto/track_event_tracker.h:244-245 | memoizing a resolution the reservation allows keeps the memo valid |
| TrackEventTracking.UnscopedTrackIsNotPrimary | src/trace_processor/importers/proto/track_event_tracker.h:80-83 | a track that takes its scope from its parent is never a primary process or thread track |
| TrackEventTracking.RecordOwner | src/trace_processor/importers/proto/track_event_tracker.h:248-251 | recording the uuid of a newly resolved primary thread or process track as the owner of its utid or upid keeps every recorded owner owning that primary track and every primary track recorded |
| TrackEventTracking.ThreadIdentity | src/trace_processor/importers/proto/track_event_tracker.h:248-251 | a thread gets the process tracker's utid for its pid and tid unless another uuid already owns that utid, in which case the process tracker starts a new thread for this uuid |
| TrackEventTracking.ProcessIdentity | src/trace_processor/importers/proto/track_event_tracker.h:248-251 | a process gets the process tracker's upid for its pid unless another uuid already owns that upid, in which case the process tracker starts a new process for this uuid |
| TrackEventTracking.OwnScopeResolution | src/trace_processor/importers/proto/track_event_tracker.h:60-68 | a CHERI context reservation resolves to the root non-counter CHERI track of the process tracker's identity for the context; otherwise a thread reservation to the primary thread track of its ThreadIdentity, and a process reservation to the primary process track of its ProcessIdentity |
| TrackEventTracking.FreshResolutionGrows | src/trace_processor/importers/proto/track_event_tracker.h:244-245 | what the first resolution of a uuid established stays true when later resolutions are memoized |
| TrackEventTracking.CHERIIdentityOf | src/trace_processor/importers/proto/track_event_tracker.h:65-68 | the CHERI identity of a CHERI track is its upid, utid and ucid, and with the track's flags rebuilds the track |
| TrackEventTracking.Chain | src/trace_processor/importers/proto/track_event_tracker.h:112-116 | the uuids a lookup follows: the uuid itself and, through each usable parent not yet visited, that parent's chain; it stops at parent 0, an unreserved parent and a uuid reached again |
| TrackEventTracking.ChainShrinks | src/trace_processor/importers/proto/track_event_tracker.h:229-231 | visiting more uuids first only shortens a chain |
| TrackEventTracking.ChainThrough | src/trace_processor/importers/proto/track_event_tracker.h:229-231 | a chain lies within the chain that stops at another uuid together with that uuid's own chain |
| TrackEventTracking.ChainUnfolds | src/trace_processor/importers/proto/track_event_tracker.h:112-116 | past a usable parent, the chain is the uuid and the parent's chain with the uuid visited |
| TrackEventTracking.ParentChainWithin | src/trace_processor/importers/proto/track_event_tracker.h:114-116 | the chain of a usable parent lies within the chain of its child, so creating the parent stays within the child's frame |
| TrackEventTracking.RowOfChainChanges | src/trace_processor/importers/proto/track_event_tracker.h:116-118 | renaming the row of a uuid of the chain keeps the lookup within the chain |
| TrackEventTracking.MaterializedWithinChain | src/trace_processor/importers/proto/track_event_tracker.h:112-116 | giving a uuid of the chain its new row keeps the lookup within the chain |
| TrackEventTracking.WithinChainSteps | src/trace_processor/importers/proto/track_event_tracker.h:114-116 | two lookups each within a chain, the second's chain the larger, together stay within the larger chain |
| TrackEventTracking.TrackEventTracker.constructor | src/trace_processor/importers/proto/track_event_tracker.h:30 | a new tracker has no reservations, resolutions, rows or reuse entries, and keeps the given process tracker and default track name |
| TrackEventTracking.TrackEventTracker.ReserveDescriptorProcessTrack | src/trace_processor/importers/proto/track_event_tracker.h:32-43 | the reservations become the insert-or-verify update with a process reservation; the invariant is kept |
| TrackEventTracking.TrackEventTracker.ReserveDescriptorThreadTrack | src/trace_processor/importers/proto/track_event_tracker.h:45-58 | the same for a thread reservation naming its pid and tid |
| TrackEventTracking.TrackEventTracker.ReserveDescriptorCHERIContextTrack | src/trace_processor/importers/proto/track_event_tracker.h:60-73 | the same for a CHERI context reservation |
| TrackEventTracking.TrackEventTracker.ReserveDescriptorChildTrack | src/trace_processor/importers/proto/track_event_tracker.h:75-86 | the same for a child reservation, which takes the new name on a repeat |
| TrackEventTracking.TrackEventTracker.ReserveDescriptorCounterTrack | src/trace_processor/importers/proto/track_event_tracker.h:88-110 | the same for a counter reservation with its category, multiplier, incremental flag and sequence |
| TrackEventTracking.TrackEventTracker.ResolveScope | src/trace_processor/importers/proto/track_event_tracker.h:232-235 | a CHERI context, thread or process reservation resolves to exactly the track OwnScopeResolution gives for the reuse maps before the call; a new thread or process owner is recorded under its utid or upid and nothing else in the reuse maps changes; any other reservation resolves to ScopeFromParent of its parent; the invariant holds with the new resolution added |
| TrackEventTracking.TrackEventTracker.ResolveDescriptorTrack | src/trace_processor/importers/proto/track_event_tracker.h:229-231 | None exactly for an unreserved uuid; a memoized answer or None changes no resolution and no reuse map; a new answer is memoized, earlier ones are kept, uuids on the path stay unresolved; a new answer is a fresh resolution: its reservation's own identity (exactly OwnScopeResolution when the parent needed no resolution of its own), else its usable parent's scope, else a root global track; only uuids of the chain of `uuid` (Chain, with the uuids on the path as visited) are newly resolved |
| TrackEventTracking.TrackEventTracker.Memoize | src/trace_processor/importers/proto/track_event_tracker.h:244-245 | storing a first resolution the reservation allows adds exactly that entry to the memo and keeps the invariant |
| TrackEventTracking.TrackEventTracker.ResolveDescriptorTrackImpl | src/trace_processor/importers/proto/track_event_tracker.h:232-235 | the parent, when it is reserved, not 0 and not on the path, is resolved first; a track without its own scope is ScopeFromParent of that parent, and a root global track when there is none; a scoped track gets an identity its reservation allows, exactly OwnScopeResolution when the parent needed no resolution; only uuids of the chain of `uuid` (Chain, with the uuids on the path as visited) are newly resolved |
| TrackEventTracking.TrackEventTracker.ResolveParent | src/trace_processor/importers/proto/track_event_tracker.h:232-235 | the parent's resolution when the parent is usable, None for parent 0, a parent on the path or an unknown parent; only uuids of the chain are newly resolved, and when the parent needed no resolution of its own no resolution and no reuse map changes |
| TrackEventTracking.TrackEventTracker.CreateTrackFromResolved | src/trace_processor/importers/proto/track_event_tracker.h:228 | a primary thread, process or CHERI context track reuses the row interned for its identity, leaving the table alone, and otherwise appends a new row and interns it; every other track appends a new row; the intern maps change only by that entry |
| TrackEventTracking.TrackEventTracker.MaterializeTrack | src/trace_processor/importers/proto/track_event_tracker.h:112-119 | the uuid's new row describes its resolution, carries the reserved name when there is one and the parent row when one was created; at most one row is added and no row other than the new one changes |
| TrackEventTracking.TrackEventTracker.GetDescriptorTrackImpl | src/trace_processor/importers/proto/track_event_tracker.h:227 | None exactly for an unreserved uuid; a uuid with a track gets it back and nothing changes; otherwise the track is created as reserved, a non-primary track in a new row, and a first resolution is a fresh resolution as in ResolveDescriptorTrack; only uuids of the chain of `uuid` are newly resolved or given a track, and no existing row changes except the rows of those uuids |
| TrackEventTracking.TrackEventTracker.CreateIfReserved | src/trace_processor/importers/proto/track_event_tracker.h:112-119 | first lookup: nothing happens for an unreserved uuid; otherwise the uuid is resolved, gets a row as reserved, a new one for a non-primary track, and a first resolution is a fresh resolution; only uuids of the chain of `uuid` are newly resolved or given a track, and no existing row changes except the rows of those uuids |
| TrackEventTracking.TrackEventTracker.CreateDescriptorTrack | src/trace_processor/importers/proto/track_event_tracker.h:114-116 | the ancestors' rows are created first; the new row links to its parent's row and has the reserved name; a non-primary track's row is new; only uuids of the chain of `uuid` are newly resolved or given a track, and no existing row changes except the rows of those uuids |
| TrackEventTracking.TrackEventTracker.CreateOwnTrack | src/trace_processor/importers/proto/track_event_tracker.h:112-116 | the uuid's own row is created after its parent's: one new entry in the track map, only that row changes, the row is as reserved, and the lookup stays within the chain |
| TrackEventTracking.TrackEventTracker.CreateParentTrack | src/trace_processor/importers/proto/track_event_tracker.h:114-116 | the parent's row exists afterwards when the parent is reserved, not 0 and not on the path; only uuids of the chain of `uuid` are newly resolved or given a track, and no existing row changes except the rows of those uuids |
| TrackEventTracking.TrackEventTracker.GetDescriptorTrack | src/trace_processor/importers/proto/track_event_tracker.h:112-123 | None exactly when nothing was reserved, and then nothing changes; a second call returns the same id, adds no row and touches no other row; a new row describes the resolution, links to the parent's row and is new for tracks scoped by their parent, named by the reservation or, for an unnamed child, the event; a child asked with an event name always ends up named; a first resolution is a fresh resolution (own identity, parent's scope, or root global); without scoped reservations the track is global; only uuids of the chain of `uuid` are newly resolved or given a track, and no existing row changes except the rows of those uuids |
| TrackEventTracking.TrackEventTracker.NameOnCreation | src/trace_processor/importers/proto/track_event_tracker.h:116-118 | a new row takes the reserved name, and an unnamed plain child track the event name instead |
| TrackEventTracking.TrackEventTracker.CreatedTrack | src/trace_processor/importers/proto/track_event_tracker.h:112-118 | a created track is reserved and resolved and its row describes the resolution; a track scoped by its parent is never primary |
| TrackEventTracking.TrackEventTracker.PrimaryTracksShareRows | src/trace_processor/importers/proto/track_event_tracker.h:60-68 | two uuids resolved to the same primary process, thread or CHERI context track have the same row |
| TrackEventTracking.TrackEventTracker.ApplyEventName | src/trace_processor/importers/proto/track_event_tracker.h:116-118 | only an unnamed row of a plain child track is renamed, to the event name; no other row or field changes |
| TrackEventTracking.TrackEventTracker.ConvertToAbsoluteCounterValue | src/trace_processor/importers/proto/track_event_tracker.h:125-133 | an unknown uuid gives None and no change; otherwise the result is the absolute value of the sample and the reservation moves on by that sample |
| TrackEventTracking.TrackEventTracker.GetOrCreateDefaultDescriptorTrack | src/trace_processor/importers/proto/track_event_tracker.h:135-138 | uuid 0 reserved as a global child track with the default name when it was not reserved, and its track returned; an existing default track is returned unchanged |
| TrackEventTracking.TrackEventTracker.OnIncrementalStateCleared | src/trace_processor/importers/proto/track_event_tracker.h:140-143 | every reservation becomes its cleared form for the sequence and no uuid is added or removed |
| Scenarios.ResolveTwice | src/trace_processor/importers/proto/track_event_tracker.h:112-116 | looking up a reserved uuid twice gives the same track and no new row |
| Scenarios.ParentCycle | src/trace_processor/importers/proto/track_event_tracker.h:229-235 | two tracks that name each other as parent resolve to a global track whose row links to the parent's row |
| Scenarios.ConflictingThreadReservation | src/trace_processor/importers/proto/track_event_tracker.h:45-48 | a second thread reservation with another pid and tid and an earlier timestamp leaves the first pid, tid and timestamp 20 in place, while the comparison as written accepts it (and would lower the timestamp to 10) |
| Scenarios.IncrementalCounterRoundTrip | src/trace_processor/importers/proto/track_event_tracker.h:125-143 | with multiplier 1000 on sequence 3, deltas 5 and 2 read 5000 and 7000, a sample from sequence 4 is refused, and after clearing delta 1 reads 1000 |
| Scenarios.AbsoluteCounter | src/trace_processor/importers/proto/track_event_tracker.h:125-133 | an absolute counter scales each sample from any sequence; an unknown uuid gives None |
| Scenarios.SiblingCounters | src/trace_processor/importers/proto/track_event_tracker.h:99-103 | two counters under one thread get two distinct rows |
| Scenarios.DefaultTrackTwice | src/trace_processor/importers/proto/track_event_tracker.h:135-138 | the default track is returned with the same id twice and carries the default name |
| Scenarios.UnnamedChildTakesEventName | src/trace_processor/importers/proto/track_event_tracker.h:116-118 | an unnamed child track takes the first event name and keeps it |
| Scenarios.CounterUnderThread | src/trace_processor/importers/proto/track_event_tracker.h:100-103 | a counter reserved under the thread track gets a row added by its lookup |
| Scenarios.ChildOfThread | src/trace_processor/importers/proto/track_event_tracker.h:80-83 | a child of a thread track is a non-root, non-counter track of its parent's utid |
| Scenarios.ThreadReuse | src/trace_processor/importers/proto/track_event_tracker.h:247-251 | three uuids describing the same pid and tid one after another get three distinct primary rows |
| Scenarios.DescribeThread | src/trace_processor/importers/proto/track_event_tracker.h:247-251 | a new uuid for thread 6 of process 5 gets the thread's own primary track while no uuid owns it, and a restarted thread keyed by the uuid after; the owner is recorded and earlier rows keep their tracks |
| Scenarios.ThreadOfRestartingResolver | src/trace_processor/importers/proto/track_event_tracker.h:247-251 | a fresh resolution of that thread is utid 6 when unowned and 1000 plus the uuid when owned |
| Scenarios.OwnedThreadStaysOwned | src/trace_processor/importers/proto/track_event_tracker.h:247-251 | once the thread is resolved for a uuid, utid 6 has an owner in the reuse map |
| Scenarios.SharedCHERIContext | src/trace_processor/importers/proto/track_event_tracker.h:65-68 | two uuids reserved for the same CHERI context get the same interned row |
| Scenarios.ChildrenOfThread | src/trace_processor/importers/proto/track_event_tracker.h:112-118 | two children of one thread track both take its utid as non-root thread tracks, and looking up the second leaves the first child's row unchanged |
| Scenarios.FirstChild | src/trace_processor/importers/proto/track_event_tracker.h:112-116 | looking up the first child resolves and creates it and its thread parent, and leaves the sibling unresolved and without a track |
| Scenarios.SecondChild | src/trace_processor/importers/proto/track_event_tracker.h:112-116 | looking up the second child afterwards gives a non-root thread track of the parent's utid and leaves the first child's row unchanged |
| Scenarios.ChildTakesParentScope | src/trace_processor/importers/proto/track_event_tracker.h:80-83 | a fresh resolution of a child whose thread parent is already resolved is a non-root thread track of the parent's utid |
| Scenarios.SiblingRowUntouched | src/trace_processor/importers/proto/track_event_tracker.h:112-116 | a lookup confined to the second child and its parent does not change the first child's row |
| Scenarios.ChainOfChild | src/trace_processor/importers/proto/track_event_tracker.h:112-116 | the chain of a child of thread 1 is the child and 1 |
| Scenarios.SeparateRoots | src/trace_processor/importers/proto/track_event_tracker.h:112-118 | looking up a second root track leaves the first root's row and its name 7 unchanged |
| Scenarios.FirstRoot | src/trace_processor/importers/proto/track_event_tracker.h:112-118 | looking up the first root names its row 7 and neither resolves nor creates the second root |
| Scenarios.OtherRootRowUntouched | src/trace_processor/importers/proto/track_event_tracker.h:112-116 | a lookup confined to the second root does not change the first root's row |

## Left out

- The process tracker, storage and argument tables behind `TraceProcessorContext` are not part of this model. The process tracker is a fixed set of pure functions (`IdentityResolver`). The track table is a sequence of rows holding what the track is, its name and its parent row.
- ResolveScope: the identity a reused pid or tid gets is whatever the process tracker's restart returns for that uuid; the model does not assume it is fresh. The process tracker is stateless here, so after a restart its ordinary lookup still returns the first identity.
- GetDescriptorTrack: the exact identity of a CHERI context, thread or process track is stated when its parent needed no resolution of its own. When resolving the parent may have recorded owners first, the contract states only that the identity is one of the two the process tracker may give (its ordinary one or its restart for the uuid). ResolveDescriptorTrack, GetDescriptorTrackImpl and CreateIfReserved state the same.
- The interned CHERI context rows are a field of the tracker (`cheriTracks`), next to the thread and process rows. `InternCHERIContextTrack` and the track tracker that owns it are not part of this model.
- The `args` rows (source, source id, is-root-in-scope and category keys) are not modelled. The category is kept on the reservation only.
- Debug logging and statistics on refused re-reservations and refused samples are left out. A refused call is modelled as having no effect.
- Counter values are exact reals, not IEEE doubles, so rounding is not modelled.
- ConvertToAbsoluteCounterValue: the running total is kept in raw units and the multiplier is applied to the returned value. With exact arithmetic and a fixed multiplier this returns the same values as scaling each sample first. The model always multiplies, for any multiplier value.
- GetDescriptorTrack: the event-name fallback applies on any call while the row of a plain child track still has no name, as the header's comment says, not only when the track is first created.
- GetDescriptorTrackImpl: the header declares it with the uuid only. The model adds the list of uuids whose lookup is in progress. This list is the visited set that stops ancestor creation from looping on a parent cycle.
- Any limit on the depth of a parent chain lives in the implementation file, which is not part of this model. The model resolves chains of any length and stops only at a cycle.
- Resolution never fails for a reserved uuid: an unknown parent gives a root global track.
- Upsert: uses the corrected `IsForSameTrack`, and so does every `Reserve*` method, not the comparison as written at src/trace_processor/importers/proto/track_event_tracker.h:164-171. A re-reservation with another pid, tid or other identity under the same parent is refused here, where the code as written accepts it and lowers the timestamp or takes the new name (see "## Findings"). `Scenarios.ConflictingThreadReservation` shows both.

## Findings

| source | as written | input that shows it | evidently intended | confidence | as-written member | corrected member |
|---|---|---|---|---|---|---|
| src/trace_processor/importers/proto/track_event_tracker.h:164-171 | the right-hand tie reads `other.parent_uuid` but this reservation's own pid, tid, counter flag, category, multiplier, incremental flag and sequence, so only the parent uuids are compared | an existing reservation with pid 1 and a new one with pid 2, both with parent 0 and otherwise default, pass | compare each member of `other`: the comment asks whether `other` describes this track, and only name, minimum timestamp and latest value are meant to be ignored | likely; not executed | DescriptorTracks.IsForSameTrackAsWritten, DescriptorTracks.AsWrittenAcceptsDifferentProcesses | DescriptorTracks.IsForSameTrack |
