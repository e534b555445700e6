# AtlasStore: a verified model of replicated chunk placement

This project models the part of AtlasStore that decides where the chunks of an object live, what is
recorded about them, what happens to them when storage nodes come and go, and what a download gives back.
It consists of executable-style classes and methods that follow the Go code, the functions and predicates
that specify them, and lemmas about those.

| file | what it models |
|---|---|
| `Sequences.dfy`, `Labels.dfy` | sequence vocabulary; the names of virtual nodes |
| `Ring.dfy` | the consistent hash ring: the mutable object and its specification |
| `RingInvariant.dfy`, `RingTheory.dfy`, `RingDisruption.dfy` | the ring's invariant, runs of joins and leaves, rebuilding from a listing, minimal disruption |
| `Breaker.dfy` | the circuit breaker under all interleavings of calls |
| `Membership.dfy` | the replicated membership machine, its snapshots, and the gateway's ring manager |
| `Cluster.dfy` | the storage nodes as a client sees them, with calls that may fail |
| `Tables.dfy`, `Repository.dfy` | the relational tables and the transactions over them |
| `Rebalancer.dfy`, `SharedDigests.dfy`, `RebalanceRuns.dfy` | one row's pass, the rows of one digest in any order, whole passes and changes of membership before them |
| `Content.dfy` | what an object holds and what replicas' answers make of it |
| `Storing.dfy`, `Saves.dfy`, `UploadJobs.dfy` | storing one chunk, the saves of all chunk jobs as a trace, the jobs running at once |
| `ObjectHandler.dfy`, `Multipart.dfy` | upload and download; multipart uploads from beginning to end |
| `Lifecycle.dfy` | upload, changes of membership, a rebalancing pass and a download in sequence |
| `Counterexamples.dfy` | concrete inputs at which expected promises fail |

## How to read the model

- The hash of a label, the digest, the compressor and the cipher are parameters. Nothing is assumed of the
  first two; of the others only that decoding undoes encoding and that nothing decrypts from an empty file
  (`Content.Lawful`, `internal/crypto/aes.go:40-42`). Where the code needs that inputs do not collide, a
  predicate says so about just the inputs involved (`CollisionFree`, `CrossFree`, `NoCollision`).
- A remote call or a database statement may fail at any time. `faults` counts such failures, so that a
  contract can say what holds whatever fails and, separately, what holds when nothing does. A failed save
  may leave any content in the file, because the node truncates the file before it writes it
  (`internal/storage/disk.go:44-55`).
- `StorageNodes.calls` is the log of all remote calls with their outcomes. The contracts of the methods that
  make calls tie their results to it, call by call: which nodes were asked, which of them succeeded, and that
  exactly those were counted or recorded. Whether the cipher works for a chunk is a parameter, too: the nonce
  that it draws, or none if it fails.
- A file is good for a digest if it opens to bytes that have the digest, which is what a download accepts.
- The order in which a Go map is traversed, concurrent jobs and their saves end, or the database lists rows
  is left to nondeterministic choice, so the contracts hold for every order. A save of one file is one step.
- A transaction is one step. A location table is held as the set of addresses per owner.
- The gateway's ring does not change during one request or one pass of the rebalancer; between them it is
  rebuilt from a listing.

## What was found

Each failure has an input, where it needs one, and an exact condition.

- `RemoveNode` undoes `AddNode` exactly when the node's positions are nobody else's and, unless its name is
  the empty string, all different (`AddThenRemove`). With a repeated position, a key without owner stays on
  the ring.
- Gateways that list the same nodes in different orders agree on every placement exactly when no two of the
  nodes share a position (`OrderIrrelevantIff`).
- A row can lose its last recorded replica in a pass of the rebalancer (`LastRecordLost`). It is safe exactly
  when it shares a node with the expected placement or none of its replicas can be read (`SurvivesIff`).
- The rebalancer copies what the first node answers without checking its digest
  (`internal/api/rebalancer.go:73-98`). Although nothing fails and a good replica is recorded, it can leave
  corrupt copies only (`CorruptionSpreads`). A good replica survives every pass, whatever remote calls fail,
  exactly when one lies on a node that is also expected (`KeepsContentIff`), and every pass without failures
  exactly under the condition of `CalmKeepsContentIff`.
- Rows of the same digest share their files, and the pass over one row deletes what another still needs. The
  same file uploaded twice is enough: after all its nodes have been replaced, one of the objects is gone,
  although nothing has failed (`SharedFileLost`). A row is safe from that, in every order of handling,
  exactly when it shares a node with its placement or has a node that no other row of its digest records
  (`SafeRowIff`); and safe whatever remote calls fail exactly when some node is expected and recorded for
  every row of the digest (`AnchorIff`).
- Equal chunks of one body are saved by jobs that run at once, and a failed save of one job may truncate what
  another has just stored, after which the answer is still 201 (`RepeatedChunkLost`). All recorded nodes hold
  their chunks after every 201, and fewer nodes than a quorum may fail, exactly when no 201 is possible or
  each repeated digest has no more nodes in its placement than the quorum (`DurableIff`).
- In the same way an upload, even one that answers 500, may truncate what another object has stored. Which
  replicas are out of danger is stated by `StoredReplicaIff`.
- A download that runs out of replicas after the first chunk appends the error text to the bytes already
  written, and its status stays 200 (`internal/api/object_handler.go:250-256`); `Integrity` states the
  response in that form.
- Rows without a location are left out of a download without any sign of it (`ListedIndices`).
- The breaker's half-open state does not influence who is refused: refusal is a function of the finished
  operations alone (`RefusedIff`).

The code and its documentation disagree in these places, and the model follows the code:
`learning.md:686` promises a single test request while half-open, the code admits every call
(`HalfOpenAdmitsAll`, `TwoProbesAtOnce`); `learning.md:657` looks for a greater key, the code for one that is
greater or equal; `internal.md:172-176` describes the ring manager as updating the ring, the code rebuilds it
from a listing; `internal.md:207-214` fetches a chunk only if nodes are missing and always retires obsolete
ones, the code fetches in both cases and skips the row if nothing readable is found.

## Model

| member | source | states |
|---|---|---|
| Labels.DecimalDenotes | pkg/ring/ring.go:45 | the index part of a label reads back as the index, without leading zeros |
| Labels.LabelReads | pkg/ring/ring.go:45 | a label is the node's name, a dash, and the decimal digits of the index, none of them superfluous |
| Labels.LabelInjective | pkg/ring/ring.go:44-48 | two virtual nodes have the same label only if they are the same, for node names with any dashes and digits; so only hash collisions can merge positions |
| Ring.HashRing.AddNode | pkg/ring/ring.go:35-54 | a known node changes nothing; otherwise the node takes over its positions and the keys stay sorted |
| Ring.HashRing.RemoveNode | pkg/ring/ring.go:57-75 | the pass over the keys in which lookups see the deletions made so far; sortedness is kept |
| Ring.HashRing.Search | pkg/ring/ring.go:95-97 | the binary search finds the split between smaller and greater-or-equal keys |
| Ring.HashRing.GetNodes | pkg/ring/ring.go:85-120 | search, wrap-around, modular walk and early exit return the first `count` distinct owners clockwise from the hash, all of them for a count of zero or less |
| Ring.ClockwiseIsRotation | pkg/ring/ring.go:93-108 | the clockwise order, defined by comparing with the hash, is the rotation of the keys at the search result |
| RingInvariant.AddKeepsInv | pkg/ring/ring.go:35-54 | with collisions, too: keys stay sorted, each position occurs once per member virtual node that hashes to it, keys equal the owner map's domain, and owners are members that sit there |
| RingInvariant.ScannedOwners | pkg/ring/ring.go:66-74 | removal takes the owner away from exactly the scanned positions that the node owned |
| RingInvariant.ScannedKeys | pkg/ring/ring.go:66-74 | removal drops only one copy of each position that the node owned |
| RingInvariant.ScannedEmptyName | pkg/ring/ring.go:66-74 | for the empty name, removal drops every copy |
| RingInvariant.RemovedKeys | pkg/ring/ring.go:57-75 | without shared or repeated positions, the keys that go are exactly those the node owns |
| RingInvariant.RemoveKeepsInv | pkg/ring/ring.go:57-75 | under the same condition removal keeps the whole invariant |
| RingInvariant.SameRing | pkg/ring/ring.go:12-18 | two rings with the invariant and the same members, no two of which share a position, are equal |
| RingTheory.AddThenRemove | pkg/ring/ring.go:35-75 | removing a node just added restores the ring if and only if its positions are exclusive |
| RingTheory.RunInvariant | pkg/ring/ring.go:35-75 | after every collision-free run of joins and leaves the invariant holds, the members are as the run says, and the keys number virtual nodes times members |
| RingTheory.MemberOwnsItsPositions | pkg/ring/ring.go:44-49 | each member owns each of its positions |
| RingTheory.HistoryForgotten | pkg/ring/ring.go:35-75 | collision-free runs that end with the same members end in the same ring |
| RingTheory.RebuildInvariant | internal/api/ring_manager.go:62-65 | a rebuilt ring has the invariant and the full number of keys, collisions or not, and its members are the listed addresses |
| RingTheory.RebuildOrder | internal/api/ring_manager.go:62-65 | listings of the same nodes, no two of which share a position, rebuild the same ring |
| RingTheory.OrderIrrelevantIff | internal/api/ring_manager.go:62-65 | every lookup is independent of the listing order if and only if no two nodes share a position |
| RingTheory.LastListed | pkg/ring/ring.go:48 | the node listed last wins a shared position and is the first choice there |
| RingTheory.RunFrom | pkg/ring/ring.go:35-75 | the same for every run from a ring that is in order |
| RingTheory.RebuildFollows | internal/api/ring_manager.go:61-65 | the ring rebuilt from the next listing is the one that the joins and leaves in between make of the old ring |
| RingTheory.RebuildFollowsOne | internal/api/ring_manager.go:61-65 | the same for one join or leave |
| RingTheory.ChangesBetween | internal/api/ring_manager.go:36-66 | from one set of members to another there is a run of as many changes as nodes have come or gone |
| RingDisruption.WalkWithout | pkg/ring/ring.go:93-120 | the walk on the smaller ring is the walk on the larger one with the extra node left out |
| RingDisruption.JoinDisruption | pkg/ring/ring.go:35-120 | minimal disruption: a new node enters each placement at one place, and only the last entry of a full placement gives way |
| RingDisruption.LeaveDisruption | pkg/ring/ring.go:57-120 | the mirror image for a departing node |
| RingDisruption.PlacementMembers | pkg/ring/ring.go:103-120 | placements list members, without repeats |
| RingDisruption.PlacementSize | pkg/ring/ring.go:103-120 | exactly the requested number of nodes, or all members if there are fewer or the request is not positive |
| RingDisruption.PlacementPrefix | pkg/ring/ring.go:115-117 | a smaller positive request gives a prefix of a larger one |
| RingDisruption.ReplacesOne | pkg/ring/ring.go:35-120 | one membership change takes at most one node out of any placement, and a leave no other than the node that leaves |
| RingDisruption.Drift | pkg/ring/ring.go:35-120 | a run of k membership changes takes at most k nodes out of any placement |
| RingDisruption.RebuildDrift | internal/api/ring_manager.go:61-65 | between two listings a placement loses at most one node for each that has come or gone |
| RingDisruption.LeaversOnly | internal/api/ring_manager.go:61-65 | when nodes only leave, a placement loses nothing but those nodes |
| RingDisruption.PlacementLoss | internal/api/ring_manager.go:61-65 | between two listings a placement loses nodes that have gone and, besides, at most one for each that has come |
| Breaker.CircuitBreaker.Admit | internal/api/storage_client.go:62-74 | the admission step: who is let through, and what becomes of the breaker |
| Breaker.CircuitBreaker.Complete | internal/api/storage_client.go:76-91 | the completion step for success and failure |
| Breaker.AlwaysConsistent | internal/api/storage_client.go:59-93 | in every interleaving: `failures` is the current run of failed completions, closed means fewer than three, and half-open means that the call that caused it is still in flight and the last failure is older than the cool-down |
| Breaker.RefusedIff | internal/api/storage_client.go:62-72 | a call is refused if and only if the last three finished operations failed and the last failure is at most 30 000 000 000 ns old |
| Breaker.HalfOpenAdmitsAll | internal/api/storage_client.go:63-74 | while half-open every further call is admitted beside the prober |
| Breaker.TwoProbesAtOnce | internal/api/storage_client.go:63-74 | a run after which two calls probe one half-open breaker |
| Breaker.ProbeRateBound | internal/api/storage_client.go:62-86 | serial calls to a node that always fails attempt at most three operations plus one per 30 s after the third failure |
| Membership.ClusterFSM.Apply | pkg/raft/fsm.go:23-41 | joins, leaves, other commands and undecodable entries |
| Membership.ClusterFSM.GetNodes | pkg/raft/fsm.go:43-52 | lists every member once, in some order |
| Membership.ClusterFSM.Snapshot | pkg/raft/fsm.go:54-63 | the snapshot is a fresh table with the same entries, so later changes cannot reach it |
| Membership.ClusterFSM.Restore | pkg/raft/fsm.go:65-76 | replaces the table by a fresh one, or leaves it on a decoding error |
| Membership.Recover | pkg/raft/fsm.go:54-88 | a machine restored from a snapshot that is written out late, then fed the rest of the log, equals the original |
| Membership.ReplaySplit | pkg/raft/fsm.go:23-76 | restoring at any cut and applying the rest equals applying the whole log |
| Membership.MemberIff | pkg/raft/fsm.go:31-40 | an address is a member if and only if a `node_join` of it has no later `node_leave` |
| Membership.RebuildRing | internal/api/ring_manager.go:62-65 | the ring is the one rebuilt from the list, in its order, and its members are the listed addresses |
| Membership.ActiveAddresses | internal/api/ring_manager.go:53-57 | the indices picked in row order give exactly the addresses of the active rows, and are as many as these rows |
| Membership.RingManager.Sync | internal/api/ring_manager.go:36-84 | without any listing nothing changes; else a fresh ring of 50 keys for each distinct node, built on the cluster's list, or else on the addresses of exactly the active rows in row order; the count is that of the listed or active ones, and degraded means below the quorum size |
| Membership.GatewaysAgree | pkg/raft/fsm.go:43-52 | any two listings of the same replicated state give the same ring |
| Membership.TwoGateways | internal/api/ring_manager.go:36-84 | two gateways that sync from the same machine answer every lookup alike |
| Cluster.StorageNodes.GetChunk | internal/storage/disk.go:60-84 | one logged call; success returns the node's file, and without a fault it fails only if there is none |
| Cluster.StorageNodes.SaveOne | internal/storage/disk.go:22-58 | one logged call; success stores the bytes; failure may leave anything in that one file; it fails only for a fault or an empty hash |
| Cluster.StorageNodes.DeleteChunk | internal/storage/disk.go:86-109 | one logged call; no file is left on success or without a fault; without a fault it succeeds exactly if there was a file; no other file changes |
| Cluster.StorageNodes.SaveChunk | internal/api/storage_client.go:129-166 | one save per address; every address ends in exactly one of the two results, and in the one that the outcome of its own save in the call log has earned; saved nodes hold the data; each failed save of a nonempty hash is one fault |
| Cluster.SavingsOf | internal/api/storage_client.go:150-165 | for distinct addresses the results are read off the call log: each node was asked once, the saved ones are those that said yes, and there are as many failures as nodes not saved to |
| Cluster.PartitionDistinct | internal/api/storage_client.go:150-165 | from distinct addresses the two results are disjoint and without repeats |
| Tables.CompletedConserves | internal/db/object_repo.go:158-211 | completion conserves: the object's rows are exactly the moved parts, its size is their sum, other objects keep their rows, and nothing temporary is left |
| Tables.NoPartsLeft | migrations/000002_multipart.up.sql:8-15 | the cascade removes all parts of this upload and none of another |
| Repository.Database.CreateObject | internal/db/object_repo.go:30-40 | one new object row, or no change |
| Repository.Database.CreateChunk | internal/db/object_repo.go:42-66 | one new chunk row with all of its locations, or no change; without a fault it fails only for the constraints |
| Repository.Database.AddChunkLocation | internal/db/object_repo.go:263-270 | adds one address once |
| Repository.Database.RemoveChunkLocation | internal/db/object_repo.go:272-275 | removes one address |
| Repository.Database.GetAllChunks | internal/db/object_repo.go:238-261 | each row that has a location, once, as stored |
| Repository.Database.GetChunksByObjectID | internal/db/object_repo.go:88-110 | the object's rows that have a location, each once, in ascending order of index |
| Repository.Database.CreateMultipartChunk | internal/db/object_repo.go:213-236 | one new part with its locations, or no change; without a fault it fails only for the constraints |
| Repository.InsertChunksOfParts | internal/db/object_repo.go:186-203 | the rows of the parts, each joined with the locations of the same part number, and the sum of their sizes |
| Repository.Database.CompleteMultipartUpload | internal/db/object_repo.go:158-211 | all or nothing: the upload becomes an object with a one-to-one row for each part, or the tables are unchanged |
| Rebalancer.Fetch | internal/api/rebalancer.go:73-86 | asks recorded nodes, in any order, up to the first that answers, and returns its data; none only if every recorded node has been asked and failed, which takes at least one fault for each of them that has the file |
| Rebalancer.Record | internal/api/rebalancer.go:92-97 | each node that took a copy is recorded unless its own statement fails; the next ones are tried all the same |
| Rebalancer.Fill | internal/api/rebalancer.go:88-98 | each missing node is asked once; `saved` are exactly those whose save succeeded, and they hold the data; the recorded ones are all of these but one for each failed statement |
| Rebalancer.Retire | internal/api/rebalancer.go:100-107 | each obsolete node is told to delete once, and its record goes even if that fails; records stay only for failed statements; no other file or record changes |
| Rebalancer.RebalanceRow | internal/api/rebalancer.go:38-107 | a pass over a row skips it or sets its nodes to (current and expected) plus recorded saves; the call log says who was asked, saved to and deleted from, in this order, and every expected node whose save succeeded is recorded unless a statement failed; without failures the saves are all missing nodes and obsolete files are gone |
| Rebalancer.SavesRecorded | internal/api/rebalancer.go:88-98 | in a row that was moved without a failed statement, every node whose save succeeded is recorded at the end, however the other calls have ended |
| Rebalancer.RetainedUntouched | internal/api/rebalancer.go:51-107 | corollary of the contract of RebalanceRow: replicas both recorded and expected stay recorded with untouched files, other chunks' files are untouched, and nothing outside both sets gets recorded |
| Rebalancer.NeverFarther | internal/api/rebalancer.go:51-107 | corollary of the contract of RebalanceRow: the difference between recorded and expected nodes never grows |
| Rebalancer.StaysBacked | internal/api/rebalancer.go:73-107 | if every recorded replica is good before, every one is after, whatever remote calls fail |
| Rebalancer.SurvivesIff | internal/api/rebalancer.go:83-107 | a row cannot lose its last record, whatever calls fail, if and only if it shares a node with the expected placement or none of its replicas is readable |
| Rebalancer.KeepsContentIff | internal/api/rebalancer.go:73-107 | a row with a good replica keeps one, whatever remote calls fail, if and only if a node that is recorded and expected holds a good file |
| Rebalancer.CalmKeepsContentIff | internal/api/rebalancer.go:73-107 | when nothing fails it keeps one if and only if that holds, or a node is missing and every readable replica is good |
| SharedDigests.CalmRun | internal/api/rebalancer.go:35-108 | rows of one digest handled in any order without failures: what is recorded stays good unless a handled row has retired it |
| SharedDigests.SafeRowSettles | internal/api/rebalancer.go:35-108 | a safe row ends exactly at its expected nodes, each replica good |
| SharedDigests.UnsafeRowOrphaned | internal/api/rebalancer.go:73-107 | a row that is not safe, handled last, ends recorded only on nodes that have no file, though nothing has failed |
| SharedDigests.SafeRowIff | internal/api/rebalancer.go:35-108 | in every order of handling without failures a row keeps a good replica if and only if it shares a node with its placement or has a node that no other row of the digest records |
| SharedDigests.AnchorIff | internal/api/rebalancer.go:35-108 | whatever remote calls fail, in every order, a row keeps a good replica if and only if one of its nodes is expected and recorded for every row of the digest |
| RebalanceRuns.RebalancePass | internal/api/rebalancer.go:35-108 | whole passes, row after row, with all calls and failed statements accounted for: whatever fails, every row moves toward its placement or stays and no file on an anchor of its digest is touched; a row alone with its digest keeps its replicas good; without failures every safe row of a digest with good replicas ends at its placement, all replicas good; at the placement no remote call is made |
| RebalanceRuns.RowConverges | internal/api/rebalancer.go:38-107 | a row whose replicas are readable ends at its expected nodes when nothing fails |
| RebalanceRuns.TwoPasses | internal/api/rebalancer.go:35-108 | after a first pass without failures over safe rows, also rows that share digests, the second issues no remote call |
| RebalanceRuns.ChangesThenPass | internal/api/rebalancer.go:38-107 | with the ring rebuilt from another listing, a pass leaves all replicas recorded and untouched but those on nodes that have gone and at most one for each node that has come |
| RebalanceRuns.SingleChangeSafety | internal/api/rebalancer.go:38-107 | a chunk stored with a quorum keeps at least half its replication factor of recorded, untouched replicas over one join or leave of the listing, and a leave costs it only the replica on the node that has left |
| Content.OpenUndoesSeal | internal/crypto/aes.go:11-51 | decrypting and decompressing undoes compressing and encrypting, for every nonce |
| Content.ServeFirst | internal/api/object_handler.go:217-248 | a row is served from the first of its nodes, in listed order, whose answer opens to bytes of the digest, and stays unserved only if there is none |
| Content.Integrity | internal/api/object_handler.go:206-262 | whatever the replicas answer, the response is all of the listed content if every row can be served, and otherwise a prefix of whole chunks followed by the text `all replicas failed or corrupted` and a newline, with status 500 only if nothing was written |
| Content.LeaverGetsPrefix | internal/api/object_handler.go:250-260 | a client that goes away after some chunks has got exactly those chunks of the listed content, without the error text |
| Content.DownloadDelivers | internal/api/object_handler.go:213-261 | one good replica of each listed row is enough for all listed content |
| Content.ListedIndices | internal/db/object_repo.go:89-95 | exactly the rows with a location are listed |
| Content.CompleteListing | internal/db/object_repo.go:88-110 | with a location for every chunk the listing is all indices in ascending order |
| Content.RoundTrip | internal/api/object_handler.go:206-262 | an object with one good recorded replica of each chunk is delivered whole and in order |
| Content.QuorumDurability | internal/api/object_handler.go:217-248 | with chunks on q nodes, any q-1 nodes may be down or lie |
| Storing.QuorumsMeet | internal/api/object_handler.go:117 | a quorum is a majority of the replication factor, so two quorums of a placement share a node |
| Storing.StoreChunk | internal/api/object_handler.go:90-132 | no save without a nonce or a placement; otherwise one save on each node of the placement, and the chunk counts as stored if and only if at least a quorum of them succeeded, however the others ended; the nodes that took it hold a ciphertext of it |
| Storing.ReadChunks | internal/api/object_handler.go:82-143 | the chunks concatenate to the body, none is empty, and all but the last are full |
| Storing.SplitUnique | internal/api/object_handler.go:82-143 | there is only one such division of a body |
| Saves.AllOkSealed | internal/storage/disk.go:44-55 | in every order of saves, a file all of whose saves have succeeded holds a ciphertext of a chunk with its digest |
| Saves.OtherDigests | internal/api/object_handler.go:79-148 | an upload touches no file under a digest that its body does not have |
| Saves.GoodUnlessFailed | internal/storage/disk.go:44-55 | a good file can only be spoilt by a save that fails on it |
| Saves.FailureNeedsRoom | internal/api/object_handler.go:115-121 | a save may fail in an upload that has all its quorums only where the placement has more nodes than a quorum |
| Saves.FitsKept | internal/api/object_handler.go:90-132 | if every repeated digest has no more nodes than a quorum, or no save fails, all recorded nodes hold their chunks |
| Saves.SpoilingRun | internal/api/object_handler.go:90-132 | the failing run: a quorum for both of two equal chunks, and a recorded file left empty |
| Saves.DurableIff | internal/api/object_handler.go:109-125 | after every 201 all recorded nodes hold their chunks, and fewer nodes than a quorum may fail, if and only if no 201 is possible or each repeated digest has no more nodes in its placement than a quorum |
| Saves.StoredReplicaIff | internal/api/object_handler.go:109-125 | a replica stored earlier stays good through every upload with its digest that answers 201 if and only if no 201 is possible, its node is outside the present placement, or the placement has no more nodes than a quorum; through every upload if and only if its node is outside |
| UploadJobs.StoreAll | internal/api/object_handler.go:79-148 | for every interleaving of the jobs and of their saves: files, call log and faults are what the trace of saves makes of them; every job whose cipher works saves to its whole placement; success if and only if every chunk was sealed, had a placement, and had a quorum of successful saves, so that with a positive quorum it equals `Answers201` of the trace; one entry per chunk with its digest, size and the nodes where its saves succeeded |
| UploadJobs.QuorateIsStored | internal/api/object_handler.go:116-130 | a quorum of successful saves for every chunk is enough, whatever other saves have failed |
| UploadJobs.CalmIsStored | internal/api/object_handler.go:79-148 | if no save fails for a fault, the ring offers enough nodes and the cipher works, the chunks are stored |
| ObjectHandler.RecordChunks | internal/api/object_handler.go:156-161 | one row for each entry up to the first failed transaction, whose predecessors stay; no other row touched |
| ObjectHandler.SaveMetadata | internal/api/object_handler.go:150-161 | the object row and chunk rows that describe the upload and record where its saves succeeded; it fails exactly for a database failure or an index beyond the column's range, and leaves then at most the rows before the failure |
| ObjectHandler.Upload | internal/api/object_handler.go:45-171 | 201 if and only if the body was read, every chunk was sealed and has its quorum, the database did not fail, and there are at most 2^31 chunks, so that the last index fits its column; then the tables describe the body's chunks, each on exactly the nodes where the trace of saves succeeded; otherwise 500, with the tables unchanged or, after a database failure, some of these rows; files, call log and faults are what the trace makes of them, whatever the answer |
| ObjectHandler.UploadOnDisk | internal/api/object_handler.go:45-171 | after a 201 all recorded nodes hold their chunks, repeated ones included, if repeated digests have no more nodes than a quorum or no save failed |
| ObjectHandler.FetchChunk | internal/api/object_handler.go:213-248 | the first answer that decrypts, decompresses and has the right digest (see `ServeFirst`) |
| ObjectHandler.WriteChunks | internal/api/object_handler.go:206-262 | the response for all answers, including the late error text under status 200 and a client that stops reading |
| ObjectHandler.Download | internal/api/object_handler.go:173-264 | ownership, missing objects, database failures, and otherwise the response that the listing and the answers decide |
| ObjectHandler.UploadRoundTrip | internal/api/object_handler.go:45-264 | after a 201, a download with one good replica per chunk writes exactly the body |
| ObjectHandler.UploadDurability | internal/api/object_handler.go:109-125 | after a 201, under the condition of DurableIff or without failed saves, any nodes fewer than a quorum may fail or lie and the body is still delivered |
| ObjectHandler.UploadThenDownload | internal/api/object_handler.go:45-264 | both of these for the two handlers in sequence, which succeed if the chunks can be stored and nothing fails |
| Multipart.UploadPart | internal/api/object_handler.go:348-398 | what is kept of a part is its body, or the first `chunkSizeMB * 1048576 + 1024` bytes of a longer one; 400 if and only if nothing could be read, 503 if and only if the ring has no node for it, 200 if and only if it was sealed, at least a quorum of the saves succeeded and the database accepts it; a 200 adds exactly the part on the nodes that took it, any other status leaves the tables alone; no file but the part's own is touched |
| Multipart.CompletedDescribes | internal/db/object_repo.go:158-211 | the object holds under each index what the part of that number held |
| Multipart.NextPart | internal/api/object_handler.go:348-398 | a part more: the parts stored before are still held by their nodes, equal ones included under the condition of DurableIff |
| Multipart.SortParts | internal/db/object_repo.go:88-110 | parts with distinct numbers, in ascending order of number: each part once, with the bytes that are kept of it |
| Multipart.MultipartRoundTrip | internal/api/object_handler.go:348-410 | parts stored so far, completed, come back concatenated in ascending part number, and, under the condition of DurableIff or without failed saves, also with fewer nodes than a quorum down |
| Multipart.UploadParts | internal/api/object_handler.go:348-398 | any list of parts in any order, one request each; accepted only if the part numbers differ, and always if nothing fails and nothing is wrong with the parts |
| Multipart.MultipartLife | internal/api/object_handler.go:324-410 | create, store the parts in any order, complete, download: the response is the concatenation of the part bodies in ascending number, a body longer than `chunkSizeMB * 1048576 + 1024` bytes cut to its first so many; under the condition of DurableIff or without failed saves, also with fewer nodes than a quorum down or lying; it succeeds if nothing fails and nothing is wrong with the parts |
| Multipart.CompleteMultipart | internal/api/object_handler.go:400-410 | 200 with the completed object, or 500 and no change; without a fault it fails only for another user's or an unknown upload |
| Multipart.CompleteTwice | internal/db/object_repo.go:158-211 | a second completion fails and changes nothing |
| Lifecycle.UploadKeepsBacked | internal/api/object_handler.go:82-161 | an upload leaves every recorded replica of a digest good, those of older objects included, if no save has failed on a recorded file |
| Lifecycle.StillRecorded | internal/api/rebalancer.go:38-107 | over changes of the listing and one pass each chunk keeps a quorum of records less one for each node that has come or gone |
| Lifecycle.OneUpAfterChanges | internal/api/rebalancer.go:38-107 | some node that recorded a chunk is still expected and up, although nodes have come, gone, and gone down |
| Lifecycle.OneChangeSurvivable | internal/api/rebalancer.go:38-107 | after a leave the node that has left, and fewer others than a quorum less one, may be down; after a join, fewer than a quorum less one |
| Lifecycle.CommandIsChange | pkg/raft/fsm.go:31-40 | a committed join or leave is that change of the members |
| Lifecycle.ObjectSurvives | internal/api/rebalancer.go:38-107 | the object is still delivered whole while nodes that have left, and others within the margin of the quorum, are down or lie |
| Lifecycle.Live | internal/api/object_handler.go:45-264 | upload, any committed commands, the ring rebuilt, one pass with any remote failures, download with nodes down: the upload succeeds if the chunks can be stored and nothing fails, and then the body comes back, if nobody else writes the object's retained files, or nothing failed and the older replicas of its own digests were good |
| Counterexamples.LastRecordLost | internal/api/rebalancer.go:83-107 | an uploaded chunk whose nodes are all replaced, and whose last record goes when the saves fail |
| Counterexamples.SharedFileLost | internal/api/rebalancer.go:73-107 | one file uploaded twice with two 201s, all nodes replaced, nothing failing: the second row is recorded only where there is no file |
| Counterexamples.CorruptionSpreads | internal/api/rebalancer.go:73-107 | one good and one corrupt replica, one join, nothing failing: only corrupt copies are left |
| Counterexamples.RepeatedChunkLost | internal/api/object_handler.go:90-132 | two equal chunks on three nodes: a 201 after which one node down loses a chunk |

## Left out

- HTTP, gRPC, connection caching, timeouts and tracing: foreign calls; a remote call is a possible failure with an effect on a node's files.
- AES-GCM and snappy internals, SHA-256: parameters; nothing but the law stated in `Content.Lawful` is used.
- Raft consensus, elections and the log store: the model starts from a committed log; JSON coding of commands and snapshots is taken to round-trip.
- PostgreSQL isolation and SQL text: a transaction is one step; identifiers are new numbers; sizes are unbounded integers.
- The Delete handler: it deletes files by digest without a reference count, also those that another object's rows still name.
- Authentication, configuration, metrics, health checks, node registration, listing of objects, web pages: plumbing.
- Races on unlocked reads of the ring manager's ring field: each ring operation is atomic and a request sees one ring.
- Load balance and expected numbers of moved chunks: probabilistic, not decided by the code.
- StoreAll: a save of one file is one step, so that two writes to the same file do not mix their bytes.
- UploadPart: takes the part number as a number; the parsing of the path text, which turns text without digits into part zero, is not modelled.
- UploadParts: stores the parts one request after the other with one ring, and gives up at the first part that is not accepted.
- RebalanceRow: takes the row as stored; rows that are deleted while the pass runs are not modelled.
- RebalancePass: keeps the ring fixed during a pass.
- Live: has no other request running between the upload and the download, and one pass of the rebalancer.
- ProbeRateBound: is about serial calls only; calls in flight at the third failure are not bounded by it.
- MultipartRoundTrip: treats the completion as one step; parts that arrive while it runs are not modelled.
