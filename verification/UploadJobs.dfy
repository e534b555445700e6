/** The chunk jobs of an upload (internal/api/object_handler.go:79-148), all running at once: a job hashes,
    seals and places its chunk, saves to all nodes of the placement at once, and counts. */
module UploadJobs {
  import opened Sequences
  import opened Ring
  import opened Cluster
  import opened Tables
  import opened Repository
  import opened Content
  import opened Storing
  import opened Saves

  /** What a finished chunk job leaves for the metadata. */
  datatype Meta = Meta(index: int, hash: string, size: int, nodes: seq<string>)

  function SpecOf(m: Meta): RowSpec {
    RowSpec(m.hash, m.size, Elements(m.nodes))
  }

  /** The rows to be that a list of finished jobs stands for. */
  function SpecsOf(metas: seq<Meta>): map<int, RowSpec> {
    if metas == [] then map[]
    else SpecsOf(metas[..|metas| - 1])[metas[|metas| - 1].index := SpecOf(metas[|metas| - 1])]
  }

  ghost predicate DistinctIndices(metas: seq<Meta>) {
    forall i, j :: 0 <= i < j < |metas| ==> metas[i].index != metas[j].index
  }

  function Sizes(chunks: seq<Bytes>): map<int, int> {
    map i | 0 <= i < |chunks| :: |chunks[i]|
  }

  lemma {:induction false} SizesTotal(chunks: seq<Bytes>)
    ensures Total(Sizes(chunks)) == |Flatten(chunks)|
  {
    if chunks == [] {
      NoEntries(Sizes(chunks));
    } else {
      var n := |chunks| - 1;
      SizesTotal(chunks[..n]);
      TotalInsert(Sizes(chunks[..n]), n, |chunks[n]|);
      assert Sizes(chunks) == Sizes(chunks[..n])[n := |chunks[n]|];
    }
  }

  /** The metadata collected so far: at most one entry for each of these jobs, exactly one if all went
      well, with distinct nodes, and summed up. */
  ghost predicate Collected(metas: seq<Meta>, total: int, done: set<int>, ok: bool) {
    && DistinctIndices(metas) && SpecsOf(metas).Keys <= done && (ok ==> SpecsOf(metas).Keys == done)
    && (forall j :: 0 <= j < |metas| ==> metas[j].index in SpecsOf(metas) && Distinct(metas[j].nodes))
    && total == Total(SpecSizes(SpecsOf(metas)))
  }

  lemma CollectOne(metas: seq<Meta>, total: int, done: set<int>, ok: bool, m: Meta)
    requires Collected(metas, total, done, ok) && m.index !in done && Distinct(m.nodes)
    ensures Collected(metas + [m], total + m.size, done + {m.index}, ok)
    ensures SpecsOf(metas + [m]) == SpecsOf(metas)[m.index := SpecOf(m)]
  {
    SnocInit(metas, m);
    SpecTotalInsert(SpecsOf(metas), m.index, SpecOf(m));
  }

  /** The jobs of an upload between two events: those that have not begun, those that wait for their saves,
      the saves in flight, the nodes that took a copy, and what the jobs share under the lock. */
  datatype Batch = Batch(waiting: set<nat>, running: set<nat>, inFlight: set<(nat, string)>,
                         saved: map<nat, seq<string>>, ok: bool, metas: seq<Meta>, totalSize: int)

  function JobsOf(chunks: seq<Bytes>): set<nat> {
    set i: nat | i in ContentOf(chunks)
  }

  /** The row to be of a finished job says where its saves have succeeded, and they are a quorum. */
  ghost predicate SpecFor(x: Site, chunk: Bytes, i: nat, spec: RowSpec, trace: seq<Save>) {
    && spec == RowSpec(x.codec.hash(chunk), |chunk|, SavedBy(trace, i))
    && |spec.nodes| >= Quorum(x.replicas) && PlacementOf(x, chunk) != []
    && TriedBy(trace, i) == Elements(PlacementOf(x, chunk))
  }

  ghost predicate JobWaits(x: Site, chunk: Bytes, i: nat, b: Batch, trace: seq<Save>) {
    && i in b.saved && Distinct(b.saved[i]) && Elements(b.saved[i]) == SavedBy(trace, i)
    && PlacementOf(x, chunk) != []
    && forall n :: n in PlacementOf(x, chunk) ==> (i, n) in b.inFlight || n in TriedBy(trace, i)
  }

  /** A save in flight belongs to a waiting job and has not ended before. */
  ghost predicate InFlight(x: Site, chunks: seq<Bytes>, running: set<nat>, s: (nat, string), trace: seq<Save>) {
    s.0 in running && s.0 < |chunks| && s.1 in PlacementOf(x, chunks[s.0]) && s.1 !in TriedBy(trace, s.0)
  }

  /** The nonces that the jobs draw; a job whose cipher fails draws none. */
  type Entropy = nat -> Option<Bytes>

  /** The job has tried all nodes of its placement, unless its cipher has failed. */
  ghost predicate JobEnded(x: Site, chunk: Bytes, i: nat, entropy: Entropy, trace: seq<Save>) {
    TriedBy(trace, i) == if entropy(i).Some? then Elements(PlacementOf(x, chunk)) else {}
  }

  /** The job has stored its chunk. */
  ghost predicate JobStored(x: Site, chunk: Bytes, i: nat, entropy: Entropy, trace: seq<Save>) {
    entropy(i).Some? && PlacementOf(x, chunk) != [] && |SavedBy(trace, i)| >= Quorum(x.replicas)
  }

  ghost predicate BatchInv(x: Site, chunks: seq<Bytes>, entropy: Entropy, nonces: seq<Bytes>, b: Batch,
                           trace: seq<Save>)
  {
    && IsTrace(x, chunks, nonces, trace) && b.waiting !! b.running && b.waiting + b.running <= JobsOf(chunks)
    && JobsInv(x, chunks, entropy, b, trace) && BooksInv(x, chunks, entropy, EndedOf(chunks, b), b, trace)
  }

  /** The jobs that have not ended. */
  ghost predicate JobsInv(x: Site, chunks: seq<Bytes>, entropy: Entropy, b: Batch, trace: seq<Save>) {
    && (forall i :: i in b.waiting ==> TriedBy(trace, i) == {})
    && (forall s :: s in b.inFlight ==> InFlight(x, chunks, b.running, s, trace))
    && (forall i :: i in b.running && i < |chunks| ==> entropy(i).Some? && JobWaits(x, chunks[i], i, b, trace))
  }

  /** The jobs that have ended, and what they have left under the lock. */
  ghost predicate BooksInv(x: Site, chunks: seq<Bytes>, entropy: Entropy, ended: set<nat>, b: Batch, trace: seq<Save>) {
    && Collected(b.metas, b.totalSize, ended, b.ok) && (b.ok ==> AllSpecs(x, chunks, SpecsOf(b.metas), trace))
    && Counted(x, chunks, entropy, ended, b.ok, trace)
  }

  /** These jobs have ended, and the upload has failed exactly if one of them has not stored its chunk. */
  ghost predicate Counted(x: Site, chunks: seq<Bytes>, entropy: Entropy, ended: set<nat>, ok: bool, trace: seq<Save>) {
    && (forall i :: i in ended && i < |chunks| ==> JobEnded(x, chunks[i], i, entropy, trace))
    && (ok <==> forall i :: i in ended && i < |chunks| ==> JobStored(x, chunks[i], i, entropy, trace))
  }

  lemma CountOne(x: Site, chunks: seq<Bytes>, entropy: Entropy, ended: set<nat>, ok: bool, trace: seq<Save>, i: nat)
    requires Counted(x, chunks, entropy, ended, ok, trace) && i < |chunks|
    requires JobEnded(x, chunks[i], i, entropy, trace)
    ensures Counted(x, chunks, entropy, ended + {i}, ok && JobStored(x, chunks[i], i, entropy, trace), trace)
  {
  }

  function EndedOf(chunks: seq<Bytes>, b: Batch): set<nat> {
    JobsOf(chunks) - b.waiting - b.running
  }

  ghost predicate AllSpecs(x: Site, chunks: seq<Bytes>, specs: map<int, RowSpec>, trace: seq<Save>) {
    forall i: nat :: i in specs && i < |chunks| ==> SpecFor(x, chunks[i], i, specs[i], trace)
  }

  lemma Append(trace: seq<Save>, e: Save, i: nat)
    ensures TriedBy(trace + [e], i) == TriedBy(trace, i) + if e.job == i then {e.node} else {}
    ensures SavedBy(trace + [e], i) == SavedBy(trace, i) + if e.job == i && e.ok then {e.node} else {}
  {
  }

  // ---- the three kinds of event ----

  function Begun(b: Batch, i: nat, placement: seq<string>): Batch {
    b.(waiting := b.waiting - {i}, running := b.running + {i}, saved := b.saved[i := []],
       inFlight := b.inFlight + set n | n in placement :: (i, n))
  }

  /** A job that gives up before it has saved anything. */
  function GivenUp(b: Batch, i: nat): Batch {
    b.(waiting := b.waiting - {i}, ok := false)
  }

  function Landed(b: Batch, s: (nat, string), ok: bool): Batch
    requires s.0 in b.saved
  {
    b.(inFlight := b.inFlight - {s}, saved := if ok then b.saved[s.0 := b.saved[s.0] + [s.1]] else b.saved)
  }

  function Finished(codec: Codec, replicas: int, chunk: Bytes, b: Batch, i: nat): Batch
    requires i in b.saved
  {
    var nodes := b.saved[i];
    if |nodes| < Quorum(replicas) then b.(running := b.running - {i}, ok := false)
    else b.(running := b.running - {i}, totalSize := b.totalSize + |chunk|,
            metas := b.metas + [Meta(i, codec.hash(chunk), |chunk|, nodes)])
  }

  lemma GiveUpStep(x: Site, chunks: seq<Bytes>, entropy: Entropy, nonces: seq<Bytes>, b: Batch, trace: seq<Save>,
                   i: nat)
    requires BatchInv(x, chunks, entropy, nonces, b, trace) && i in b.waiting
    ensures i < |chunks|
    ensures entropy(i).None? || PlacementOf(x, chunks[i]) == [] ==>
      BatchInv(x, chunks, entropy, nonces, GivenUp(b, i), trace)
  {
  }

  lemma BegunWait(x: Site, chunks: seq<Bytes>, b: Batch, trace: seq<Save>, i: nat, k: nat)
    requires k < |chunks| && if k == i then TriedBy(trace, k) == {} && PlacementOf(x, chunks[k]) != []
                             else JobWaits(x, chunks[k], k, b, trace)
    requires i < |chunks|
    ensures JobWaits(x, chunks[k], k, Begun(b, i, PlacementOf(x, chunks[i])), trace)
  {
    assert SavedBy(trace, k) <= TriedBy(trace, k);
  }

  lemma BegunInFlight(x: Site, chunks: seq<Bytes>, running: set<nat>, inFlight: set<(nat, string)>, trace: seq<Save>,
                      i: nat)
    requires i < |chunks| && TriedBy(trace, i) == {}
    requires forall s :: s in inFlight ==> InFlight(x, chunks, running, s, trace)
    ensures forall s :: s in inFlight + (set n | n in PlacementOf(x, chunks[i]) :: (i, n)) ==>
      InFlight(x, chunks, running + {i}, s, trace)
  {
  }

  lemma BeginStep(x: Site, chunks: seq<Bytes>, entropy: Entropy, nonces: seq<Bytes>, b: Batch, trace: seq<Save>,
                  i: nat)
    requires BatchInv(x, chunks, entropy, nonces, b, trace) && i in b.waiting
    ensures i < |chunks|
    ensures entropy(i).Some? && PlacementOf(x, chunks[i]) != [] ==>
      BatchInv(x, chunks, entropy, nonces, Begun(b, i, PlacementOf(x, chunks[i])), trace)
  {
    assert i in ContentOf(chunks);
    var b' := Begun(b, i, PlacementOf(x, chunks[i]));
    assert EndedOf(chunks, b') == EndedOf(chunks, b);
    BegunInFlight(x, chunks, b.running, b.inFlight, trace, i);
    if entropy(i).Some? && PlacementOf(x, chunks[i]) != [] {
      forall k | k in b'.running && k < |chunks| ensures entropy(k).Some? && JobWaits(x, chunks[k], k, b', trace) {
        BegunWait(x, chunks, b, trace, i, k);
      }
    }
  }

  lemma TraceGrows(x: Site, chunks: seq<Bytes>, nonces: seq<Bytes>, trace: seq<Save>, e: Save)
    requires IsTrace(x, chunks, nonces, trace) && IsSave(x, chunks, nonces, e) && e.node !in TriedBy(trace, e.job)
    ensures IsTrace(x, chunks, nonces, trace + [e])
  {
  }

  lemma JobsWaitOn(x: Site, chunks: seq<Bytes>, b: Batch, trace: seq<Save>, e: Save, i: nat)
    requires i < |chunks| && JobWaits(x, chunks[i], i, b, trace) && e.job in b.saved && e.node !in TriedBy(trace, e.job)
    ensures JobWaits(x, chunks[i], i, Landed(b, (e.job, e.node), e.ok), trace + [e])
  {
    Append(trace, e, i);
    if e.job == i && e.ok {
      ElementsAppend(b.saved[i], e.node);
      assert SavedBy(trace, i) <= TriedBy(trace, i);
      assert e.node !in Elements(b.saved[i]);
    }
  }

  lemma SpecsStay(x: Site, chunks: seq<Bytes>, specs: map<int, RowSpec>, trace: seq<Save>, e: Save)
    requires AllSpecs(x, chunks, specs, trace) && e.job !in specs
    ensures AllSpecs(x, chunks, specs, trace + [e])
  {
  }

  /** A save of one job says nothing of the others. */
  lemma OthersStay(x: Site, chunk: Bytes, entropy: Entropy, trace: seq<Save>, e: Save, i: nat)
    requires e.job != i
    ensures JobEnded(x, chunk, i, entropy, trace + [e]) == JobEnded(x, chunk, i, entropy, trace)
    ensures JobStored(x, chunk, i, entropy, trace + [e]) == JobStored(x, chunk, i, entropy, trace)
  {
    Append(trace, e, i);
  }

  lemma CountStays(x: Site, chunks: seq<Bytes>, entropy: Entropy, ended: set<nat>, ok: bool, trace: seq<Save>, e: Save)
    requires Counted(x, chunks, entropy, ended, ok, trace) && e.job !in ended
    ensures Counted(x, chunks, entropy, ended, ok, trace + [e])
  {
    forall i | i in ended && i < |chunks|
      ensures JobEnded(x, chunks[i], i, entropy, trace + [e]) == JobEnded(x, chunks[i], i, entropy, trace)
      ensures JobStored(x, chunks[i], i, entropy, trace + [e]) == JobStored(x, chunks[i], i, entropy, trace)
    {
      OthersStay(x, chunks[i], entropy, trace, e, i);
    }
  }

  lemma LandStep(x: Site, chunks: seq<Bytes>, entropy: Entropy, nonces: seq<Bytes>, b: Batch, trace: seq<Save>, e: Save)
    requires BatchInv(x, chunks, entropy, nonces, b, trace) && (e.job, e.node) in b.inFlight
    requires IsSave(x, chunks, nonces, e)
    ensures e.job in b.saved && BatchInv(x, chunks, entropy, nonces, Landed(b, (e.job, e.node), e.ok), trace + [e])
  {
    assert InFlight(x, chunks, b.running, (e.job, e.node), trace);
    assert JobWaits(x, chunks[e.job], e.job, b, trace);
    var b', trace' := Landed(b, (e.job, e.node), e.ok), trace + [e];
    assert EndedOf(chunks, b') == EndedOf(chunks, b);
    TraceGrows(x, chunks, nonces, trace, e);
    CountStays(x, chunks, entropy, EndedOf(chunks, b), b.ok, trace, e);
    forall i | i in b'.waiting ensures TriedBy(trace', i) == {} {
      Append(trace, e, i);
    }
    forall s | s in b'.inFlight ensures InFlight(x, chunks, b'.running, s, trace') {
      assert InFlight(x, chunks, b.running, s, trace);
      Append(trace, e, s.0);
    }
    forall i | i in b'.running && i < |chunks| ensures entropy(i).Some? && JobWaits(x, chunks[i], i, b', trace') {
      JobsWaitOn(x, chunks, b, trace, e, i);
    }
    assert e.job !in SpecsOf(b.metas).Keys;
    if b.ok {
      SpecsStay(x, chunks, SpecsOf(b.metas), trace, e);
    }
  }

  lemma OthersWait(x: Site, chunks: seq<Bytes>, entropy: Entropy, nonces: seq<Bytes>, b: Batch, b': Batch,
                   trace: seq<Save>, i: nat)
    requires BatchInv(x, chunks, entropy, nonces, b, trace) && forall s :: s in b.inFlight ==> s.0 != i
    requires b'.waiting == b.waiting && b'.running == b.running - {i}
    requires b'.inFlight == b.inFlight && b'.saved == b.saved
    ensures JobsInv(x, chunks, entropy, b', trace)
  {
  }

  lemma FinishStep(x: Site, chunks: seq<Bytes>, entropy: Entropy, nonces: seq<Bytes>, b: Batch, trace: seq<Save>,
                   i: nat)
    requires BatchInv(x, chunks, entropy, nonces, b, trace) && i in b.running
    requires forall s :: s in b.inFlight ==> s.0 != i
    ensures i < |chunks| && i in b.saved
    ensures BatchInv(x, chunks, entropy, nonces, Finished(x.codec, x.replicas, chunks[i], b, i), trace)
  {
    assert i in ContentOf(chunks);
    assert JobWaits(x, chunks[i], i, b, trace);
    var b' := Finished(x.codec, x.replicas, chunks[i], b, i);
    OthersWait(x, chunks, entropy, nonces, b, b', trace, i);
    assert EndedOf(chunks, b') == EndedOf(chunks, b) + {i};
    FinishBooks(x, chunks, entropy, nonces, EndedOf(chunks, b), b, trace, i);
  }

  lemma FinishBooks(x: Site, chunks: seq<Bytes>, entropy: Entropy, nonces: seq<Bytes>, ended: set<nat>, b: Batch,
                    trace: seq<Save>, i: nat)
    requires IsTrace(x, chunks, nonces, trace) && i < |chunks| && JobWaits(x, chunks[i], i, b, trace)
    requires entropy(i).Some? && forall s :: s in b.inFlight ==> s.0 != i
    requires BooksInv(x, chunks, entropy, ended, b, trace) && i !in ended
    ensures BooksInv(x, chunks, entropy, ended + {i}, Finished(x.codec, x.replicas, chunks[i], b, i), trace)
  {
    JobEnds(x, chunks, entropy, nonces, b, trace, i);
    CountOne(x, chunks, entropy, ended, b.ok, trace, i);
    if |b.saved[i]| >= Quorum(x.replicas) {
      NewSpec(x, chunks, nonces, b, trace, i);
      OneMeta(x, chunks, ended, b, trace, i, Meta(i, x.codec.hash(chunks[i]), |chunks[i]|, b.saved[i]));
    }
  }

  lemma OneMeta(x: Site, chunks: seq<Bytes>, ended: set<nat>, b: Batch, trace: seq<Save>, i: nat, m: Meta)
    requires Collected(b.metas, b.totalSize, ended, b.ok) && (b.ok ==> AllSpecs(x, chunks, SpecsOf(b.metas), trace))
    requires i !in ended && i < |chunks| && m.index == i && Distinct(m.nodes)
    requires SpecFor(x, chunks[i], i, SpecOf(m), trace)
    ensures Collected(b.metas + [m], b.totalSize + m.size, ended + {i}, b.ok)
    ensures b.ok ==> AllSpecs(x, chunks, SpecsOf(b.metas + [m]), trace)
  {
    CollectOne(b.metas, b.totalSize, ended, b.ok, m);
    if b.ok {
      SpecsGrow(x, chunks, SpecsOf(b.metas), trace, i, SpecOf(m));
    }
  }

  /** A job whose saves have all ended has stored its chunk exactly if they are a quorum. */
  lemma JobEnds(x: Site, chunks: seq<Bytes>, entropy: Entropy, nonces: seq<Bytes>, b: Batch, trace: seq<Save>, i: nat)
    requires IsTrace(x, chunks, nonces, trace) && i < |chunks| && JobWaits(x, chunks[i], i, b, trace)
    requires entropy(i).Some? && forall s :: s in b.inFlight ==> s.0 != i
    ensures JobEnded(x, chunks[i], i, entropy, trace)
    ensures JobStored(x, chunks[i], i, entropy, trace) <==> |b.saved[i]| >= Quorum(x.replicas)
  {
    DistinctSize(b.saved[i]);
    SavedWithin(x, chunks, nonces, trace, i);
    forall n | n in PlacementOf(x, chunks[i]) ensures n in TriedBy(trace, i) {
      assert (i, n) in b.inFlight ==> (i, n).0 != i;
    }
  }

  lemma NewSpec(x: Site, chunks: seq<Bytes>, nonces: seq<Bytes>, b: Batch, trace: seq<Save>, i: nat)
    requires IsTrace(x, chunks, nonces, trace) && i < |chunks| && JobWaits(x, chunks[i], i, b, trace)
    requires (forall s :: s in b.inFlight ==> s.0 != i) && |b.saved[i]| >= Quorum(x.replicas)
    ensures SpecFor(x, chunks[i], i, SpecOf(Meta(i, x.codec.hash(chunks[i]), |chunks[i]|, b.saved[i])), trace)
  {
    DistinctSize(b.saved[i]);
    SavedWithin(x, chunks, nonces, trace, i);
    forall n | n in PlacementOf(x, chunks[i]) ensures n in TriedBy(trace, i) {
      assert (i, n) in b.inFlight ==> (i, n).0 != i;
    }
  }

  lemma SpecsGrow(x: Site, chunks: seq<Bytes>, specs: map<int, RowSpec>, trace: seq<Save>, i: nat, spec: RowSpec)
    requires AllSpecs(x, chunks, specs, trace) && i < |chunks| && SpecFor(x, chunks[i], i, spec, trace)
    ensures AllSpecs(x, chunks, specs[i := spec], trace)
  {
  }

  // ---- the jobs ----

  /** What is in the file after a save, and so what the save has done. */
  ghost function LeftAt(files: Files, node: string, hash: string): Option<Bytes> {
    if (node, hash) in files then Some(files[(node, hash)]) else None
  }

  lemma SaveLeaves(files: Files, files': Files, node: string, hash: string)
    requires OnlyTouched(files, files', {node}, hash)
    ensures files' == Leave(files, node, hash, LeftAt(files', node, hash))
  {
    var after := Leave(files, node, hash, LeftAt(files', node, hash));
    forall k: (string, string) ensures SameAt(files', after, k) {
      assert k != (node, hash) ==> SameAt(files, files', k);
    }
    assert files'.Keys == after.Keys by {
      forall k: (string, string) ensures k in files' <==> k in after {
        assert SameAt(files', after, k);
      }
    }
    forall k | k in files' ensures files'[k] == after[k] {
      assert SameAt(files', after, k);
    }
  }

  lemma FilesAfterOne(files: Files, trace: seq<Save>, e: Save)
    ensures FilesAfter(files, trace + [e]) == Leave(FilesAfter(files, trace), e.node, e.hash, e.left)
  {
  }

  /** The calls that the saves are. */
  ghost function CallsOf(trace: seq<Save>): (made: seq<Call>)
    ensures |made| == |trace|
    ensures forall k :: 0 <= k < |trace| ==> made[k] == Saved(trace[k].node, trace[k].hash, trace[k].ok)
  {
    seq(|trace|, k requires 0 <= k < |trace| => Saved(trace[k].node, trace[k].hash, trace[k].ok))
  }

  /** The saves that the network has failed. */
  ghost function FailedSaves(trace: seq<Save>): set<nat> {
    set k: nat | k < |trace| && !trace[k].ok && trace[k].hash != ""
  }

  lemma OneSaveMore(trace: seq<Save>, e: Save)
    ensures CallsOf(trace + [e]) == CallsOf(trace) + [Saved(e.node, e.hash, e.ok)]
    ensures |FailedSaves(trace + [e])| == |FailedSaves(trace)| + if e.ok || e.hash == "" then 0 else 1
  {
    var before, after, n := FailedSaves(trace), FailedSaves(trace + [e]), |trace|;
    assert forall k: nat :: k < n ==> (trace + [e])[k] == trace[k];
    if e.ok || e.hash == "" {
      assert after == before;
    } else {
      assert after == before + {n};
    }
  }

  /** The part of a job before its saves. */
  method BeginJob(ring: HashRing, codec: Codec, chunks: seq<Bytes>, replicas: int, entropy: Entropy, b: Batch, i: nat,
                  ghost nonces: seq<Bytes>, ghost trace: seq<Save>)
    returns (b': Batch)
    requires ring.Valid() && i in b.waiting
    requires BatchInv(Site(codec, ring.cfg, ring.State(), replicas), chunks, entropy, nonces, b, trace)
    ensures b'.waiting == b.waiting - {i}
    ensures BatchInv(Site(codec, ring.cfg, ring.State(), replicas), chunks, entropy, nonces, b', trace)
  {
    ghost var x := Site(codec, ring.cfg, ring.State(), replicas);
    BeginStep(x, chunks, entropy, nonces, b, trace, i);
    GiveUpStep(x, chunks, entropy, nonces, b, trace, i);
    var hash := codec.hash(chunks[i]);
    if entropy(i).None? {
      return GivenUp(b, i);
    }
    var nodeAddresses := ring.GetNodes(hash, replicas);
    if |nodeAddresses| == 0 {
      return GivenUp(b, i);
    }
    return Begun(b, i, nodeAddresses);
  }

  /** One save of one job ends. */
  method LandSave(cluster: StorageNodes, codec: Codec, chunks: seq<Bytes>, b: Batch, s: (nat, string),
                  nonces: seq<Bytes>, ghost entropy: Entropy, ghost x: Site, ghost trace: seq<Save>)
    returns (b': Batch, ghost e: Save)
    requires x.codec == codec && BatchInv(x, chunks, entropy, nonces, b, trace) && s in b.inFlight
    modifies cluster
    ensures b'.waiting == b.waiting && b'.inFlight == b.inFlight - {s}
    ensures BatchInv(x, chunks, entropy, nonces, b', trace + [e])
    ensures cluster.files == Leave(old(cluster.files), e.node, e.hash, e.left)
    ensures cluster.calls == old(cluster.calls) + [Saved(e.node, e.hash, e.ok)]
    ensures cluster.faults == old(cluster.faults) + if e.ok || e.hash == "" then 0 else 1
  {
    assert InFlight(x, chunks, b.running, s, trace);
    assert JobWaits(x, chunks[s.0], s.0, b, trace);
    var hash := codec.hash(chunks[s.0]);
    var encrypted := codec.encrypt(nonces[s.0], codec.compress(chunks[s.0]));
    ghost var files := cluster.files;
    var ok := cluster.SaveOne(s.1, hash, encrypted);
    e := Save(s.0, hash, s.1, ok, LeftAt(cluster.files, s.1, hash));
    SaveLeaves(files, cluster.files, s.1, hash);
    assert IsSave(x, chunks, nonces, e);
    LandStep(x, chunks, entropy, nonces, b, trace, e);
    b' := Landed(b, s, ok);
  }

  /** A job all of whose saves have ended counts them. */
  method FinishJob(codec: Codec, chunks: seq<Bytes>, replicas: int, b: Batch, i: nat, ghost entropy: Entropy,
                   ghost nonces: seq<Bytes>, ghost x: Site, ghost trace: seq<Save>)
    returns (b': Batch)
    requires x.codec == codec && x.replicas == replicas && BatchInv(x, chunks, entropy, nonces, b, trace)
    requires i in b.running && forall s :: s in b.inFlight ==> s.0 != i
    ensures b'.waiting == b.waiting && b'.inFlight == b.inFlight && b'.running == b.running - {i}
    ensures BatchInv(x, chunks, entropy, nonces, b', trace)
  {
    FinishStep(x, chunks, entropy, nonces, b, trace, i);
    b' := Finished(codec, replicas, chunks[i], b, i);
  }

  lemma NothingBegun(x: Site, chunks: seq<Bytes>, entropy: Entropy, nonces: seq<Bytes>)
    requires |nonces| == |chunks|
    ensures var b := Batch(JobsOf(chunks), {}, {}, map[], true, [], 0);
      BatchInv(x, chunks, entropy, nonces, b, [])
  {
  }

  ghost predicate AllStored(x: Site, chunks: seq<Bytes>, entropy: Entropy, trace: seq<Save>) {
    forall i: nat :: i < |chunks| ==> JobStored(x, chunks[i], i, entropy, trace)
  }

  /** All jobs have ended, and the upload is a success exactly if each of them has stored its chunk. */
  ghost predicate AllEnded(x: Site, chunks: seq<Bytes>, entropy: Entropy, trace: seq<Save>, ok: bool) {
    && (forall i: nat :: i < |chunks| ==> JobEnded(x, chunks[i], i, entropy, trace))
    && (ok <==> AllStored(x, chunks, entropy, trace))
  }

  lemma BatchEnds(x: Site, chunks: seq<Bytes>, entropy: Entropy, nonces: seq<Bytes>, b: Batch, trace: seq<Save>)
    requires BatchInv(x, chunks, entropy, nonces, b, trace) && b.waiting == {} && b.running == {}
    ensures Collected(b.metas, b.totalSize, ContentOf(chunks).Keys, b.ok)
    ensures AllEnded(x, chunks, entropy, trace, b.ok) && (b.ok ==> Answers201(x, chunks, nonces, trace))
  {
    assert EndedOf(chunks, b) == ContentOf(chunks).Keys;
    forall i: nat | i < |chunks| ensures i in EndedOf(chunks, b) {
      assert i in ContentOf(chunks);
    }
  }

  /** Something has happened: the next of its measures has shrunk. */
  ghost predicate Later(b: Batch, b': Batch) {
    || b'.waiting < b.waiting
    || (b'.waiting == b.waiting && b'.inFlight < b.inFlight)
    || (b'.waiting == b.waiting && b'.inFlight == b.inFlight && b'.running < b.running)
  }

  /** What the trace so far has done to the nodes. */
  ghost predicate Traced(trace: seq<Save>, files: Files, files': Files, calls: seq<Call>, calls': seq<Call>,
                         faults: nat, faults': nat)
  {
    && files' == FilesAfter(files, trace) && calls' == calls + CallsOf(trace)
    && faults' == faults + |FailedSaves(trace)|
  }

  lemma TracedStep(trace: seq<Save>, e: Save, files: Files, files': Files, calls: seq<Call>, calls': seq<Call>,
                   faults: nat, faults': nat)
    requires Traced(trace, files, files', calls, calls', faults, faults')
    ensures Traced(trace + [e], files, Leave(files', e.node, e.hash, e.left), calls,
                   calls' + [Saved(e.node, e.hash, e.ok)], faults,
                   faults' + if e.ok || e.hash == "" then 0 else 1)
  {
    FilesAfterOne(files, trace, e);
    OneSaveMore(trace, e);
    Appended(calls, calls' + [Saved(e.node, e.hash, e.ok)], CallsOf(trace), [Saved(e.node, e.hash, e.ok)]);
  }

  /** The next event, whichever it is: a job begins, a save ends, or a job finishes. */
  method NextEvent(ring: HashRing, cluster: StorageNodes, codec: Codec, chunks: seq<Bytes>, replicas: int,
                   entropy: Entropy, b: Batch, nonces: seq<Bytes>, ghost x: Site, ghost files: Files,
                   ghost calls: seq<Call>, ghost faults: nat, ghost trace: seq<Save>)
    returns (b': Batch, ghost trace': seq<Save>)
    requires ring.Valid() && (b.waiting != {} || b.running != {})
    requires x == Site(codec, ring.cfg, ring.State(), replicas)
    requires Traced(trace, files, cluster.files, calls, cluster.calls, faults, cluster.faults)
    requires BatchInv(x, chunks, entropy, nonces, b, trace)
    modifies cluster
    ensures Later(b, b') && Traced(trace', files, cluster.files, calls, cluster.calls, faults, cluster.faults)
    ensures BatchInv(x, chunks, entropy, nonces, b', trace')
  {
    trace' := trace;
    if {
      case b.waiting != {} =>
        var i :| i in b.waiting;
        b' := BeginJob(ring, codec, chunks, replicas, entropy, b, i, nonces, trace);
      case b.inFlight != {} =>
        var s :| s in b.inFlight;
        ghost var files', calls', faults' := cluster.files, cluster.calls, cluster.faults;
        ghost var e;
        b', e := LandSave(cluster, codec, chunks, b, s, nonces, entropy, x, trace);
        TracedStep(trace, e, files, files', calls, calls', faults, faults');
        trace' := trace + [e];
      case exists i :: i in b.running && forall s :: s in b.inFlight ==> s.0 != i =>
        var i :| i in b.running && forall s :: s in b.inFlight ==> s.0 != i;
        b' := FinishJob(codec, chunks, replicas, b, i, entropy, nonces, x, trace);
    }
  }

  /** All chunk jobs at once.  The first failure fails the upload, but the other jobs go on.  The upload has
      stored its chunks exactly if every job could seal its chunk, had nodes for it, and had a quorum of
      successful saves, however the other saves have ended. */
  method StoreAll(ring: HashRing, cluster: StorageNodes, codec: Codec, chunks: seq<Bytes>, replicas: int,
                  entropy: Entropy)
    returns (ok: bool, metas: seq<Meta>, totalSize: int, ghost nonces: seq<Bytes>, ghost trace: seq<Save>)
    requires ring.Valid()
    modifies cluster
    ensures Collected(metas, totalSize, ContentOf(chunks).Keys, ok)
    ensures Traced(trace, old(cluster.files), cluster.files, old(cluster.calls), cluster.calls, old(cluster.faults),
                   cluster.faults)
    ensures
      var x := Site(codec, ring.cfg, ring.State(), replicas);
      && IsTrace(x, chunks, nonces, trace) && AllEnded(x, chunks, entropy, trace, ok)
      && (ok ==> Answers201(x, chunks, nonces, trace) && AllSpecs(x, chunks, SpecsOf(metas), trace))
      && (Quorum(replicas) >= 1 ==> (ok <==> Answers201(x, chunks, nonces, trace)))
  {
    ghost var x := Site(codec, ring.cfg, ring.State(), replicas);
    var drawn := seq(|chunks|, i requires 0 <= i < |chunks| => if entropy(i).Some? then entropy(i).value else []);
    var b := Batch(JobsOf(chunks), {}, {}, map[], true, [], 0);
    nonces, trace := drawn, [];
    NothingBegun(x, chunks, entropy, nonces);
    while b.waiting != {} || b.running != {}
      invariant BatchInv(x, chunks, entropy, drawn, b, trace)
      invariant Traced(trace, old(cluster.files), cluster.files, old(cluster.calls), cluster.calls,
                       old(cluster.faults), cluster.faults)
      decreases b.waiting, b.inFlight, b.running
    {
      b, trace := NextEvent(ring, cluster, codec, chunks, replicas, entropy, b, drawn, x, old(cluster.files),
                            old(cluster.calls), old(cluster.faults), trace);
    }
    BatchEnds(x, chunks, entropy, nonces, b, trace);
    if Quorum(replicas) >= 1 && Answers201(x, chunks, nonces, trace) {
      QuorateIsStored(x, chunks, entropy, nonces, trace, b.ok);
    }
    ok, metas, totalSize := b.ok, b.metas, b.totalSize;
  }

  lemma QuorateIsStored(x: Site, chunks: seq<Bytes>, entropy: Entropy, nonces: seq<Bytes>, trace: seq<Save>, ok: bool)
    requires AllEnded(x, chunks, entropy, trace, ok) && Answers201(x, chunks, nonces, trace) && Quorum(x.replicas) >= 1
    ensures ok
  {
    forall i: nat | i < |chunks| ensures JobStored(x, chunks[i], i, entropy, trace) {
      assert SavedBy(trace, i) <= TriedBy(trace, i);
      assert JobEnded(x, chunks[i], i, entropy, trace);
    }
  }

  /** The ring has enough nodes for every chunk and the cipher fails for none. */
  ghost predicate CanStore(x: Site, chunks: seq<Bytes>, entropy: Entropy) {
    AllFeasible(x, chunks) && forall i: nat :: i < |chunks| ==> entropy(i).Some?
  }

  /** If the network fails no save, an upload is a success wherever the ring offers enough nodes and the
      cipher works. */
  lemma CalmIsStored(x: Site, chunks: seq<Bytes>, entropy: Entropy, nonces: seq<Bytes>, trace: seq<Save>, ok: bool)
    requires IsTrace(x, chunks, nonces, trace) && AllEnded(x, chunks, entropy, trace, ok)
    requires CanStore(x, chunks, entropy) && FailedSaves(trace) == {}
    ensures ok
  {
    forall i: nat | i < |chunks| ensures JobStored(x, chunks[i], i, entropy, trace) {
      assert Feasible(x, chunks[i]) && JobEnded(x, chunks[i], i, entropy, trace);
      forall n | n in TriedBy(trace, i) ensures n in SavedBy(trace, i) {
        var e :| e in trace && e.job == i && e.node == n;
        assert IsSave(x, chunks, nonces, e);
        var k: nat :| k < |trace| && trace[k] == e;
        assert k !in FailedSaves(trace);
      }
      PlacementsAreDistinct(x, x.codec.hash(chunks[i]));
      SubsetSize(TriedBy(trace, i), SavedBy(trace, i));
    }
  }
}
