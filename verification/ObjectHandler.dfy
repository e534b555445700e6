/** The request handlers for whole objects of internal/api/object_handler.go: upload and download. */
module ObjectHandler {
  import opened Sequences
  import opened Ring
  import opened Cluster
  import opened Tables
  import opened Repository
  import opened Content
  import opened Storing
  import opened Saves
  import opened UploadJobs

  // ---- upload: the metadata ----

  /** No two rows to be of the object get in each other's way. */
  lemma IndexStillFree(t: Tables, t': Tables, objectId: nat, metas: seq<Meta>, j: nat, ids: map<int, nat>)
    requires DistinctIndices(metas) && j < |metas| && ChunksOf(t, objectId) == {}
    requires RowsInserted(t, t', objectId, SpecsOf(metas[..j]), ids)
    ensures metas[j].index !in SpecsOf(metas[..j])
    ensures forall c :: c in ChunksOf(t', objectId) ==> t'.chunks[c].index != metas[j].index
  {
    SpecIndices(metas[..j]);
    forall c | c in ChunksOf(t', objectId) ensures t'.chunks[c].index in SpecsOf(metas[..j]) {
      assert c !in ChunksOf(t, objectId);
      var i :| i in ids && ids[i] == c;
      assert RowFor(t, t', objectId, i, SpecsOf(metas[..j])[i], c);
    }
  }

  lemma {:induction false} SpecIndices(metas: seq<Meta>)
    ensures forall i :: i in SpecsOf(metas) ==> exists l :: 0 <= l < |metas| && metas[l].index == i
  {
    if metas != [] {
      var init := metas[..|metas| - 1];
      SpecIndices(init);
      forall i | i in SpecsOf(metas) ensures exists l :: 0 <= l < |metas| && metas[l].index == i {
        if i == metas[|metas| - 1].index {
          assert metas[|metas| - 1].index == i;
        } else {
          assert i in SpecsOf(init);
          var l :| 0 <= l < |init| && init[l].index == i;
          assert metas[l].index == i;
        }
      }
    }
  }

  ghost predicate Recordable(metas: seq<Meta>) {
    forall j :: 0 <= j < |metas| ==> IsColumnInt(metas[j].index) && Distinct(metas[j].nodes)
  }

  /** One chunk row and what it adds to the rows inserted so far. */
  method RecordOne(db: Database, objectId: nat, metas: seq<Meta>, j: nat, ghost t: Tables, ghost ids: map<int, nat>)
    returns (ok: bool, ghost ids': map<int, nat>)
    requires Valid(db.tables) && objectId in db.tables.objects && Untouched(t, db.tables)
    requires DistinctIndices(metas) && j < |metas| && ChunksOf(t, objectId) == {}
    requires RowsInserted(t, db.tables, objectId, SpecsOf(metas[..j]), ids)
    modifies db
    ensures Valid(db.tables) && Untouched(t, db.tables) && objectId in db.tables.objects
    ensures old(db.faults) <= db.faults <= old(db.faults) + if ok then 0 else 1
    ensures !ok ==> db.tables == old(db.tables)
    ensures !ok && Recordable(metas) ==> db.faults > old(db.faults)
    ensures ok ==> RowsInserted(t, db.tables, objectId, SpecsOf(metas[..j + 1]), ids')
  {
    var m := metas[j];
    ids' := ids;
    IndexStillFree(t, db.tables, objectId, metas, j, ids);
    ghost var before := db.tables;
    var id := db.CreateChunk(objectId, m.index, m.hash, m.size, m.nodes);
    ok := id.Some?;
    if ok {
      assert metas[..j + 1] == metas[..j] + [m];
      SnocInit(metas[..j], m);
      RowsInsertedStep(t, before, objectId, SpecsOf(metas[..j]), ids, m.index, SpecOf(m), id.value);
      ids' := ids[m.index := id.value];
    }
  }

  /** The chunk rows, one transaction each, in the order in which the jobs finished, up to the first failure;
      the rows before it stay. */
  method RecordChunks(db: Database, objectId: nat, metas: seq<Meta>)
    returns (written: nat, ghost ids: map<int, nat>)
    requires Valid(db.tables) && objectId in db.tables.objects && ChunksOf(db.tables, objectId) == {}
    requires DistinctIndices(metas)
    modifies db
    ensures Valid(db.tables) && Untouched(old(db.tables), db.tables) && ChunksKept(old(db.tables), db.tables)
    ensures written <= |metas| && RowsInserted(old(db.tables), db.tables, objectId, SpecsOf(metas[..written]), ids)
    ensures old(db.faults) <= db.faults <= old(db.faults) + if written == |metas| then 0 else 1
    ensures written < |metas| && Recordable(metas) ==> db.faults > old(db.faults)
  {
    ids := map[];
    ghost var t := db.tables;
    assert Image(ids) == {};
    for j := 0 to |metas|
      invariant Valid(db.tables) && objectId in db.tables.objects && Untouched(t, db.tables)
      invariant db.faults == old(db.faults)
      invariant RowsInserted(t, db.tables, objectId, SpecsOf(metas[..j]), ids)
    {
      ghost var before := ids;
      var ok;
      ok, ids := RecordOne(db, objectId, metas, j, t, ids);
      if !ok {
        return j, before;
      }
    }
    written := |metas|;
  }

  /** The object is what the upload of these chunks promises: its rows describe the chunks, each row names a
      quorum of the chunk's placement, and nothing else in the tables has changed. */
  ghost predicate Uploaded(x: Site, t: Tables, t': Tables, objectId: nat, row: ObjectRow, chunks: seq<Bytes>) {
    && objectId !in t.objects && t'.objects == t.objects[objectId := row] && row.size == |Flatten(chunks)|
    && Describes(x.codec, t', objectId, ContentOf(chunks)) && RecordedOn(t', objectId, Quorum(x.replicas))
    && Placed(x, t', objectId)
    && t'.chunks.Keys == t.chunks.Keys + ChunksOf(t', objectId)
    && ChunksKept(t, t') && t'.uploads == t.uploads && t'.parts == t.parts && t'.partLocations == t.partLocations
  }

  ghost predicate Placed(x: Site, t: Tables, objectId: nat) {
    forall c :: c in ChunksOf(t, objectId) ==>
      NodesOf(t, c) <= Elements(Place(x.st, x.cfg.hash(t.chunks[c].hash), x.replicas))
  }

  lemma RowOf(t: Tables, t': Tables, objectId: nat, specs: map<int, RowSpec>, ids: map<int, nat>, c: nat)
    requires Valid(t) && RowsInserted(t, t', objectId, specs, ids) && objectId !in t.objects
    requires c in ChunksOf(t', objectId)
    ensures var i := t'.chunks[c].index;
      && i in specs && t'.chunks[c].hash == specs[i].hash && t'.chunks[c].size == specs[i].size
      && NodesOf(t', c) == specs[i].nodes
  {
  }

  lemma RowAt(t: Tables, t': Tables, objectId: nat, specs: map<int, RowSpec>, ids: map<int, nat>, i: int)
    requires Valid(t) && RowsInserted(t, t', objectId, specs, ids) && objectId !in t.objects && i in specs
    ensures ids[i] in ChunksOf(t', objectId) && t'.chunks[ids[i]].index == i
  {
  }

  /** From rows to be to what the tables say of the object. */
  lemma RowsDescribe(codec: Codec, t: Tables, t': Tables, objectId: nat, specs: map<int, RowSpec>,
                     ids: map<int, nat>, content: map<int, Bytes>)
    requires Valid(t) && RowsInserted(t, t', objectId, specs, ids) && objectId !in t.objects
    requires specs.Keys == content.Keys
    requires forall i :: i in specs ==> specs[i].hash == codec.hash(content[i]) && specs[i].size == |content[i]|
    ensures Describes(codec, t', objectId, content)
    ensures forall c :: c in ChunksOf(t', objectId) ==>
      t'.chunks[c].index in specs && NodesOf(t', c) == specs[t'.chunks[c].index].nodes
  {
    forall c | c in ChunksOf(t', objectId)
      ensures var i := t'.chunks[c].index;
        && i in specs && t'.chunks[c].hash == specs[i].hash && t'.chunks[c].size == specs[i].size
        && NodesOf(t', c) == specs[i].nodes
    {
      RowOf(t, t', objectId, specs, ids, c);
    }
    forall i | i in content ensures exists c :: c in ChunksOf(t', objectId) && t'.chunks[c].index == i {
      RowAt(t, t', objectId, specs, ids, i);
    }
  }

  lemma RebaseRows(t: Tables, base: Tables, t': Tables, objectId: nat, specs: map<int, RowSpec>, ids: map<int, nat>)
    requires RowsInserted(base, t', objectId, specs, ids)
    requires base.chunks == t.chunks && base.locations == t.locations
    ensures RowsInserted(t, t', objectId, specs, ids)
  {
  }

  /** The rows of the object record where the saves of their chunks have succeeded. */
  ghost predicate RecordsSaves(t: Tables, objectId: nat, trace: seq<Save>) {
    forall c :: c in ChunksOf(t, objectId) && t.chunks[c].index >= 0 ==>
      NodesOf(t, c) == SavedBy(trace, t.chunks[c].index)
  }

  lemma RowsQuorate(x: Site, t': Tables, objectId: nat, chunks: seq<Bytes>, specs: map<int, RowSpec>,
                    nonces: seq<Bytes>, trace: seq<Save>)
    requires AllSpecs(x, chunks, specs, trace) && specs.Keys == ContentOf(chunks).Keys
    requires Describes(x.codec, t', objectId, ContentOf(chunks)) && IsTrace(x, chunks, nonces, trace)
    requires forall c :: c in ChunksOf(t', objectId) ==>
      t'.chunks[c].index in specs && NodesOf(t', c) == specs[t'.chunks[c].index].nodes
    ensures RecordedOn(t', objectId, Quorum(x.replicas)) && Placed(x, t', objectId)
    ensures RecordsSaves(t', objectId, trace)
  {
    forall c | c in ChunksOf(t', objectId)
      ensures |NodesOf(t', c)| >= Quorum(x.replicas) && NodesOf(t', c) == SavedBy(trace, t'.chunks[c].index)
      ensures NodesOf(t', c) <= Elements(Place(x.st, x.cfg.hash(t'.chunks[c].hash), x.replicas))
    {
      var i := t'.chunks[c].index;
      assert SpecFor(x, chunks[i], i, specs[i], trace);
      SavedWithin(x, chunks, nonces, trace, i);
    }
  }

  lemma SpecsMatch(x: Site, chunks: seq<Bytes>, specs: map<int, RowSpec>, trace: seq<Save>)
    requires AllSpecs(x, chunks, specs, trace) && specs.Keys == ContentOf(chunks).Keys
    ensures forall i :: i in specs ==>
      specs[i].hash == x.codec.hash(ContentOf(chunks)[i]) && specs[i].size == |ContentOf(chunks)[i]|
  {
  }

  lemma SpecsTotal(x: Site, chunks: seq<Bytes>, specs: map<int, RowSpec>, trace: seq<Save>)
    requires AllSpecs(x, chunks, specs, trace) && specs.Keys == ContentOf(chunks).Keys
    ensures Total(SpecSizes(specs)) == |Flatten(chunks)|
  {
    SizesTotal(chunks);
    assert SpecSizes(specs) == Sizes(chunks);
  }

  lemma UploadDone(x: Site, t: Tables, withObject: Tables, t': Tables, objectId: nat, row: ObjectRow,
                   chunks: seq<Bytes>, specs: map<int, RowSpec>, ids: map<int, nat>, nonces: seq<Bytes>,
                   trace: seq<Save>)
    requires Valid(t) && objectId !in t.objects && row.size == Total(SpecSizes(specs))
    requires withObject == t.(objects := t.objects[objectId := row])
    requires RowsInserted(withObject, t', objectId, specs, ids) && Untouched(withObject, t')
    requires AllSpecs(x, chunks, specs, trace) && specs.Keys == ContentOf(chunks).Keys
    requires IsTrace(x, chunks, nonces, trace)
    ensures Uploaded(x, t, t', objectId, row, chunks) && RecordsSaves(t', objectId, trace)
  {
    RebaseRows(t, withObject, t', objectId, specs, ids);
    OwnRows(t, t', objectId, specs, ids);
    SpecsMatch(x, chunks, specs, trace);
    RowsDescribe(x.codec, t, t', objectId, specs, ids, ContentOf(chunks));
    SpecsTotal(x, chunks, specs, trace);
    RowsQuorate(x, t', objectId, chunks, specs, nonces, trace);
  }

  /** The object row and the first so many of the chunk rows. */
  ghost predicate PartOfRows(t: Tables, t': Tables, row: ObjectRow, metas: seq<Meta>, id: nat, written: nat,
                             ids: map<int, nat>)
  {
    var withObject := t.(objects := t.objects[id := row]);
    && id !in t.objects && written < |metas|
    && RowsInserted(withObject, t', id, SpecsOf(metas[..written]), ids) && Untouched(withObject, t')
  }

  /** What an upload leaves in the tables that does not answer 201: nothing, or, if the database fails between
      its transactions, the object row and some of the rows that a success would have written, but not all. */
  ghost predicate UploadLeft(x: Site, t: Tables, t': Tables, row: ObjectRow, chunks: seq<Bytes>, trace: seq<Save>) {
    t' == t || exists metas, id: nat, written: nat, ids ::
      PartOfRows(t, t', row, metas, id, written, ids) && Metadata(x, metas, row, chunks, trace)
  }

  /** What the jobs of a stored upload have collected. */
  ghost predicate Metadata(x: Site, metas: seq<Meta>, row: ObjectRow, chunks: seq<Bytes>, trace: seq<Save>) {
    Collected(metas, row.size, ContentOf(chunks).Keys, true) && AllSpecs(x, chunks, SpecsOf(metas), trace)
  }

  lemma KeptBeside(t: Tables, withObject: Tables, t': Tables)
    requires withObject.chunks == t.chunks && withObject.locations == t.locations && ChunksKept(withObject, t')
    ensures ChunksKept(t, t')
  {
  }

  lemma MetasRecordable(x: Site, metas: seq<Meta>, row: ObjectRow, chunks: seq<Bytes>, trace: seq<Save>)
    requires Metadata(x, metas, row, chunks, trace)
    ensures |chunks| <= 0x8000_0000 ==> Recordable(metas)
  {
  }

  /** An index beyond the column's range has no row. */
  lemma IndicesFit(x: Site, t: Tables, t': Tables, objectId: nat, row: ObjectRow, chunks: seq<Bytes>)
    requires Valid(t') && Uploaded(x, t, t', objectId, row, chunks)
    ensures |chunks| <= 0x8000_0000
  {
    if chunks != [] {
      var last := |chunks| - 1;
      assert last in ContentOf(chunks);
      var c :| c in ChunksOf(t', objectId) && t'.chunks[c].index == last;
      assert IsColumnInt(t'.chunks[c].index);
    }
  }

  /** The second half of an upload, once all chunks are stored: the object row and its chunk rows. */
  method SaveMetadata(db: Database, row: ObjectRow, metas: seq<Meta>, ghost x: Site, ghost chunks: seq<Bytes>,
                      ghost nonces: seq<Bytes>, ghost trace: seq<Save>)
    returns (objectId: Option<nat>)
    requires Valid(db.tables) && Metadata(x, metas, row, chunks, trace) && IsTrace(x, chunks, nonces, trace)
    modifies db
    ensures Valid(db.tables) && ChunksKept(old(db.tables), db.tables)
    ensures old(db.faults) <= db.faults <= old(db.faults) + if objectId.Some? then 0 else 1
    ensures objectId.Some? <==> db.faults == old(db.faults) && |chunks| <= 0x8000_0000
    ensures objectId.None? ==> UploadLeft(x, old(db.tables), db.tables, row, chunks, trace)
    ensures objectId.Some? ==>
      && Uploaded(x, old(db.tables), db.tables, objectId.value, row, chunks)
      && RecordsSaves(db.tables, objectId.value, trace)
  {
    ghost var t := db.tables;
    objectId := db.CreateObject(row.userId, row.name, row.contentType, row.size);
    if objectId.None? {
      return;
    }
    ghost var withObject := db.tables;
    assert ChunksOf(withObject, objectId.value) == {};
    var written;
    ghost var ids;
    written, ids := RecordChunks(db, objectId.value, metas);
    KeptBeside(t, withObject, db.tables);
    if written < |metas| {
      MetasRecordable(x, metas, row, chunks, trace);
      assert PartOfRows(t, db.tables, row, metas, objectId.value, written, ids);
      return None;
    }
    assert metas[..written] == metas;
    UploadDone(x, t, withObject, db.tables, objectId.value, row, chunks, SpecsOf(metas), ids, nonces, trace);
    IndicesFit(x, t, db.tables, objectId.value, row, chunks);
  }

  // ---- upload ----

  /** What went on during an upload: the chunks, the nonces drawn for them, and the saves in order. */
  datatype UploadRun = UploadRun(chunks: seq<Bytes>, nonces: seq<Bytes>, trace: seq<Save>)

  ghost predicate IsUploadRun(x: Site, run: UploadRun, files: Files, files': Files) {
    IsTrace(x, run.chunks, run.nonces, run.trace) && files' == FilesAfter(files, run.trace)
  }

  lemma CalmTrace(trace: seq<Save>)
    requires |FailedSaves(trace)| == 0
    ensures FailedSaves(trace) == {} && forall e :: e in trace ==> e.ok || e.hash == ""
  {
    forall e | e in trace ensures e.ok || e.hash == "" {
      var k: nat :| k < |trace| && trace[k] == e;
      assert k !in FailedSaves(trace);
    }
  }

  /** The upload handler.  The reader may fail after delivering `body`; chunks already handed to jobs are
      stored all the same.  The saves are a run of the chunk jobs.  It answers 201 exactly if the body was
      read, every job has stored its chunk, and the database has taken the rows; failed saves beyond the
      quorums do not matter.  If the database fails, rows that it has taken by then stay. */
  method Upload(ring: HashRing, cluster: StorageNodes, db: Database, codec: Codec, chunkSizeMB: nat, replicas: int,
                userId: string, filename: string, contentType: string, body: Bytes, readFails: bool, entropy: Entropy)
    returns (status: nat, objectId: Option<nat>, ghost run: UploadRun)
    requires ring.Valid() && Valid(db.tables) && chunkSizeMB >= 1
    modifies cluster, db
    ensures Valid(db.tables) && ChunksKept(old(db.tables), db.tables)
    ensures old(db.faults) <= db.faults <= old(db.faults) + if status == 201 then 0 else 1
    ensures IsSplit(body, chunkSizeMB * 1_048_576, run.chunks)
    ensures if objectId.Some? then status == 201 else status == 500
    ensures Traced(run.trace, old(cluster.files), cluster.files, old(cluster.calls), cluster.calls,
                   old(cluster.faults), cluster.faults)
    ensures cluster.faults == old(cluster.faults) ==> forall e :: e in run.trace ==> e.ok || e.hash == ""
    ensures
      var x := Site(codec, ring.cfg, ring.State(), replicas);
      var row := ObjectRow(userId, if filename == "" then "untitled" else filename,
                           if contentType == "" then "application/octet-stream" else contentType, |body|);
      var stored := AllStored(x, run.chunks, entropy, run.trace);
      && IsUploadRun(x, run, old(cluster.files), cluster.files)
      && AllEnded(x, run.chunks, entropy, run.trace, stored)
      && (Quorum(replicas) >= 1 ==> (stored <==> Answers201(x, run.chunks, run.nonces, run.trace)))
      && (readFails || !stored ==> status == 500 && db.tables == old(db.tables) && db.faults == old(db.faults))
      && (!readFails && stored ==> (status == 201 <==> db.faults == old(db.faults) && |run.chunks| <= 0x8000_0000))
      && (status == 500 ==> UploadLeft(x, old(db.tables), db.tables, row, run.chunks, run.trace))
      && (cluster.faults == old(cluster.faults) && CanStore(x, run.chunks, entropy) ==> stored)
      && (status == 201 ==>
            && !readFails && stored && Answers201(x, run.chunks, run.nonces, run.trace)
            && Uploaded(x, old(db.tables), db.tables, objectId.value, row, run.chunks)
            && RecordsSaves(db.tables, objectId.value, run.trace))
  {
    var name := if filename == "" then "untitled" else filename;
    var mediaType := if contentType == "" then "application/octet-stream" else contentType;
    var chunks := ReadChunks(body, ChunkSize(chunkSizeMB));
    var ok, metas, totalSize;
    ghost var nonces, trace;
    ok, metas, totalSize, nonces, trace := StoreAll(ring, cluster, codec, chunks, replicas, entropy);
    run := UploadRun(chunks, nonces, trace);
    ghost var x := Site(codec, ring.cfg, ring.State(), replicas);
    if cluster.faults == old(cluster.faults) {
      CalmTrace(trace);
      if CanStore(x, chunks, entropy) {
        CalmIsStored(x, chunks, entropy, nonces, trace, ok);
      }
    }
    if readFails || !ok {
      return 500, None, run;
    }
    SpecsTotal(x, chunks, SpecsOf(metas), trace);
    objectId := SaveMetadata(db, ObjectRow(userId, name, mediaType, totalSize), metas, x, chunks, nonces, trace);
    status := if objectId.Some? then 201 else 500;
  }

  /** After a 201, all recorded nodes hold their chunks if every repeated digest has just enough nodes, or if
      no save has failed. */
  lemma UploadOnDisk(x: Site, t: Tables, t': Tables, objectId: nat, row: ObjectRow, run: UploadRun, files: Files,
                     files': Files)
    requires Lawful(x.codec) && IsUploadRun(x, run, files, files') && Answers201(x, run.chunks, run.nonces, run.trace)
    requires Uploaded(x, t, t', objectId, row, run.chunks) && RecordsSaves(t', objectId, run.trace)
    requires Quorum(x.replicas) >= 1
    requires RepeatsFit(x, ContentOf(run.chunks)) || forall e :: e in run.trace ==> e.ok || e.hash == ""
    ensures OnDisk(x.codec, t', objectId, files')
  {
    QuorateIsFeasible(x, run.chunks, run.nonces, run.trace);
    forall e | e in run.trace ensures e.hash != "" {
      assert IsSave(x, run.chunks, run.nonces, e);
    }
    forall c | c in ChunksOf(t', objectId)
      ensures Backed(t'.chunks[c].hash, NodesOf(t', c), files', GoodFor(x.codec))
    {
      FitsKept(x, run.chunks, run.nonces, run.trace, files, t'.chunks[c].index);
    }
  }

  // ---- download ----

  /** The download handler.  `answers` is what the replicas would say, `rows` the listing it worked from, and
      `leaves` the number of chunks after which the client is gone, if it does not stay.  Without a database
      failure the response is decided by the three. */
  method Download(db: Database, codec: Codec, objectId: nat, userId: string, answers: Answers, leaves: Option<nat>)
    returns (response: Response, rows: seq<Chunk>)
    requires Valid(db.tables)
    modifies db`faults
    ensures old(db.faults) <= db.faults <= old(db.faults) + 1
    ensures db.faults > old(db.faults) ==>
      || response == Response(500, Text("internal server error"))
      || response == Response(500, Text("failed to fetch chunk metadata"))
    ensures db.faults == old(db.faults) ==>
      if objectId in db.tables.objects && db.tables.objects[objectId].userId == userId
      then Listing(db.tables, objectId, rows) && response == Sent(codec, rows, answers, leaves)
      else response == Response(404, Text("object not found"))
  {
    rows := [];
    if * {
      db.faults := db.faults + 1;
      return Response(500, Text("internal server error")), rows;
    }
    if objectId !in db.tables.objects || db.tables.objects[objectId].userId != userId {
      return Response(404, Text("object not found")), rows;
    }
    var chunks := db.GetChunksByObjectID(objectId);
    if chunks.None? {
      return Response(500, Text("failed to fetch chunk metadata")), rows;
    }
    rows := chunks.value;
    response := WriteChunks(codec, rows, answers, leaves);
    return response, rows;
  }

  /** Writes chunk after chunk.  The first write sends the status 200; an error text that comes later only
      adds to the body; a write that fails ends it all. */
  method WriteChunks(codec: Codec, rows: seq<Chunk>, answers: Answers, leaves: Option<nat>)
    returns (response: Response)
    ensures response == Sent(codec, rows, answers, leaves)
  {
    var sent, body := false, [];
    for k := 0 to |rows|
      invariant body == Flatten(Served(codec, rows[..k], answers)) && |Served(codec, rows[..k], answers)| == k
      invariant sent <==> k > 0
      invariant leaves.Some? ==> k <= leaves.value
    {
      assert rows[..k + 1][..k] == rows[..k];
      var data := FetchChunk(codec, rows[k], k, answers);
      if data.None? {
        SentToHere(codec, rows, k, answers, leaves);
        var text := if leaves == Some(k) then [] else Text("all replicas failed or corrupted");
        return Response(if sent then 200 else 500, body + text);
      }
      SnocInit(Served(codec, rows[..k], answers), data.value);
      if leaves == Some(k) {
        LeavesHere(codec, rows, k, answers);
        return Response(200, body);
      }
      body, sent := body + data.value, true;
    }
    assert rows[..|rows|] == rows;
    SentWhole(codec, rows, answers, leaves);
    return Response(200, body);
  }

  lemma {:induction false} ServedMore(codec: Codec, rows: seq<Chunk>, k: nat, answers: Answers)
    requires k <= |rows|
    ensures Served(codec, rows[..k], answers) <= Served(codec, rows, answers)
  {
    if k < |rows| {
      var init := rows[..|rows| - 1];
      assert init[..k] == rows[..k];
      ServedMore(codec, init, k, answers);
    } else {
      assert rows[..k] == rows;
    }
  }

  lemma LeavesHere(codec: Codec, rows: seq<Chunk>, k: nat, answers: Answers)
    requires k < |rows| && |Served(codec, rows[..k], answers)| == k && CanServe(codec, rows, k, answers)
    ensures Sent(codec, rows, answers, Some(k)) == Response(200, Flatten(Served(codec, rows[..k], answers)))
  {
    var next := rows[..k + 1];
    assert next[..k] == rows[..k] && next[k] == rows[k];
    assert |Served(codec, next, answers)| == k + 1;
    ServedMore(codec, rows, k + 1, answers);
    ServedMore(codec, rows, k, answers);
    assert Served(codec, rows, answers)[..k] == Served(codec, rows[..k], answers);
  }

  lemma SentWhole(codec: Codec, rows: seq<Chunk>, answers: Answers, leaves: Option<nat>)
    requires |Served(codec, rows, answers)| == |rows| && (leaves.Some? ==> |rows| <= leaves.value)
    ensures Sent(codec, rows, answers, leaves) == Response(200, Flatten(Served(codec, rows, answers)))
  {
    assert Served(codec, rows, answers)[..|rows|] == Served(codec, rows, answers);
  }

  /** The loop over the replicas of one chunk, with its four reasons to try the next one. */
  method FetchChunk(codec: Codec, chunk: Chunk, k: nat, answers: Answers) returns (data: Option<Bytes>)
    ensures data == Serve(codec, chunk.hash, chunk.nodes, k, answers)
  {
    for i := 0 to |chunk.nodes|
      invariant Serve(codec, chunk.hash, chunk.nodes[..i], k, answers) == None
    {
      assert chunk.nodes[..i + 1][..i] == chunk.nodes[..i];
      var answer := answers(k, chunk.nodes[i]);
      if answer.None? {
        continue;
      }
      var decrypted := codec.decrypt(answer.value);
      if decrypted.None? {
        continue;
      }
      var decompressed := codec.decompress(decrypted.value);
      if decompressed.None? {
        continue;
      }
      if codec.hash(decompressed.value) != chunk.hash {
        continue;
      }
      ServeStays(codec, chunk.hash, chunk.nodes, k, answers, i + 1);
      return decompressed;
    }
    assert chunk.nodes[..|chunk.nodes|] == chunk.nodes;
    return None;
  }

  lemma {:induction false} ServeStays(codec: Codec, hash: string, nodes: seq<string>, k: nat, answers: Answers, i: nat)
    requires i <= |nodes| && Serve(codec, hash, nodes[..i], k, answers).Some?
    ensures Serve(codec, hash, nodes, k, answers) == Serve(codec, hash, nodes[..i], k, answers)
  {
    if i == |nodes| {
      assert nodes[..i] == nodes;
    } else {
      assert nodes[..|nodes| - 1][..i] == nodes[..i];
      ServeStays(codec, hash, nodes[..|nodes| - 1], k, answers, i);
    }
  }

  lemma SentToHere(codec: Codec, rows: seq<Chunk>, k: nat, answers: Answers, leaves: Option<nat>)
    requires k < |rows| && |Served(codec, rows[..k], answers)| == k && !CanServe(codec, rows, k, answers)
    requires leaves.Some? ==> k <= leaves.value
    ensures var text := if leaves == Some(k) then [] else Text("all replicas failed or corrupted");
      Sent(codec, rows, answers, leaves) ==
      Response(if k > 0 then 200 else 500, Flatten(Served(codec, rows[..k], answers)) + text)
  {
    StopsHere(codec, rows, k, answers);
    assert Served(codec, rows, answers)[..k] == Served(codec, rows, answers);
  }

  lemma {:induction false} StopsHere(codec: Codec, rows: seq<Chunk>, k: nat, answers: Answers)
    requires k < |rows| && |Served(codec, rows[..k], answers)| == k && !CanServe(codec, rows, k, answers)
    ensures Served(codec, rows, answers) == Served(codec, rows[..k], answers)
  {
    var init := rows[..|rows| - 1];
    if k < |rows| - 1 {
      assert init[..k] == rows[..k];
      assert init[k] == rows[k];
      StopsHere(codec, init, k, answers);
    }
  }

  // ---- upload, then download ----

  lemma ChunksInOrder(chunks: seq<Bytes>) returns (order: seq<int>)
    ensures Ascending(order) && Lists(order, ContentOf(chunks).Keys) && Covers(ContentOf(chunks), order)
    ensures Select(ContentOf(chunks), order) == chunks
  {
    order := seq(|chunks|, i => i);
    forall i ensures i in Elements(order) <==> i in ContentOf(chunks).Keys {
      if i in ContentOf(chunks) {
        assert order[i] == i;
      }
    }
  }

  /** The round trip of an upload: once it has answered 201, a download in which every chunk has one good
      recorded replica writes exactly the body, whatever order the chunk jobs finished in and whatever
      the other replicas answer. */
  lemma UploadRoundTrip(x: Site, t: Tables, t': Tables, objectId: nat, row: ObjectRow, body: Bytes, size: nat,
                        chunks: seq<Bytes>, rows: seq<Chunk>, answers: Answers)
    requires Valid(t') && Uploaded(x, t, t', objectId, row, chunks) && IsSplit(body, size, chunks)
    requires Quorum(x.replicas) >= 1 && Listing(t', objectId, rows)
    requires NoCollision(x.codec, ContentOf(chunks), rows, answers)
    requires EachHasGoodReplica(x.codec, ContentOf(chunks), rows, answers)
    ensures Answer(x.codec, rows, answers) == Response(200, body) && row.size == |body|
  {
    var order := ChunksInOrder(chunks);
    RoundTrip(x.codec, t', objectId, ContentOf(chunks), rows, answers, order);
  }

  /** The durability of an upload: with its chunks on all recorded nodes, and before any delete or rebalance,
      fewer nodes than a quorum may fail or lie, and a download still writes exactly the body. */
  lemma UploadDurability(x: Site, t: Tables, t': Tables, objectId: nat, row: ObjectRow, body: Bytes, size: nat,
                         run: UploadRun, files: Files, files': Files, rows: seq<Chunk>, answers: Answers,
                         down: set<string>)
    requires Lawful(x.codec) && IsUploadRun(x, run, files, files') && Answers201(x, run.chunks, run.nonces, run.trace)
    requires Valid(t') && Uploaded(x, t, t', objectId, row, run.chunks) && IsSplit(body, size, run.chunks)
    requires RecordsSaves(t', objectId, run.trace)
    requires RepeatsFit(x, ContentOf(run.chunks)) || forall e :: e in run.trace ==> e.ok || e.hash == ""
    requires Listing(t', objectId, rows) && NoCollision(x.codec, ContentOf(run.chunks), rows, answers)
    requires AnswersFrom(rows, answers, files', down) && |down| < Quorum(x.replicas)
    ensures Answer(x.codec, rows, answers) == Response(200, body)
  {
    var order := ChunksInOrder(run.chunks);
    UploadOnDisk(x, t, t', objectId, row, run, files, files');
    QuorumDurability(x.codec, t', objectId, ContentOf(run.chunks), rows, answers, order, files', down,
                     Quorum(x.replicas));
  }

  /** Both handlers in sequence. */
  method UploadThenDownload(ring: HashRing, cluster: StorageNodes, db: Database, codec: Codec, chunkSizeMB: nat,
                            replicas: int, userId: string, body: Bytes, entropy: Entropy, answers: Answers)
    returns (stored: bool, failed: bool, response: Response, ghost rows: seq<Chunk>, ghost chunks: seq<Bytes>)
    requires ring.Valid() && Valid(db.tables) && Lawful(codec) && chunkSizeMB >= 1 && Quorum(replicas) >= 1
    modifies cluster, db
    ensures Flatten(chunks) == body
    ensures CanStore(Site(codec, ring.cfg, ring.State(), replicas), chunks, entropy) && |chunks| <= 0x8000_0000 ==>
      (stored && !failed) || cluster.faults > old(cluster.faults) || db.faults > old(db.faults)
    ensures stored && !failed && NoCollision(codec, ContentOf(chunks), rows, answers) ==>
      && (EachHasGoodReplica(codec, ContentOf(chunks), rows, answers) ==> response == Response(200, body))
      && (RepeatsFit(Site(codec, ring.cfg, ring.State(), replicas), ContentOf(chunks)) ||
          cluster.faults == old(cluster.faults) ==>
            forall down :: |down| < Quorum(replicas) && AnswersFrom(rows, answers, cluster.files, down) ==>
              response == Response(200, body))
  {
    ghost var t, x, files := db.tables, Site(codec, ring.cfg, ring.State(), replicas), cluster.files;
    var status, objectId;
    ghost var run;
    status, objectId, run := Upload(ring, cluster, db, codec, chunkSizeMB, replicas, userId, "", "", body, false,
                                    entropy);
    stored, failed, rows, chunks := status == 201, false, [], run.chunks;
    response := Response(status, []);
    if objectId.Some? {
      var faults, listed := db.faults, [];
      response, listed := Download(db, codec, objectId.value, userId, answers, None);
      failed, rows := db.faults > faults, listed;
      if !failed && NoCollision(codec, ContentOf(chunks), rows, answers) {
        ghost var row, size := db.tables.objects[objectId.value], ChunkSize(chunkSizeMB);
        if EachHasGoodReplica(codec, ContentOf(chunks), rows, answers) {
          UploadRoundTrip(x, t, db.tables, objectId.value, row, body, size, chunks, rows, answers);
        }
        forall down | |down| < Quorum(replicas) && AnswersFrom(rows, answers, cluster.files, down) &&
          (RepeatsFit(x, ContentOf(chunks)) || cluster.faults == old(cluster.faults))
          ensures response == Response(200, body)
        {
          UploadDurability(x, t, db.tables, objectId.value, row, body, size, run, files, cluster.files, rows, answers,
                           down);
        }
      }
    }
  }
}
