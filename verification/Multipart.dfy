/** Multipart uploads in internal/api/object_handler.go: parts are stored one by one in temporary tables, and
    completion turns them into an object. */
module Multipart {
  import opened Sequences
  import opened Ring
  import opened Cluster
  import opened Tables
  import opened Repository
  import opened Content
  import opened Storing
  import opened UploadJobs
  import opened ObjectHandler

  /** The stored parts of the upload are exactly these plaintexts, by part number. */
  ghost predicate PartsDescribe(codec: Codec, t: Tables, upload: nat, content: map<int, Bytes>) {
    && upload in t.uploads && PartIndices(t, upload) == content.Keys
    && forall i :: i in content ==>
         (upload, i) in t.parts && t.parts[(upload, i)] == PartRow(codec.hash(content[i]), |content[i]|)
  }

  ghost predicate PartsRecordedOn(t: Tables, upload: nat, quorum: int) {
    forall i :: i in PartIndices(t, upload) ==> |PartNodes(t, upload, i)| >= quorum
  }

  /** What is kept of a part: its first bytes, up to a chunk and a kibibyte. */
  function PartData(body: Bytes, chunkSizeMB: nat): (data: Bytes)
    ensures data == if |body| <= chunkSizeMB * 1_048_576 + 1024 then body else body[..chunkSizeMB * 1_048_576 + 1024]
  {
    var limit := ChunkSize(chunkSizeMB) + 1024;
    if |body| <= limit then body else body[..limit]
  }

  /** The tables have got exactly this part more, with these nodes. */
  ghost predicate PartAdded(codec: Codec, t: Tables, t': Tables, upload: nat, i: int, data: Bytes, nodes: set<string>) {
    && upload in t.uploads && (upload, i) !in t.parts && IsColumnInt(i)
    && t' == t.(parts := t.parts[(upload, i) := PartRow(codec.hash(data), |data|)],
                partLocations := t.partLocations[(upload, i) := nodes])
  }

  /** The handler for one part.  It answers 400 if nothing can be read, 503 if the ring has no node, and 200
      exactly if the cipher has worked, a quorum of the placement has taken the part, however the other saves
      have ended, and the database accepts it; 500 otherwise.  Unless it answers 200 the tables stay as they
      are; a 200 adds exactly the part, on the nodes that took it.  No file is touched but those of the
      part's own digest on the nodes of its placement. */
  method UploadPart(ring: HashRing, cluster: StorageNodes, db: Database, codec: Codec, chunkSizeMB: nat, replicas: int,
                    upload: nat, partNumber: int, body: Bytes, readFails: bool, nonce: Option<Bytes>)
    returns (status: nat, ghost data: Bytes, ghost took: set<string>, ghost made: seq<Call>)
    requires ring.Valid() && Valid(db.tables) && Lawful(codec)
    modifies cluster, db
    ensures Valid(db.tables) && cluster.calls == old(cluster.calls) + made
    ensures data == if |body| <= chunkSizeMB * 1_048_576 + 1024 then body else body[..chunkSizeMB * 1_048_576 + 1024]
    ensures status in {200, 400, 500, 503} && (status == 400 <==> readFails || body == [])
    ensures status != 200 ==> db.tables == old(db.tables)
    ensures old(db.faults) <= db.faults <= old(db.faults) + if status == 500 then 1 else 0
    ensures
      var x := Site(codec, ring.cfg, ring.State(), replicas);
      var asked := if readFails || body == [] || nonce.None? then {} else Elements(PlacementOf(x, data));
      && OnlyTouched(old(cluster.files), cluster.files, asked, codec.hash(data))
      && Savings(made, asked, took, codec.hash(data)) && (codec.hash(data) == "" ==> took == {})
      && cluster.faults == old(cluster.faults) + (if codec.hash(data) == "" then 0 else |asked - took|)
      && (status == 503 <==> !readFails && body != [] && nonce.Some? && asked == {})
      && (status == 200 <==>
            && asked != {} && |took| >= Quorum(replicas) && db.faults == old(db.faults)
            && upload in old(db.tables).uploads && -0x8000_0000 <= partNumber < 0x8000_0000
            && (upload, partNumber) !in old(db.tables).parts)
      && (asked == {} || |took| < Quorum(replicas) ==> db.faults == old(db.faults))
      && (status == 200 ==>
            && PartAdded(codec, old(db.tables), db.tables, upload, partNumber, data, took)
            && Quorate(x, data, took) && SealedOn(codec, data, took, cluster.files))
  {
    took, made := {}, [];
    var chunkData := PartData(body, chunkSizeMB);
    data := chunkData;
    if readFails || |chunkData| == 0 {
      return 400, data, took, made;
    }
    var r;
    r, took, made := StoreChunk(ring, cluster, codec, chunkData, replicas, nonce);
    NoElements(PlacementOf(Site(codec, ring.cfg, ring.State(), replicas), chunkData));
    if r.NoNode? {
      return 503, data, took, made;
    }
    if !r.Stored? {
      return 500, data, took, made;
    }
    var ok := db.CreateMultipartChunk(upload, partNumber, codec.hash(chunkData), |chunkData|, r.nodes);
    return if ok then 200 else 500, data, took, made;
  }

  lemma OnePartMore(codec: Codec, t: Tables, t': Tables, upload: nat, i: int, data: Bytes, nodes: set<string>,
                    content: map<int, Bytes>)
    requires PartAdded(codec, t, t', upload, i, data, nodes) && PartsDescribe(codec, t, upload, content)
    ensures i !in content && PartsDescribe(codec, t', upload, content[i := data])
    ensures PartNodes(t', upload, i) == nodes
    ensures forall j :: j != i ==> PartNodes(t', upload, j) == PartNodes(t, upload, j)
  {
  }

  lemma PartSpecsDescribe(codec: Codec, t: Tables, upload: nat, content: map<int, Bytes>)
    requires PartsDescribe(codec, t, upload, content)
    ensures var specs := PartSpecs(t, upload);
      && specs.Keys == content.Keys
      && forall i :: i in specs ==>
           && specs[i].hash == codec.hash(content[i]) && specs[i].size == |content[i]|
           && specs[i].nodes == PartNodes(t, upload, i)
  {
  }

  /** Completion turns a description of the parts into the same description of the object. */
  lemma CompletedDescribes(codec: Codec, t: Tables, t': Tables, upload: nat, userId: string, objectId: nat,
                           ids: map<int, nat>, content: map<int, Bytes>, q: int)
    requires Valid(t) && Completed(t, t', upload, userId, objectId, ids)
    requires PartsDescribe(codec, t, upload, content) && PartsRecordedOn(t, upload, q)
    ensures Describes(codec, t', objectId, content) && RecordedOn(t', objectId, q)
    ensures forall c :: c in ChunksOf(t', objectId) ==> NodesOf(t', c) == PartNodes(t, upload, t'.chunks[c].index)
  {
    var specs := PartSpecs(t, upload);
    PartSpecsDescribe(codec, t, upload, content);
    RowsDescribe(codec, t, t', objectId, specs, ids, content);
    forall c | c in ChunksOf(t', objectId)
      ensures |NodesOf(t', c)| >= q && NodesOf(t', c) == PartNodes(t, upload, t'.chunks[c].index)
    {
      assert t'.chunks[c].index in specs;
    }
  }

  /** The completion handler. */
  method CompleteMultipart(db: Database, upload: nat, userId: string)
    returns (status: nat, objectId: Option<nat>, ghost ids: map<int, nat>)
    requires Valid(db.tables)
    modifies db
    ensures Valid(db.tables) && old(db.faults) <= db.faults <= old(db.faults) + if objectId.Some? then 0 else 1
    ensures if objectId.Some? then status == 200 else status == 500
    ensures objectId.None? ==> db.tables == old(db.tables)
    ensures objectId.Some? ==> Completed(old(db.tables), db.tables, upload, userId, objectId.value, ids)
    ensures objectId.None? && db.faults == old(db.faults) ==>
      upload !in db.tables.uploads || db.tables.uploads[upload].userId != userId
  {
    objectId, ids := db.CompleteMultipartUpload(upload, userId);
    status := if objectId.Some? then 200 else 500;
  }

  /** A second completion fails and changes nothing. */
  method CompleteTwice(db: Database, upload: nat, userId: string) returns (first: Option<nat>, second: Option<nat>)
    requires Valid(db.tables)
    modifies db
    ensures first.Some? ==> second.None?
    ensures first.Some? ==> exists ids :: Completed(old(db.tables), db.tables, upload, userId, first.value, ids)
  {
    var status;
    ghost var ids;
    status, first, ids := CompleteMultipart(db, upload, userId);
    ghost var t := db.tables;
    ghost var ids';
    status, second, ids' := CompleteMultipart(db, upload, userId);
    if first.Some? {
      assert upload !in t.uploads;
    }
  }

  // ---- a whole multipart upload ----

  /** A part as the client sends it. */
  datatype Part = Part(number: int, body: Bytes)

  ghost predicate DistinctNumbers(parts: seq<Part>) {
    forall i, j :: 0 <= i < j < |parts| ==> parts[i].number != parts[j].number
  }

  function PartsContent(parts: seq<Part>, chunkSizeMB: nat): map<int, Bytes> {
    if parts == [] then map[]
    else
      var p := parts[|parts| - 1];
      PartsContent(parts[..|parts| - 1], chunkSizeMB)[p.number := PartData(p.body, chunkSizeMB)]
  }

  /** What is kept under this number is from this part. */
  ghost predicate Keeps(p: Part, number: int, data: Bytes, chunkSizeMB: nat) {
    p.number == number && data == PartData(p.body, chunkSizeMB)
  }

  lemma {:induction false} PartsContentAt(parts: seq<Part>, chunkSizeMB: nat)
    ensures var content := PartsContent(parts, chunkSizeMB);
      && (forall p :: p in parts ==> p.number in content)
      && (forall i :: i in content ==> exists p :: p in parts && Keeps(p, i, content[i], chunkSizeMB))
  {
    if parts != [] {
      var init, last := parts[..|parts| - 1], parts[|parts| - 1];
      PartsContentAt(init, chunkSizeMB);
      assert parts == init + [last];
      var content, before := PartsContent(parts, chunkSizeMB), PartsContent(init, chunkSizeMB);
      forall i | i in content ensures exists p :: p in parts && Keeps(p, i, content[i], chunkSizeMB) {
        if i == last.number {
          assert Keeps(last, i, content[i], chunkSizeMB);
        } else {
          var p :| p in init && Keeps(p, i, before[i], chunkSizeMB);
          assert p in parts;
        }
      }
    }
  }

  lemma NewNumber(parts: seq<Part>, number: int, chunkSizeMB: nat)
    ensures number !in PartsContent(parts, chunkSizeMB) <==> forall p :: p in parts ==> p.number != number
  {
  }

  lemma {:induction false} PartsCount(parts: seq<Part>, chunkSizeMB: nat)
    requires DistinctNumbers(parts)
    ensures |PartsContent(parts, chunkSizeMB)| == |parts|
  {
    if parts != [] {
      var init := parts[..|parts| - 1];
      PartsCount(init, chunkSizeMB);
      NewNumber(init, parts[|parts| - 1].number, chunkSizeMB);
    }
  }

  /** The parts in ascending order of their numbers, and what is kept of each if at most so much is. */
  ghost predicate InOrder(parts: seq<Part>, limit: nat, sorted: seq<Part>, pieces: seq<Bytes>,
                          content: map<int, Bytes>) {
    && |sorted| == |parts| == |pieces| && (forall p :: p in sorted <==> p in parts)
    && (forall i, j :: 0 <= i < j < |sorted| ==> sorted[i].number < sorted[j].number)
    && (forall k :: 0 <= k < |sorted| ==>
          pieces[k] == if |sorted[k].body| <= limit then sorted[k].body else sorted[k].body[..limit])
    && |content| == |sorted|
    && (forall k :: 0 <= k < |sorted| ==> sorted[k].number in content && content[sorted[k].number] == pieces[k])
  }

  lemma SortParts(parts: seq<Part>, chunkSizeMB: nat, order: seq<int>) returns (sorted: seq<Part>)
    requires DistinctNumbers(parts) && Ascending(order) && Lists(order, PartsContent(parts, chunkSizeMB).Keys)
    ensures Covers(PartsContent(parts, chunkSizeMB), order)
    ensures InOrder(parts, chunkSizeMB * 1_048_576 + 1024, sorted, Select(PartsContent(parts, chunkSizeMB), order),
                    PartsContent(parts, chunkSizeMB))
  {
    PartsCount(parts, chunkSizeMB);
    DistinctSize(order);
    assert forall k :: 0 <= k < |order| ==> order[k] in Elements(order);
    sorted := PickParts(parts, chunkSizeMB, order);
    forall i, j | 0 <= i < j < |sorted| ensures sorted[i].number < sorted[j].number {
      assert order[i] <= order[j] && order[i] != order[j];
    }
    AllPicked(parts, sorted, chunkSizeMB, order);
  }

  lemma AllPicked(parts: seq<Part>, sorted: seq<Part>, chunkSizeMB: nat, order: seq<int>)
    requires DistinctNumbers(parts) && Elements(order) == PartsContent(parts, chunkSizeMB).Keys
    requires |sorted| == |order| && forall k :: 0 <= k < |order| ==> sorted[k] in parts && sorted[k].number == order[k]
    ensures forall p :: p in sorted <==> p in parts
  {
    PartsContentAt(parts, chunkSizeMB);
    forall p | p in parts ensures p in sorted {
      assert p.number in Elements(order);
      var k :| 0 <= k < |order| && order[k] == p.number;
      SameNumber(parts, sorted[k], p);
    }
  }

  lemma SameNumber(parts: seq<Part>, p: Part, q: Part)
    requires DistinctNumbers(parts) && p in parts && q in parts && p.number == q.number
    ensures p == q
  {
  }

  lemma {:induction false} PickParts(parts: seq<Part>, chunkSizeMB: nat, order: seq<int>) returns (picked: seq<Part>)
    requires Covers(PartsContent(parts, chunkSizeMB), order)
    ensures |picked| == |order|
    ensures forall k :: 0 <= k < |order| ==>
      picked[k] in parts && Keeps(picked[k], order[k], PartsContent(parts, chunkSizeMB)[order[k]], chunkSizeMB)
  {
    picked := [];
    if order != [] {
      var last := order[|order| - 1];
      picked := PickParts(parts, chunkSizeMB, order[..|order| - 1]);
      PartsContentAt(parts, chunkSizeMB);
      var p :| p in parts && Keeps(p, last, PartsContent(parts, chunkSizeMB)[last], chunkSizeMB);
      picked := picked + [p];
    }
  }

  /** Every node recorded for a part holds it. */
  ghost predicate PartsHeld(codec: Codec, t: Tables, upload: nat, content: map<int, Bytes>, files: Files) {
    forall i :: i in content ==> Backed(codec.hash(content[i]), PartNodes(t, upload, i), files, GoodFor(codec))
  }

  ghost predicate PartsPlaced(x: Site, t: Tables, upload: nat, content: map<int, Bytes>) {
    forall i :: i in content ==> Quorate(x, content[i], PartNodes(t, upload, i))
  }

  /** The parts so far.  Unless a failed save of a part has hit a file of an equal one, all are on disk. */
  ghost predicate PartsSoFar(x: Site, t: Tables, upload: nat, userId: string, content: map<int, Bytes>, files: Files,
                             calm: bool) {
    && PartsDescribe(x.codec, t, upload, content) && t.uploads[upload].userId == userId
    && PartsPlaced(x, t, upload, content)
    && (RepeatsFit(x, content) || calm ==>
          PartsHeld(x.codec, t, upload, content, files))
  }

  lemma NextPart(x: Site, t: Tables, t': Tables, upload: nat, userId: string, content: map<int, Bytes>, files: Files,
                 files': Files, i: int, data: Bytes, nodes: set<string>, calm: bool, calm': bool)
    requires PartsSoFar(x, t, upload, userId, content, files, calm) && (calm' ==> calm)
    requires PartAdded(x.codec, t, t', upload, i, data, nodes) && Quorate(x, data, nodes)
    requires OnlyTouched(files, files', Elements(PlacementOf(x, data)), x.codec.hash(data))
    requires SealedOn(x.codec, data, nodes, files') && (calm' ==> nodes == Elements(PlacementOf(x, data)))
    ensures PartsSoFar(x, t', upload, userId, content[i := data], files', calm')
  {
    OnePartMore(x.codec, t, t', upload, i, data, nodes, content);
    var content' := content[i := data];
    if RepeatsFit(x, content') || calm' {
      FewerParts(x, content, i, data);
      forall j | j in content'
        ensures Backed(x.codec.hash(content'[j]), PartNodes(t', upload, j), files', GoodFor(x.codec))
      {
        if j != i {
          EarlierPart(x, content', files, files', i, nodes, j, PartNodes(t, upload, j), calm');
        }
      }
    }
  }

  lemma FewerParts(x: Site, content: map<int, Bytes>, i: int, data: Bytes)
    requires i !in content
    ensures RepeatsFit(x, content[i := data]) ==> RepeatsFit(x, content)
  {
    var content' := content[i := data];
    assert forall j :: j in content ==> j in content' && content'[j] == content[j];
  }

  /** An earlier part survives the saves of a later one. */
  lemma EarlierPart(x: Site, content: map<int, Bytes>, files: Files, files': Files, i: int, nodes: set<string>,
                    j: int, nodesJ: set<string>, calm: bool)
    requires i in content && j in content && i != j && (RepeatsFit(x, content) || calm)
    requires Quorate(x, content[i], nodes) && Quorate(x, content[j], nodesJ)
    requires OnlyTouched(files, files', Elements(PlacementOf(x, content[i])), x.codec.hash(content[i]))
    requires Backed(x.codec.hash(content[i]), nodes, files', GoodFor(x.codec))
    requires Backed(x.codec.hash(content[j]), nodesJ, files, GoodFor(x.codec))
    requires calm ==> nodes == Elements(PlacementOf(x, content[i]))
    ensures Backed(x.codec.hash(content[j]), nodesJ, files', GoodFor(x.codec))
  {
    if x.codec.hash(content[i]) == x.codec.hash(content[j]) {
      if !calm {
        QuorumIsAll(x, content[i], nodes);
      }
      assert nodesJ <= nodes;
    } else {
      forall n | n in nodesJ ensures SameAt(files, files', (n, x.codec.hash(content[j]))) {
      }
    }
  }

  lemma PartsOnDisk(x: Site, t: Tables, t': Tables, upload: nat, userId: string, objectId: nat, ids: map<int, nat>,
                    content: map<int, Bytes>, files: Files, calm: bool)
    requires Valid(t) && Completed(t, t', upload, userId, objectId, ids)
    requires PartsSoFar(x, t, upload, userId, content, files, calm)
    ensures Describes(x.codec, t', objectId, content) && RecordedOn(t', objectId, Quorum(x.replicas))
    ensures RepeatsFit(x, content) || calm ==>
      OnDisk(x.codec, t', objectId, files)
  {
    assert PartsRecordedOn(t, upload, Quorum(x.replicas));
    CompletedDescribes(x.codec, t, t', upload, userId, objectId, ids, content, Quorum(x.replicas));
  }

  /** What a client may expect of the download: all of `whole`, if every part has one good recorded replica, and
      if all parts are on disk, with fewer nodes than a quorum down or lying. */
  ghost predicate Delivered(x: Site, content: map<int, Bytes>, whole: Bytes, rows: seq<Chunk>, answers: Answers,
                            files: Files, calm: bool, response: Response) {
    NoCollision(x.codec, content, rows, answers) ==>
      && (EachHasGoodReplica(x.codec, content, rows, answers) ==> response == Response(200, whole))
      && (RepeatsFit(x, content) || calm ==>
            forall down :: |down| < Quorum(x.replicas) && AnswersFrom(rows, answers, files, down) ==>
              response == Response(200, whole))
  }

  lemma DeliveredFromDisk(x: Site, t: Tables, objectId: nat, content: map<int, Bytes>, order: seq<int>,
                          rows: seq<Chunk>, answers: Answers, files: Files, calm: bool)
    requires Valid(t) && Describes(x.codec, t, objectId, content) && RecordedOn(t, objectId, Quorum(x.replicas))
    requires Quorum(x.replicas) >= 1 && Listing(t, objectId, rows) && Ascending(order) && Lists(order, content.Keys)
    requires RepeatsFit(x, content) || calm ==> OnDisk(x.codec, t, objectId, files)
    ensures Covers(content, order)
    ensures Delivered(x, content, Flatten(Select(content, order)), rows, answers, files, calm,
                      Answer(x.codec, rows, answers))
  {
    CompleteListing(x.codec, t, objectId, content, rows, order);
    ListedIndex(x.codec, t, objectId, content, rows);
    if NoCollision(x.codec, content, rows, answers) {
      if EachHasGoodReplica(x.codec, content, rows, answers) {
        RoundTrip(x.codec, t, objectId, content, rows, answers, order);
      }
      forall down | |down| < Quorum(x.replicas) && AnswersFrom(rows, answers, files, down) &&
        (RepeatsFit(x, content) || calm)
        ensures Answer(x.codec, rows, answers) == Response(200, Flatten(Select(content, order)))
      {
        QuorumDurability(x.codec, t, objectId, content, rows, answers, order, files, down, Quorum(x.replicas));
      }
    }
  }

  /** The multipart round trip, and its durability. */
  lemma MultipartRoundTrip(x: Site, t: Tables, t': Tables, upload: nat, userId: string, objectId: nat,
                           ids: map<int, nat>, content: map<int, Bytes>, files: Files, calm: bool, rows: seq<Chunk>,
                           answers: Answers)
    returns (order: seq<int>)
    requires Valid(t) && Valid(t') && Completed(t, t', upload, userId, objectId, ids) && Quorum(x.replicas) >= 1
    requires PartsSoFar(x, t, upload, userId, content, files, calm) && Listing(t', objectId, rows)
    ensures Ascending(order) && Lists(order, content.Keys) && Covers(content, order)
    ensures Delivered(x, content, Flatten(Select(content, order)), rows, answers, files, calm,
                      Answer(x.codec, rows, answers))
  {
    order := AscendingListing(content.Keys);
    PartsOnDisk(x, t, t', upload, userId, objectId, ids, content, files, calm);
    DeliveredFromDisk(x, t', objectId, content, order, rows, answers, files, calm);
  }

  /** Nothing is wrong with the part itself, and the ring has enough nodes for it. */
  ghost predicate Acceptable(x: Site, part: Part, chunkSizeMB: nat) {
    part.body != [] && IsColumnInt(part.number) && Feasible(x, PartData(part.body, chunkSizeMB))
  }

  /** One part more. */
  method AddPart(ring: HashRing, cluster: StorageNodes, db: Database, codec: Codec, chunkSizeMB: nat, replicas: int,
                 upload: nat, userId: string, part: Part, nonce: Option<Bytes>, ghost content: map<int, Bytes>,
                 ghost calm: bool)
    returns (ok: bool)
    requires ring.Valid() && Valid(db.tables) && Lawful(codec) && Quorum(replicas) >= 1
    requires PartsSoFar(Site(codec, ring.cfg, ring.State(), replicas), db.tables, upload, userId, content,
                        cluster.files, calm)
    modifies cluster, db
    ensures Valid(db.tables) && cluster.faults >= old(cluster.faults) && db.faults >= old(db.faults)
    ensures ok ==> part.number !in content
    ensures
      var x := Site(codec, ring.cfg, ring.State(), replicas);
      && (ok ==> PartsSoFar(x, db.tables, upload, userId,
                            content[part.number := PartData(part.body, chunkSizeMB)], cluster.files,
                            calm && cluster.faults == old(cluster.faults)))
      && (nonce.Some? && Acceptable(x, part, chunkSizeMB) && part.number !in content ==>
            ok || cluster.faults > old(cluster.faults) || db.faults > old(db.faults))
  {
    ghost var x, t, files := Site(codec, ring.cfg, ring.State(), replicas), db.tables, cluster.files;
    var status;
    ghost var data, took, made;
    status, data, took, made := UploadPart(ring, cluster, db, codec, chunkSizeMB, replicas, upload, part.number,
                                           part.body, false, nonce);
    ok := status == 200;
    assert data == PartData(part.body, chunkSizeMB);
    if cluster.faults == old(cluster.faults) && codec.hash(data) != "" && nonce.Some? && part.body != [] {
      AllTook(x, data, took);
    }
    if ok {
      NextPart(x, t, db.tables, upload, userId, content, files, cluster.files, part.number, data, took, calm,
               calm && cluster.faults == old(cluster.faults));
    }
  }

  lemma AllTook(x: Site, data: Bytes, took: set<string>)
    requires took <= Elements(PlacementOf(x, data)) && |Elements(PlacementOf(x, data)) - took| == 0
    ensures took == Elements(PlacementOf(x, data)) && |took| == |PlacementOf(x, data)|
  {
    PlacementsAreDistinct(x, x.codec.hash(data));
    assert Elements(PlacementOf(x, data)) - took == {};
  }

  lemma NoParts(x: Site, t: Tables, upload: nat, userId: string, files: Files)
    requires upload in t.uploads && t.uploads[upload].userId == userId && PartIndices(t, upload) == {}
    ensures PartsSoFar(x, t, upload, userId, map[], files, true)
  {
  }

  /** No two parts share a number, all are acceptable, and the cipher fails for none. */
  ghost predicate AllAcceptable(x: Site, parts: seq<Part>, chunkSizeMB: nat, entropy: Entropy) {
    && DistinctNumbers(parts)
    && forall k: nat :: k < |parts| ==> entropy(k).Some? && Acceptable(x, parts[k], chunkSizeMB)
  }

  /** The parts one after the other, in the client's order, until one is not accepted. */
  method UploadParts(ring: HashRing, cluster: StorageNodes, db: Database, codec: Codec, chunkSizeMB: nat, replicas: int,
                     upload: nat, userId: string, parts: seq<Part>, entropy: Entropy)
    returns (ok: bool)
    requires ring.Valid() && Valid(db.tables) && Lawful(codec) && Quorum(replicas) >= 1
    requires upload in db.tables.uploads && db.tables.uploads[upload].userId == userId
    requires PartIndices(db.tables, upload) == {}
    modifies cluster, db
    ensures Valid(db.tables) && cluster.faults >= old(cluster.faults) && db.faults >= old(db.faults)
    ensures
      var x := Site(codec, ring.cfg, ring.State(), replicas);
      && (ok ==>
            && DistinctNumbers(parts)
            && PartsSoFar(x, db.tables, upload, userId, PartsContent(parts, chunkSizeMB), cluster.files,
                          cluster.faults == old(cluster.faults)))
      && (AllAcceptable(x, parts, chunkSizeMB, entropy) ==>
            ok || cluster.faults > old(cluster.faults) || db.faults > old(db.faults))
  {
    ghost var x := Site(codec, ring.cfg, ring.State(), replicas);
    NoParts(x, db.tables, upload, userId, cluster.files);
    for k := 0 to |parts|
      invariant Valid(db.tables) && cluster.faults >= old(cluster.faults) && db.faults >= old(db.faults)
      invariant DistinctNumbers(parts[..k])
      invariant PartsSoFar(x, db.tables, upload, userId, PartsContent(parts[..k], chunkSizeMB), cluster.files,
                           cluster.faults == old(cluster.faults))
    {
      NumberIsNew(parts, k, chunkSizeMB);
      ok := AddPart(ring, cluster, db, codec, chunkSizeMB, replicas, upload, userId, parts[k], entropy(k),
                    PartsContent(parts[..k], chunkSizeMB), cluster.faults == old(cluster.faults));
      if !ok {
        return;
      }
    }
    assert parts[..|parts|] == parts;
    return true;
  }

  /** The next part's number is new exactly if the parts so far and this one have distinct numbers. */
  lemma NumberIsNew(parts: seq<Part>, k: nat, chunkSizeMB: nat)
    requires k < |parts| && DistinctNumbers(parts[..k])
    ensures parts[k].number !in PartsContent(parts[..k], chunkSizeMB) <==> DistinctNumbers(parts[..k + 1])
    ensures DistinctNumbers(parts) ==> DistinctNumbers(parts[..k + 1])
    ensures PartsContent(parts[..k + 1], chunkSizeMB) ==
      PartsContent(parts[..k], chunkSizeMB)[parts[k].number := PartData(parts[k].body, chunkSizeMB)]
  {
    assert parts[..k + 1][..k] == parts[..k];
    NewNumber(parts[..k], parts[k].number, chunkSizeMB);
    OneNumberMore(parts[..k], parts[k]);
    assert parts[..k] + [parts[k]] == parts[..k + 1];
  }

  lemma OneNumberMore(parts: seq<Part>, p: Part)
    requires DistinctNumbers(parts)
    ensures DistinctNumbers(parts + [p]) <==> forall q :: q in parts ==> q.number != p.number
  {
    if DistinctNumbers(parts + [p]) {
      forall q | q in parts ensures q.number != p.number {
        var j :| 0 <= j < |parts| && parts[j] == q;
        assert (parts + [p])[j] == q && (parts + [p])[|parts|] == p;
      }
    }
  }

  /** All requests of a multipart upload up to its completion. */
  method UploadInParts(ring: HashRing, cluster: StorageNodes, db: Database, codec: Codec, chunkSizeMB: nat,
                       replicas: int, userId: string, filename: string, contentType: string, parts: seq<Part>,
                       entropy: Entropy)
    returns (objectId: Option<nat>, ghost t: Tables, ghost upload: nat, ghost ids: map<int, nat>)
    requires ring.Valid() && Valid(db.tables) && Lawful(codec) && Quorum(replicas) >= 1
    modifies cluster, db
    ensures Valid(db.tables) && cluster.faults >= old(cluster.faults) && db.faults >= old(db.faults)
    ensures
      var x := Site(codec, ring.cfg, ring.State(), replicas);
      && (objectId.Some? ==>
            && Valid(t) && DistinctNumbers(parts) && Completed(t, db.tables, upload, userId, objectId.value, ids)
            && PartsSoFar(x, t, upload, userId, PartsContent(parts, chunkSizeMB), cluster.files,
                          cluster.faults == old(cluster.faults)))
      && (AllAcceptable(x, parts, chunkSizeMB, entropy) ==>
            objectId.Some? || cluster.faults > old(cluster.faults) || db.faults > old(db.faults))
  {
    objectId, t, upload, ids := None, db.tables, 0, map[];
    var uploadId := db.CreateMultipartUpload(userId, filename, contentType);
    if uploadId.None? {
      return;
    }
    upload := uploadId.value;
    var stored := UploadParts(ring, cluster, db, codec, chunkSizeMB, replicas, uploadId.value, userId, parts, entropy);
    if !stored {
      return;
    }
    t := db.tables;
    var status;
    status, objectId, ids := CompleteMultipart(db, uploadId.value, userId);
  }

  /** A multipart upload from beginning to end: any parts, in any order, then completion and download.  It
      succeeds if nothing fails and nothing is wrong with the parts.  If every request is answered with
      success, the download delivers the parts in ascending order of part number, each cut to its limit, also
      with fewer nodes than a quorum down or lying. */
  method MultipartLife(ring: HashRing, cluster: StorageNodes, db: Database, codec: Codec, chunkSizeMB: nat,
                       replicas: int, userId: string, filename: string, contentType: string, parts: seq<Part>,
                       entropy: Entropy, answers: Answers)
    returns (ok: bool, response: Response, ghost rows: seq<Chunk>, ghost sorted: seq<Part>, ghost pieces: seq<Bytes>,
             ghost content: map<int, Bytes>)
    requires ring.Valid() && Valid(db.tables) && Lawful(codec) && Quorum(replicas) >= 1
    modifies cluster, db
    ensures ok ==> InOrder(parts, chunkSizeMB * 1_048_576 + 1024, sorted, pieces, content)
    ensures
      var x := Site(codec, ring.cfg, ring.State(), replicas);
      && (ok ==> Delivered(x, content, Flatten(pieces), rows, answers, cluster.files,
                           cluster.faults == old(cluster.faults), response))
      && (AllAcceptable(x, parts, chunkSizeMB, entropy) ==>
            ok || cluster.faults > old(cluster.faults) || db.faults > old(db.faults))
  {
    ghost var x := Site(codec, ring.cfg, ring.State(), replicas);
    ok, response, rows := false, Response(500, []), [];
    sorted, pieces, content := [], [], PartsContent(parts, chunkSizeMB);
    var objectId;
    ghost var t, upload, ids;
    objectId, t, upload, ids := UploadInParts(ring, cluster, db, codec, chunkSizeMB, replicas, userId, filename,
                                              contentType, parts, entropy);
    if objectId.None? {
      return;
    }
    var faults, listed := db.faults, [];
    response, listed := Download(db, codec, objectId.value, userId, answers, None);
    ok, rows := db.faults == faults, listed;
    if ok {
      ghost var order := MultipartRoundTrip(x, t, db.tables, upload, userId, objectId.value, ids, content,
                                            cluster.files, cluster.faults == old(cluster.faults), rows, answers);
      sorted := SortParts(parts, chunkSizeMB, order);
      pieces := Select(content, order);
    }
  }
}
