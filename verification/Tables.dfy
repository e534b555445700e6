/** The relational tables of migrations/, and what it means for an object to get rows of its own. */
module Tables {
  datatype ObjectRow = ObjectRow(userId: string, name: string, contentType: string, size: int)
  datatype ChunkRow = ChunkRow(objectId: nat, index: int, hash: string, size: int)
  datatype UploadRow = UploadRow(userId: string, filename: string, contentType: string)
  datatype PartRow = PartRow(hash: string, size: int)

  /** A location table is held as the set of addresses that its rows record for each owner; an owner
      without an entry has no rows. */
  datatype Tables = Tables(
    objects: map<nat, ObjectRow>,
    chunks: map<nat, ChunkRow>,
    locations: map<nat, set<string>>,
    uploads: map<nat, UploadRow>,
    parts: map<(nat, int), PartRow>,
    partLocations: map<(nat, int), set<string>>)

  /** A chunk row joined with its locations. */
  datatype Chunk = Chunk(id: nat, index: int, hash: string, nodes: seq<string>)

  /** The range of the column type of chunk indices. */
  predicate IsColumnInt(i: int) {
    -0x8000_0000 <= i < 0x8000_0000
  }

  function NodesOf(t: Tables, chunk: nat): set<string> {
    if chunk in t.locations then t.locations[chunk] else {}
  }

  function PartNodes(t: Tables, upload: nat, index: int): set<string> {
    if (upload, index) in t.partLocations then t.partLocations[(upload, index)] else {}
  }

  function WithLocation(t: Tables, chunk: nat, node: string): Tables {
    t.(locations := t.locations[chunk := NodesOf(t, chunk) + {node}])
  }

  function WithoutLocation(t: Tables, chunk: nat, node: string): Tables {
    if chunk in t.locations then t.(locations := t.locations[chunk := t.locations[chunk] - {node}]) else t
  }

  /** The part numbers stored for an upload. */
  function PartIndices(t: Tables, upload: nat): set<int> {
    set k | k in t.parts && k.0 == upload :: k.1
  }

  function ChunksOf(t: Tables, objectId: nat): set<nat> {
    set c | c in t.chunks && t.chunks[c].objectId == objectId
  }

  ghost predicate SameKey(t: Tables, c: nat, d: nat)
    requires c in t.chunks && d in t.chunks
  {
    t.chunks[c].objectId == t.chunks[d].objectId && t.chunks[c].index == t.chunks[d].index
  }

  /** The key and foreign-key constraints. */
  ghost predicate Valid(t: Tables) {
    && (forall c :: c in t.chunks ==> t.chunks[c].objectId in t.objects && IsColumnInt(t.chunks[c].index))
    && (forall c, d :: c in t.chunks && d in t.chunks && SameKey(t, c, d) ==> c == d)
    && (forall c :: c in t.locations ==> c in t.chunks)
    && (forall k :: k in t.parts ==> k.0 in t.uploads && IsColumnInt(k.1))
    && (forall k :: k in t.partLocations ==> k in t.parts)
  }

  lemma {:induction false} FreshId(used: set<nat>)
    ensures exists id: nat :: id !in used
  {
    var bound: nat := 0;
    var rest := used;
    while rest != {}
      invariant rest <= used
      invariant forall id :: id in used && id !in rest ==> id < bound
      decreases rest
    {
      var id :| id in rest;
      rest := rest - {id};
      bound := if id < bound then bound else id + 1;
    }
    assert bound !in used;
  }

  // ---- sums over a column ----

  ghost function Total<K>(sizes: map<K, int>): int
    decreases |sizes|
  {
    if sizes == map[] then 0
    else
      var k :| k in sizes;
      sizes[k] + Total(sizes - {k})
  }

  lemma {:induction false} TotalWithout<K>(sizes: map<K, int>, k: K)
    requires k in sizes
    ensures Total(sizes) == sizes[k] + Total(sizes - {k})
    decreases |sizes|
  {
    var p :| p in sizes && Total(sizes) == sizes[p] + Total(sizes - {p});
    if p != k {
      TotalWithout(sizes - {p}, k);
      TotalWithout(sizes - {k}, p);
      assert sizes - {p} - {k} == sizes - {k} - {p};
    }
  }

  lemma TotalInsert<K>(sizes: map<K, int>, k: K, size: int)
    requires k !in sizes
    ensures Total(sizes[k := size]) == Total(sizes) + size
  {
    TotalWithout(sizes[k := size], k);
    assert sizes[k := size] - {k} == sizes;
  }

  function ChunkSizes(t: Tables, objectId: nat): map<nat, int> {
    map c | c in t.chunks && t.chunks[c].objectId == objectId :: t.chunks[c].size
  }

  // ---- the rows of a new object ----

  /** A chunk row to be, without its identifiers. */
  datatype RowSpec = RowSpec(hash: string, size: int, nodes: set<string>)

  function Image(ids: map<int, nat>): set<nat> {
    set i | i in ids :: ids[i]
  }

  ghost predicate Injective(ids: map<int, nat>) {
    forall i, j :: i in ids && j in ids && i != j ==> ids[i] != ids[j]
  }

  /** The row that index i has become. */
  ghost predicate RowFor(t: Tables, t': Tables, objectId: nat, i: int, spec: RowSpec, id: nat) {
    && id !in t.chunks && id in t'.chunks
    && t'.chunks[id] == ChunkRow(objectId, i, spec.hash, spec.size) && NodesOf(t', id) == spec.nodes
  }

  /** The object got exactly these chunk rows, `ids` naming the row of each index, and no other chunk row
      or location has changed. */
  ghost predicate RowsInserted(t: Tables, t': Tables, objectId: nat, specs: map<int, RowSpec>, ids: map<int, nat>) {
    && ids.Keys == specs.Keys && Injective(ids)
    && (forall i :: i in ids ==> RowFor(t, t', objectId, i, specs[i], ids[i]))
    && t'.chunks.Keys == t.chunks.Keys + Image(ids)
    && (forall c :: c in t.chunks ==> t'.chunks[c] == t.chunks[c] && NodesOf(t', c) == NodesOf(t, c))
  }

  /** The chunk rows that there were, and their locations, are as they were. */
  ghost predicate ChunksKept(t: Tables, t': Tables) {
    forall c :: c in t.chunks ==> c in t'.chunks && t'.chunks[c] == t.chunks[c] && NodesOf(t', c) == NodesOf(t, c)
  }

  /** The tables with one more chunk row and its locations. */
  function WithRow(t: Tables, objectId: nat, i: int, spec: RowSpec, id: nat): Tables {
    t.(chunks := t.chunks[id := ChunkRow(objectId, i, spec.hash, spec.size)],
       locations := t.locations[id := spec.nodes])
  }

  lemma ImageInsert(ids: map<int, nat>, i: int, id: nat)
    requires Injective(ids) && i !in ids && id !in Image(ids)
    ensures Injective(ids[i := id]) && Image(ids[i := id]) == Image(ids) + {id}
  {
    var ids' := ids[i := id];
    forall j | j in ids ensures ids[j] in Image(ids) {
    }
    forall c ensures c in Image(ids') <==> c in Image(ids) || c == id {
      if c in Image(ids) {
        var j :| j in ids && ids[j] == c;
        assert j in ids' && ids'[j] == c;
      }
      assert i in ids' && ids'[i] == id;
    }
  }

  lemma RowsInsertedStep(t: Tables, t': Tables, objectId: nat, specs: map<int, RowSpec>, ids: map<int, nat>,
                         i: int, spec: RowSpec, id: nat)
    requires RowsInserted(t, t', objectId, specs, ids) && i !in specs && id !in t'.chunks
    ensures RowsInserted(t, WithRow(t', objectId, i, spec, id), objectId, specs[i := spec], ids[i := id])
  {
    var t'', specs', ids' := WithRow(t', objectId, i, spec, id), specs[i := spec], ids[i := id];
    ImageInsert(ids, i, id);
    forall j | j in ids' ensures RowFor(t, t'', objectId, j, specs'[j], ids'[j]) {
      if j != i {
        assert RowFor(t, t', objectId, j, specs[j], ids[j]);
      }
    }
  }

  lemma NewRow(t: Tables, t': Tables, objectId: nat, specs: map<int, RowSpec>, ids: map<int, nat>, c: nat)
    requires Valid(t) && RowsInserted(t, t', objectId, specs, ids) && objectId !in t.objects && c in t'.chunks
    ensures c in t.chunks ==> t'.chunks[c] == t.chunks[c] && t'.chunks[c].objectId != objectId
    ensures c !in t.chunks ==> t'.chunks[c].index in ids && ids[t'.chunks[c].index] == c
    ensures c !in t.chunks ==> t'.chunks[c].objectId == objectId
    ensures c in t.chunks <==> c !in Image(ids)
  {
  }

  lemma OwnRows(t: Tables, t': Tables, objectId: nat, specs: map<int, RowSpec>, ids: map<int, nat>)
    requires Valid(t) && RowsInserted(t, t', objectId, specs, ids) && objectId !in t.objects
    ensures ChunksOf(t', objectId) == Image(ids)
  {
  }

  lemma NewKeysUnique(t: Tables, t': Tables, objectId: nat, specs: map<int, RowSpec>, ids: map<int, nat>,
                      c: nat, d: nat)
    requires Valid(t) && RowsInserted(t, t', objectId, specs, ids) && objectId !in t.objects
    requires c in t'.chunks && d in t'.chunks && SameKey(t', c, d)
    ensures c == d
  {
  }

  lemma ImageWithout(ids: map<int, nat>, i: int)
    requires i in ids && Injective(ids)
    ensures Image(ids - {i}) == Image(ids) - {ids[i]}
  {
    forall c ensures c in Image(ids - {i}) <==> c in Image(ids) && c != ids[i] {
      if c in Image(ids - {i}) {
        var j :| j in ids - {i} && ids[j] == c;
        assert j in ids && j != i;
      }
      if c in Image(ids) && c != ids[i] {
        var j :| j in ids && ids[j] == c;
        assert j in ids - {i};
      }
    }
  }

  lemma NoEntries<K>(sizes: map<K, int>)
    requires sizes.Keys == {}
    ensures Total(sizes) == 0
  {
  }

  /** A sum does not care what its entries are called. */
  lemma {:induction false} RenamedTotal(sizes: map<int, int>, moved: map<nat, int>, ids: map<int, nat>)
    requires sizes.Keys == ids.Keys && moved.Keys == Image(ids) && Injective(ids)
    requires forall i :: i in ids ==> ids[i] in moved && moved[ids[i]] == sizes[i]
    ensures Total(moved) == Total(sizes)
    decreases ids.Keys
  {
    if i :| i in ids {
      TotalWithout(sizes, i);
      TotalWithout(moved, ids[i]);
      ImageWithout(ids, i);
      var sizes', moved', ids' := sizes - {i}, moved - {ids[i]}, ids - {i};
      assert ids'.Keys == ids.Keys - {i} && sizes'.Keys == ids'.Keys;
      assert moved'.Keys == Image(ids');
      RenamedTotal(sizes', moved', ids');
    } else {
      assert forall k :: k !in ids.Keys;
      assert ids.Keys == {} && sizes.Keys == {};
      NoEntries(sizes);
      NoEntries(moved);
    }
  }

  function SpecSizes(specs: map<int, RowSpec>): map<int, int> {
    map i | i in specs :: specs[i].size
  }

  lemma RowsTotal(t: Tables, t': Tables, objectId: nat, specs: map<int, RowSpec>, ids: map<int, nat>)
    requires Valid(t) && RowsInserted(t, t', objectId, specs, ids) && objectId !in t.objects
    ensures Total(ChunkSizes(t', objectId)) == Total(SpecSizes(specs))
  {
    OwnRows(t, t', objectId, specs, ids);
    forall i | i in ids
      ensures ids[i] in ChunkSizes(t', objectId) && ChunkSizes(t', objectId)[ids[i]] == specs[i].size
    {
      assert RowFor(t, t', objectId, i, specs[i], ids[i]);
    }
    assert ChunkSizes(t', objectId).Keys == ChunksOf(t', objectId);
    RenamedTotal(SpecSizes(specs), ChunkSizes(t', objectId), ids);
  }

  // ---- multipart completion, as a relation between the tables before and after ----

  /** The parts of an upload as rows to be: each with the locations stored under its own part number. */
  function PartSpecs(t: Tables, upload: nat): map<int, RowSpec> {
    map i | i in PartIndices(t, upload) && (upload, i) in t.parts ::
      RowSpec(t.parts[(upload, i)].hash, t.parts[(upload, i)].size, PartNodes(t, upload, i))
  }

  /** No temporary row of this upload is left; those of other uploads are as they were. */
  ghost predicate TemporaryGone(t: Tables, t': Tables, upload: nat) {
    && t'.uploads == t.uploads - {upload}
    && t'.parts == (map k | k in t.parts && k.0 != upload :: t.parts[k])
    && t'.partLocations == (map k | k in t.partLocations && k.0 != upload :: t.partLocations[k])
  }

  ghost predicate Completed(t: Tables, t': Tables, upload: nat, userId: string, objectId: nat,
                            ids: map<int, nat>) {
    && upload in t.uploads && t.uploads[upload].userId == userId && objectId !in t.objects
    && t'.objects == t.objects[objectId := ObjectRow(userId, t.uploads[upload].filename,
         t.uploads[upload].contentType, Total(SpecSizes(PartSpecs(t, upload))))]
    && RowsInserted(t, t', objectId, PartSpecs(t, upload), ids)
    && TemporaryGone(t, t', upload)
  }

  /** Completion conserves everything: the object's rows are the moved parts and no others, its size is
      the sum of the sizes of its rows, and nothing is left that a second completion could move. */
  lemma CompletedConserves(t: Tables, t': Tables, upload: nat, userId: string, objectId: nat,
                           ids: map<int, nat>)
    requires Valid(t) && Completed(t, t', upload, userId, objectId, ids)
    ensures ids.Keys == PartIndices(t, upload) && ChunksOf(t', objectId) == Image(ids)
    ensures t'.objects[objectId].size == Total(ChunkSizes(t', objectId))
    ensures upload !in t'.uploads && PartIndices(t', upload) == {} && forall i :: PartNodes(t', upload, i) == {}
    ensures forall other :: other != objectId ==> ChunksOf(t', other) == ChunksOf(t, other)
  {
    OwnRows(t, t', objectId, PartSpecs(t, upload), ids);
    RowsTotal(t, t', objectId, PartSpecs(t, upload), ids);
    NoPartsLeft(t, t', upload);
    forall other | other != objectId ensures ChunksOf(t', other) == ChunksOf(t, other) {
      OtherRows(t, t', objectId, PartSpecs(t, upload), ids, other);
    }
  }

  lemma NoPartsLeft(t: Tables, t': Tables, upload: nat)
    requires TemporaryGone(t, t', upload)
    ensures upload !in t'.uploads && PartIndices(t', upload) == {} && forall i :: PartNodes(t', upload, i) == {}
    ensures forall other :: other != upload ==> PartIndices(t', other) == PartIndices(t, other)
  {
  }

  lemma OtherRows(t: Tables, t': Tables, objectId: nat, specs: map<int, RowSpec>, ids: map<int, nat>, other: nat)
    requires Valid(t) && RowsInserted(t, t', objectId, specs, ids) && objectId !in t.objects && other != objectId
    ensures ChunksOf(t', other) == ChunksOf(t, other)
  {
  }
}
