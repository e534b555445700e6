/** The statements and transactions of internal/db/object_repo.go.  Each transaction is one step: it
    commits as a whole or leaves the tables as they were.  Any of them may fail for reasons outside the
    model, and `faults` counts those failures; identifiers that the database makes up are merely new. */
module Repository {
  import opened Sequences
  import opened Tables

  class Database {
    var tables: Tables
    /** Statements that failed for reasons outside the model. */
    var faults: nat

    constructor ()
      ensures tables == Tables(map[], map[], map[], map[], map[], map[]) && faults == 0
    {
      tables, faults := Tables(map[], map[], map[], map[], map[], map[]), 0;
    }

    method CreateObject(userId: string, name: string, contentType: string, size: int)
      returns (id: Option<nat>)
      requires Valid(tables)
      modifies this
      ensures Valid(tables) && faults == old(faults) + if id.Some? then 0 else 1
      ensures id.None? ==> tables == old(tables)
      ensures id.Some? ==>
        && id.value !in old(tables).objects
        && tables == old(tables).(
             objects := old(tables).objects[id.value := ObjectRow(userId, name, contentType, size)])
    {
      if * {
        faults := faults + 1;
        return None;
      }
      FreshId(tables.objects.Keys);
      var newId: nat :| newId !in tables.objects.Keys;
      tables := tables.(objects := tables.objects[newId := ObjectRow(userId, name, contentType, size)]);
      return Some(newId);
    }

    /** Inserts a chunk row and its location rows in one transaction. */
    method CreateChunk(objectId: nat, index: int, hash: string, size: int, nodes: seq<string>)
      returns (id: Option<nat>)
      requires Valid(tables)
      modifies this
      ensures Valid(tables) && old(faults) <= faults <= old(faults) + if id.Some? then 0 else 1
      ensures id.None? ==> tables == old(tables)
      ensures id.None? && faults == old(faults) ==>
        objectId !in tables.objects || !IsColumnInt(index) || !Distinct(nodes) ||
        exists c :: c in ChunksOf(tables, objectId) && tables.chunks[c].index == index
      ensures id.Some? ==>
        && id.value !in old(tables).chunks && objectId in old(tables).objects && Distinct(nodes)
        && tables == old(tables).(
             chunks := old(tables).chunks[id.value := ChunkRow(objectId, index, hash, size)],
             locations := old(tables).locations[id.value := Elements(nodes)])
    {
      if * {
        faults := faults + 1;
        return None;
      }
      if objectId !in tables.objects || !IsColumnInt(index) ||
         exists c :: c in ChunksOf(tables, objectId) && tables.chunks[c].index == index {
        return None;
      }
      FreshId(tables.chunks.Keys);
      var newId: nat :| newId !in tables.chunks.Keys;
      var inserted: set<string> := {};
      for i := 0 to |nodes|
        invariant inserted == Elements(nodes[..i]) && Distinct(nodes[..i])
        invariant tables == old(tables) && faults == old(faults)
      {
        if nodes[i] in inserted {
          return None;
        }
        ElementsAppend(nodes[..i], nodes[i]);
        assert nodes[..i + 1] == nodes[..i] + [nodes[i]];
        inserted := inserted + {nodes[i]};
      }
      assert nodes[..|nodes|] == nodes;
      tables := tables.(chunks := tables.chunks[newId := ChunkRow(objectId, index, hash, size)],
                        locations := tables.locations[newId := inserted]);
      return Some(newId);
    }

    method AddChunkLocation(chunk: nat, node: string) returns (ok: bool)
      requires Valid(tables)
      modifies this
      ensures Valid(tables) && old(faults) <= faults <= old(faults) + if ok then 0 else 1
      ensures !ok ==> tables == old(tables) && (faults == old(faults) ==> chunk !in tables.chunks)
      ensures ok ==> tables == WithLocation(old(tables), chunk, node)
    {
      if * {
        faults := faults + 1;
        return false;
      }
      if chunk !in tables.chunks {
        return false;
      }
      tables := WithLocation(tables, chunk, node);
      return true;
    }

    method RemoveChunkLocation(chunk: nat, node: string) returns (ok: bool)
      requires Valid(tables)
      modifies this
      ensures Valid(tables) && faults == old(faults) + if ok then 0 else 1
      ensures !ok ==> tables == old(tables)
      ensures ok ==> tables == WithoutLocation(old(tables), chunk, node)
    {
      if * {
        faults := faults + 1;
        return false;
      }
      tables := WithoutLocation(tables, chunk, node);
      return true;
    }

    /** The inner join of chunks with their locations, in the order that the database happens to use;
        rows without a location do not appear. */
    method GetAllChunks() returns (rows: Option<seq<Chunk>>)
      requires Valid(tables)
      modifies this`faults
      ensures faults == old(faults) + if rows.Some? then 0 else 1
      ensures rows.Some? ==> Joined(tables, tables.chunks.Keys, rows.value)
    {
      if * {
        faults := faults + 1;
        return None;
      }
      var listed: seq<Chunk> := [];
      var rest := tables.chunks.Keys;
      while rest != {}
        invariant rest <= tables.chunks.Keys
        invariant Joined(tables, tables.chunks.Keys - rest, listed) && faults == old(faults)
        decreases rest
      {
        var c :| c in rest;
        ghost var done := tables.chunks.Keys - rest;
        rest := rest - {c};
        assert tables.chunks.Keys - rest == done + {c};
        if NodesOf(tables, c) != {} {
          var nodes := List(NodesOf(tables, c));
          var row := Chunk(c, tables.chunks[c].index, tables.chunks[c].hash, nodes);
          JoinedAppend(tables, done, listed, row);
          listed := listed + [row];
        }
      }
      assert tables.chunks.Keys - rest == tables.chunks.Keys;
      return Some(listed);
    }

    /** The chunk rows of an object that have a location, in ascending order of index. */
    method GetChunksByObjectID(objectId: nat) returns (rows: Option<seq<Chunk>>)
      requires Valid(tables)
      modifies this`faults
      ensures faults == old(faults) + if rows.Some? then 0 else 1
      ensures rows.Some? ==> Listing(tables, objectId, rows.value)
    {
      if * {
        faults := faults + 1;
        return None;
      }
      var listed: seq<Chunk> := [];
      var rest := ChunksOf(tables, objectId);
      while rest != {}
        invariant rest <= ChunksOf(tables, objectId) && faults == old(faults)
        invariant ListedBefore(tables, objectId, listed, rest)
        decreases rest
      {
        ghost var least := LeastIndex(tables, objectId, rest);
        assert forall d :: d in rest && d != least ==> tables.chunks[least].index < tables.chunks[d].index;
        var c :| c in rest && forall d :: d in rest && d != c ==> tables.chunks[c].index < tables.chunks[d].index;
        var nodes := List(NodesOf(tables, c));
        var row := Chunk(c, tables.chunks[c].index, tables.chunks[c].hash, nodes);
        ListNext(tables, objectId, listed, rest, row);
        if NodesOf(tables, c) != {} {
          listed := listed + [row];
        }
        rest := rest - {c};
      }
      assert ChunksOf(tables, objectId) - rest == ChunksOf(tables, objectId);
      return Some(listed);
    }

    method CreateMultipartUpload(userId: string, filename: string, contentType: string)
      returns (id: Option<nat>)
      requires Valid(tables)
      modifies this
      ensures Valid(tables) && faults == old(faults) + if id.Some? then 0 else 1
      ensures id.None? ==> tables == old(tables)
      ensures id.Some? ==>
        && id.value !in old(tables).uploads
        && tables == old(tables).(
             uploads := old(tables).uploads[id.value := UploadRow(userId, filename, contentType)])
    {
      if * {
        faults := faults + 1;
        return None;
      }
      FreshId(tables.uploads.Keys);
      var newId: nat :| newId !in tables.uploads.Keys;
      tables := tables.(uploads := tables.uploads[newId := UploadRow(userId, filename, contentType)]);
      return Some(newId);
    }

    /** Inserts a part and its locations in one transaction. */
    method CreateMultipartChunk(upload: nat, index: int, hash: string, size: int, nodes: seq<string>)
      returns (ok: bool)
      requires Valid(tables)
      modifies this
      ensures Valid(tables) && old(faults) <= faults <= old(faults) + if ok then 0 else 1
      ensures !ok ==> tables == old(tables)
      ensures !ok && faults == old(faults) ==>
        upload !in tables.uploads || !IsColumnInt(index) || (upload, index) in tables.parts || !Distinct(nodes)
      ensures ok ==>
        && upload in old(tables).uploads && (upload, index) !in old(tables).parts && IsColumnInt(index)
        && tables == old(tables).(
             parts := old(tables).parts[(upload, index) := PartRow(hash, size)],
             partLocations := old(tables).partLocations[(upload, index) := Elements(nodes)])
    {
      if * {
        faults := faults + 1;
        return false;
      }
      if upload !in tables.uploads || !IsColumnInt(index) || (upload, index) in tables.parts {
        return false;
      }
      var inserted: set<string> := {};
      for i := 0 to |nodes|
        invariant inserted == Elements(nodes[..i])
        invariant tables == old(tables) && faults == old(faults)
      {
        if nodes[i] in inserted {
          return false;
        }
        ElementsAppend(nodes[..i], nodes[i]);
        assert nodes[..i + 1] == nodes[..i] + [nodes[i]];
        inserted := inserted + {nodes[i]};
      }
      assert nodes[..|nodes|] == nodes;
      tables := tables.(parts := tables.parts[(upload, index) := PartRow(hash, size)],
                        partLocations := tables.partLocations[(upload, index) := inserted]);
      return true;
    }

    /** Turns an upload into an object, in one transaction. */
    method CompleteMultipartUpload(upload: nat, userId: string)
      returns (objectId: Option<nat>, ghost ids: map<int, nat>)
      requires Valid(tables)
      modifies this
      ensures Valid(tables) && old(faults) <= faults <= old(faults) + if objectId.Some? then 0 else 1
      ensures objectId.None? ==> tables == old(tables)
      ensures objectId.None? && faults == old(faults) ==>
        upload !in tables.uploads || tables.uploads[upload].userId != userId
      ensures objectId.Some? ==> Completed(old(tables), tables, upload, userId, objectId.value, ids)
    {
      ids := map[];
      if * {
        faults := faults + 1;
        return None, ids;
      }
      if upload !in tables.uploads || tables.uploads[upload].userId != userId {
        return None, ids;
      }
      FreshId(tables.objects.Keys);
      var newObject: nat :| newObject !in tables.objects.Keys;
      var tx, totalSize;
      ghost var specs;
      tx, totalSize, specs, ids := InsertChunksOfParts(tables, upload, newObject);
      var details := tables.uploads[upload];
      ghost var t, moved := tables, tx;
      tx := tx.(objects := tx.objects[newObject := ObjectRow(userId, details.filename, details.contentType, totalSize)],
                uploads := tx.uploads - {upload},
                parts := map k | k in tx.parts && k.0 != upload :: tx.parts[k],
                partLocations := map k | k in tx.partLocations && k.0 != upload :: tx.partLocations[k]);
      CompletedByMoving(t, moved, tx, upload, userId, newObject, totalSize, specs, ids);
      tables := tx;
      return Some(newObject), ids;
    }
  }

  /** Inside the transaction: a chunk row for every part of the upload, with the locations of the same
      part number, and the sum of their sizes. */
  method InsertChunksOfParts(t: Tables, upload: nat, objectId: nat)
    returns (tx: Tables, totalSize: int, ghost specs: map<int, RowSpec>, ghost ids: map<int, nat>)
    ensures MovedSoFar(t, tx, objectId, PartSpecs(t, upload), totalSize, {}, specs, ids)
    ensures totalSize == Total(SpecSizes(PartSpecs(t, upload)))
  {
    ghost var all := PartSpecs(t, upload);
    tx, totalSize, specs, ids := t, 0, map[], map[];
    var rest := PartIndices(t, upload);
    NothingMoved(t, objectId, all);
    while rest != {}
      invariant rest <= all.Keys == PartIndices(t, upload)
      invariant MovedSoFar(t, tx, objectId, all, totalSize, rest, specs, ids)
      decreases rest
    {
      var i :| i in rest;
      var part := t.parts[(upload, i)];
      FreshId(tx.chunks.Keys);
      var id: nat :| id !in tx.chunks.Keys;
      var row := RowSpec(part.hash, part.size, PartNodes(t, upload, i));
      MoveOne(t, tx, objectId, all, totalSize, rest, specs, ids, i, row, id);
      tx := WithRow(tx, objectId, i, row, id);
      totalSize := totalSize + part.size;
      specs, ids, rest := specs[i := row], ids[i := id], rest - {i};
    }
    AllMoved(t, tx, objectId, all, totalSize, specs, ids);
  }

  lemma AllMoved(t: Tables, tx: Tables, objectId: nat, all: map<int, RowSpec>, total: int,
                 specs: map<int, RowSpec>, ids: map<int, nat>)
    requires MovedSoFar(t, tx, objectId, all, total, {}, specs, ids)
    ensures specs == all && total == Total(SpecSizes(all))
  {
    var none: set<int> := {};
    assert specs.Keys == all.Keys by { assert all.Keys - none == all.Keys; }
    assert forall i :: i in all ==> i in all.Keys && i in specs.Keys && specs[i] == all[i];
    assert specs == all;
  }

  /** The rows to be outside `rest` have become rows in the transaction's tables, and are summed up. */
  ghost predicate MovedSoFar(t: Tables, tx: Tables, objectId: nat, all: map<int, RowSpec>, total: int,
                             rest: set<int>, specs: map<int, RowSpec>, ids: map<int, nat>) {
    && specs.Keys == all.Keys - rest && (forall i :: i in specs ==> specs[i] == all[i])
    && total == Total(SpecSizes(specs))
    && RowsInserted(t, tx, objectId, specs, ids) && Untouched(t, tx)
  }

  lemma NothingMoved(t: Tables, objectId: nat, all: map<int, RowSpec>)
    ensures MovedSoFar(t, t, objectId, all, 0, all.Keys, map[], map[])
  {
  }

  lemma MoveOne(t: Tables, tx: Tables, objectId: nat, all: map<int, RowSpec>, total: int, rest: set<int>,
                specs: map<int, RowSpec>, ids: map<int, nat>, i: int, row: RowSpec, id: nat)
    requires MovedSoFar(t, tx, objectId, all, total, rest, specs, ids)
    requires i in rest && rest <= all.Keys && row == all[i] && id !in tx.chunks
    ensures MovedSoFar(t, WithRow(tx, objectId, i, row, id), objectId, all, total + row.size, rest - {i},
                       specs[i := row], ids[i := id])
  {
    RowsInsertedStep(t, tx, objectId, specs, ids, i, row, id);
    SpecTotalInsert(specs, i, row);
    SpecsStep(all, rest, specs, i, row);
    UntouchedStep(t, tx, objectId, i, row, id);
  }

  lemma SpecsStep(all: map<int, RowSpec>, rest: set<int>, specs: map<int, RowSpec>, i: int, row: RowSpec)
    requires specs.Keys == all.Keys - rest && (forall j :: j in specs ==> specs[j] == all[j])
    requires i in rest && rest <= all.Keys && row == all[i]
    ensures var specs' := specs[i := row];
      specs'.Keys == all.Keys - (rest - {i}) && forall j :: j in specs' ==> specs'[j] == all[j]
  {
  }

  lemma UntouchedStep(t: Tables, tx: Tables, objectId: nat, i: int, row: RowSpec, id: nat)
    requires Untouched(t, tx)
    ensures Untouched(t, WithRow(tx, objectId, i, row, id))
  {
  }

  lemma SameRows(t: Tables, moved: Tables, t': Tables, objectId: nat, specs: map<int, RowSpec>, ids: map<int, nat>)
    requires RowsInserted(t, moved, objectId, specs, ids)
    requires t'.chunks == moved.chunks && t'.locations == moved.locations
    ensures RowsInserted(t, t', objectId, specs, ids)
  {
  }

  lemma CompletedByMoving(t: Tables, moved: Tables, t': Tables, upload: nat, userId: string, objectId: nat,
                          total: int, specs: map<int, RowSpec>, ids: map<int, nat>)
    requires Valid(t) && upload in t.uploads && t.uploads[upload].userId == userId && objectId !in t.objects
    requires MovedSoFar(t, moved, objectId, PartSpecs(t, upload), total, {}, specs, ids)
    requires var u := t.uploads[upload];
      t'.objects == moved.objects[objectId := ObjectRow(userId, u.filename, u.contentType, total)]
    requires t'.chunks == moved.chunks && t'.locations == moved.locations && TemporaryGone(moved, t', upload)
    ensures Completed(t, t', upload, userId, objectId, ids) && Valid(t')
  {
    AllMoved(t, moved, objectId, PartSpecs(t, upload), total, specs, ids);
    SameRows(t, moved, t', objectId, specs, ids);
    CompletedValid(t, t', upload, userId, objectId, ids);
  }

  /** Only chunk rows and their locations have been added. */
  ghost predicate Untouched(t: Tables, t': Tables) {
    && t' == t.(chunks := t'.chunks, locations := t'.locations)
    && forall c :: c in t'.locations ==> c in t.locations || c in t'.chunks
  }

  lemma SpecTotalInsert(specs: map<int, RowSpec>, i: int, row: RowSpec)
    requires i !in specs
    ensures Total(SpecSizes(specs[i := row])) == Total(SpecSizes(specs)) + row.size
  {
    assert SpecSizes(specs[i := row]) == SpecSizes(specs)[i := row.size];
    TotalInsert(SpecSizes(specs), i, row.size);
  }

  lemma CompletedValid(t: Tables, t': Tables, upload: nat, userId: string, objectId: nat, ids: map<int, nat>)
    requires Valid(t) && Completed(t, t', upload, userId, objectId, ids)
    requires forall c :: c in t'.locations ==> c in t'.chunks
    ensures Valid(t')
  {
    var specs := PartSpecs(t, upload);
    forall c | c in t'.chunks
      ensures t'.chunks[c].objectId in t'.objects && IsColumnInt(t'.chunks[c].index)
    {
      NewRow(t, t', objectId, specs, ids, c);
    }
    forall c, d | c in t'.chunks && d in t'.chunks && SameKey(t', c, d) ensures c == d {
      NewKeysUnique(t, t', objectId, specs, ids, c, d);
    }
  }

  ghost predicate InOrder(rows: seq<Chunk>) {
    forall i, j :: 0 <= i < j < |rows| ==> rows[i].index < rows[j].index
  }

  ghost predicate Listing(t: Tables, objectId: nat, rows: seq<Chunk>) {
    Joined(t, ChunksOf(t, objectId), rows) && InOrder(rows)
  }

  /** The rows of the object outside `rest` are listed, and all of them come before those in `rest`. */
  ghost predicate ListedBefore(t: Tables, objectId: nat, rows: seq<Chunk>, rest: set<nat>) {
    && Joined(t, ChunksOf(t, objectId) - rest, rows) && InOrder(rows)
    && forall i, d :: 0 <= i < |rows| && d in rest && d in t.chunks ==> rows[i].index < t.chunks[d].index
  }

  lemma ListNext(t: Tables, objectId: nat, rows: seq<Chunk>, rest: set<nat>, row: Chunk)
    requires ListedBefore(t, objectId, rows, rest) && row.id in rest && rest <= ChunksOf(t, objectId)
    requires row == Chunk(row.id, t.chunks[row.id].index, t.chunks[row.id].hash, row.nodes)
    requires Lists(row.nodes, NodesOf(t, row.id))
    requires forall d :: d in rest && d != row.id ==> row.index < t.chunks[d].index
    ensures NodesOf(t, row.id) != {} ==> ListedBefore(t, objectId, rows + [row], rest - {row.id})
    ensures NodesOf(t, row.id) == {} ==> ListedBefore(t, objectId, rows, rest - {row.id})
  {
    var done := ChunksOf(t, objectId) - rest;
    assert ChunksOf(t, objectId) - (rest - {row.id}) == done + {row.id};
    if NodesOf(t, row.id) != {} {
      JoinedAppend(t, done, rows, row);
    }
  }

  ghost predicate IsLeast(t: Tables, ids: set<nat>, c: nat) {
    && c in ids && c in t.chunks
    && forall d :: d in ids && d in t.chunks && d != c ==> t.chunks[c].index < t.chunks[d].index
  }

  lemma {:induction false} LeastIndex(t: Tables, objectId: nat, ids: set<nat>) returns (least: nat)
    requires Valid(t) && ids != {} && ids <= ChunksOf(t, objectId)
    ensures IsLeast(t, ids, least)
  {
    var c :| c in ids;
    least := c;
    if ids != {c} {
      assert ids - {c} != {};
      var m := LeastIndex(t, objectId, ids - {c});
      assert SameKey(t, c, m) ==> c == m;
      least := if t.chunks[c].index < t.chunks[m].index then c else m;
    }
  }

  /** The rows of these chunks that have a location, each once and as the tables have it. */
  ghost predicate Joined(t: Tables, ids: set<nat>, rows: seq<Chunk>) {
    && (forall i, j :: 0 <= i < j < |rows| ==> rows[i].id != rows[j].id)
    && (forall i :: 0 <= i < |rows| ==> rows[i].id in ids && AsStored(t, rows[i]))
    && (forall c :: c in ids && NodesOf(t, c) != {} ==> exists i :: 0 <= i < |rows| && rows[i].id == c)
  }

  ghost predicate AsStored(t: Tables, row: Chunk) {
    && row.id in t.chunks && row.index == t.chunks[row.id].index && row.hash == t.chunks[row.id].hash
    && Lists(row.nodes, NodesOf(t, row.id)) && row.nodes != []
  }

  lemma JoinedAppend(t: Tables, ids: set<nat>, rows: seq<Chunk>, row: Chunk)
    requires Joined(t, ids, rows) && row.id !in ids && AsStored(t, row)
    ensures Joined(t, ids + {row.id}, rows + [row])
  {
    forall c | c in ids + {row.id} && NodesOf(t, c) != {}
      ensures exists i :: 0 <= i < |rows + [row]| && (rows + [row])[i].id == c
    {
      if c == row.id {
        assert (rows + [row])[|rows|].id == c;
      } else {
        var i :| 0 <= i < |rows| && rows[i].id == c;
        assert (rows + [row])[i].id == c;
      }
    }
  }

  /** The elements of a set in some order. */
  method List(s: set<string>) returns (listed: seq<string>)
    ensures Lists(listed, s)
  {
    listed := [];
    var rest := s;
    while rest != {}
      invariant rest <= s && Lists(listed, s - rest)
      decreases rest
    {
      var n :| n in rest;
      ElementsAppend(listed, n);
      assert n !in Elements(listed);
      listed, rest := listed + [n], rest - {n};
      assert s - rest == Elements(listed);
    }
  }
}
