/** Object content: how bytes become sealed chunks, which bytes the tables say an object holds, and what
    a download makes of the replicas' answers. */
module Content {
  import opened Sequences
  import opened Cluster
  import opened Tables
  import opened Repository

  /** The digest, the compressor and the cipher; nothing is assumed of them but what Lawful states. */
  datatype Codec = Codec(
    hash: Bytes -> string,
    compress: Bytes -> Bytes,
    decompress: Bytes -> Option<Bytes>,
    encrypt: (Bytes, Bytes) -> Bytes,
    decrypt: Bytes -> Option<Bytes>)

  /** Decoding undoes encoding, whatever nonce the encryption used, and nothing decrypts from an empty file. */
  ghost predicate Lawful(codec: Codec) {
    && (forall x :: codec.decompress(codec.compress(x)) == Some(x))
    && (forall nonce, x :: codec.decrypt(codec.encrypt(nonce, x)) == Some(x))
    && codec.decrypt([]) == None
  }

  function Seal(codec: Codec, nonce: Bytes, plain: Bytes): Bytes {
    codec.encrypt(nonce, codec.compress(plain))
  }

  function Open(codec: Codec, sealed: Bytes): Option<Bytes> {
    match codec.decrypt(sealed)
    case None => None
    case Some(compressed) => codec.decompress(compressed)
  }

  lemma OpenUndoesSeal(codec: Codec, nonce: Bytes, plain: Bytes)
    requires Lawful(codec)
    ensures Open(codec, Seal(codec, nonce, plain)) == Some(plain)
  {
  }

  /** A file is good for a digest if it opens to bytes that have it. */
  ghost function GoodFor(codec: Codec): (string, Bytes) -> bool {
    (hash, file) => Open(codec, file).Some? && codec.hash(Open(codec, file).value) == hash
  }

  /** The plaintext that a download accepts from one answer of one replica. */
  function Accept(codec: Codec, hash: string, answer: Option<Bytes>): Option<Bytes> {
    match answer
    case None => None
    case Some(sealed) =>
      match Open(codec, sealed)
      case None => None
      case Some(plain) => if codec.hash(plain) == hash then Some(plain) else None
  }

  /** What the k-th row of a listing would be told by a node, if asked. */
  type Answers = (nat, string) -> Option<Bytes>

  /** The first acceptable answer among the replicas, in their listed order. */
  function Serve(codec: Codec, hash: string, nodes: seq<string>, k: nat, answers: Answers): Option<Bytes> {
    if nodes == [] then None
    else
      var s := Serve(codec, hash, nodes[..|nodes| - 1], k, answers);
      if s.Some? then s else Accept(codec, hash, answers(k, nodes[|nodes| - 1]))
  }

  /** The plaintexts written before the first row that no replica can serve. */
  function Served(codec: Codec, rows: seq<Chunk>, answers: Answers): seq<Bytes> {
    if rows == [] then []
    else
      var k := |rows| - 1;
      var before := Served(codec, rows[..k], answers);
      if |before| < k then before
      else
        match Serve(codec, rows[k].hash, rows[k].nodes, k, answers)
        case None => before
        case Some(plain) => before + [plain]
  }

  datatype Response = Response(status: nat, body: Bytes)

  /** Text as the error helper of Go's HTTP package writes it. */
  function Text(s: string): (r: Bytes)
    ensures |r| == |s| + 1 && r[|s|] == 10
    ensures forall i :: 0 <= i < |s| ==> r[i] == s[i] as int % 256
  {
    seq(|s|, i requires 0 <= i < |s| => s[i] as int % 256) + [10]
  }

  /** The response of a download.  A row that cannot be served ends it with an error text, but once any
      chunk has been written the status has already gone out as 200. */
  function Answer(codec: Codec, rows: seq<Chunk>, answers: Answers): Response {
    var served := Served(codec, rows, answers);
    if |served| == |rows| then Response(200, Flatten(served))
    else Response(if served == [] then 500 else 200, Flatten(served) + Text("all replicas failed or corrupted"))
  }

  /** What a client gets that goes away after so many chunks: the first write that fails ends the download,
      and an error text after it does not arrive. */
  function Sent(codec: Codec, rows: seq<Chunk>, answers: Answers, leaves: Option<nat>): Response {
    var served := Served(codec, rows, answers);
    if leaves.Some? && leaves.value <= |served|
    then Response(Answer(codec, rows, answers).status, Flatten(served[..leaves.value]))
    else Answer(codec, rows, answers)
  }

  /** The i-th replica is the first with an acceptable answer. */
  predicate FirstAccepted(codec: Codec, hash: string, nodes: seq<string>, k: nat, answers: Answers, i: nat) {
    && i < |nodes| && Accept(codec, hash, answers(k, nodes[i])).Some?
    && forall j: nat :: j < i ==> Accept(codec, hash, answers(k, nodes[j])).None?
  }

  /** A row is served from the first replica with an acceptable answer, and not at all only without one. */
  lemma {:induction false} ServeFirst(codec: Codec, hash: string, nodes: seq<string>, k: nat, answers: Answers)
    ensures var s := Serve(codec, hash, nodes, k, answers);
      && (s.Some? <==> exists n :: n in nodes && Accept(codec, hash, answers(k, n)).Some?)
      && (s.Some? ==> exists i: nat :: FirstAccepted(codec, hash, nodes, k, answers, i) &&
                        s == Accept(codec, hash, answers(k, nodes[i])))
  {
    if nodes != [] {
      var init, last := nodes[..|nodes| - 1], nodes[|nodes| - 1];
      ServeFirst(codec, hash, init, k, answers);
      assert nodes == init + [last];
      if Serve(codec, hash, init, k, answers).Some? {
        var i: nat :| FirstAccepted(codec, hash, init, k, answers, i) &&
          Serve(codec, hash, init, k, answers) == Accept(codec, hash, answers(k, init[i]));
        assert FirstAccepted(codec, hash, nodes, k, answers, i);
      } else if Accept(codec, hash, answers(k, last)).Some? {
        assert FirstAccepted(codec, hash, nodes, k, answers, |init|);
      }
    }
  }

  /** Row k can be served. */
  predicate CanServe(codec: Codec, rows: seq<Chunk>, k: nat, answers: Answers)
    requires k < |rows|
  {
    Serve(codec, rows[k].hash, rows[k].nodes, k, answers).Some?
  }

  lemma {:induction false} ServedFacts(codec: Codec, rows: seq<Chunk>, answers: Answers)
    ensures var served := Served(codec, rows, answers);
      && |served| <= |rows|
      && (forall k: nat :: k < |served| ==>
            CanServe(codec, rows, k, answers) &&
            served[k] == Serve(codec, rows[k].hash, rows[k].nodes, k, answers).value)
      && (|served| < |rows| ==> !CanServe(codec, rows, |served|, answers))
  {
    if rows != [] {
      var init := rows[..|rows| - 1];
      ServedFacts(codec, init, answers);
      var before := Served(codec, init, answers);
      forall k: nat | k < |init| ensures CanServe(codec, rows, k, answers) == CanServe(codec, init, k, answers) {
        assert rows[k] == init[k];
      }
    }
  }

  // ---- what the tables say an object holds ----

  /** The object's rows describe exactly these plaintexts, by index. */
  ghost predicate Describes(codec: Codec, t: Tables, objectId: nat, content: map<int, Bytes>) {
    && (forall c :: c in ChunksOf(t, objectId) ==>
          t.chunks[c].index in content && t.chunks[c].hash == codec.hash(content[t.chunks[c].index])
          && t.chunks[c].size == |content[t.chunks[c].index]|)
    && (forall i :: i in content ==> exists c :: c in ChunksOf(t, objectId) && t.chunks[c].index == i)
  }

  /** Every chunk of the object is recorded on at least this many nodes. */
  ghost predicate RecordedOn(t: Tables, objectId: nat, quorum: int) {
    forall c :: c in ChunksOf(t, objectId) ==> |NodesOf(t, c)| >= quorum
  }

  /** No answer decodes to bytes that differ from the chunk asked for but have its digest. */
  ghost predicate NoCollision(codec: Codec, content: map<int, Bytes>, rows: seq<Chunk>, answers: Answers) {
    forall k: nat, n :: k < |rows| && n in rows[k].nodes && rows[k].index in content ==>
      NoCollisionAt(codec, content[rows[k].index], answers(k, n))
  }

  ghost predicate NoCollisionAt(codec: Codec, plain: Bytes, answer: Option<Bytes>) {
    answer.Some? && Open(codec, answer.value).Some? &&
    codec.hash(Open(codec, answer.value).value) == codec.hash(plain) ==>
      Open(codec, answer.value).value == plain
  }

  ghost function IndexesOf(rows: seq<Chunk>): (r: seq<int>)
    ensures |r| == |rows| && forall k :: 0 <= k < |r| ==> r[k] == rows[k].index
  {
    seq(|rows|, k requires 0 <= k < |rows| => rows[k].index)
  }

  ghost predicate Covers(content: map<int, Bytes>, order: seq<int>) {
    forall k :: 0 <= k < |order| ==> order[k] in content
  }

  /** The plaintexts of these indices, in this order. */
  ghost function Select(content: map<int, Bytes>, order: seq<int>): (r: seq<Bytes>)
    requires Covers(content, order)
    ensures |r| == |order| && forall k :: 0 <= k < |r| ==> r[k] == content[order[k]]
  {
    seq(|order|, k requires 0 <= k < |order| => content[order[k]])
  }

  lemma ListedIndex(codec: Codec, t: Tables, objectId: nat, content: map<int, Bytes>, rows: seq<Chunk>)
    requires Describes(codec, t, objectId, content) && Listing(t, objectId, rows)
    ensures Covers(content, IndexesOf(rows))
    ensures forall i :: 0 <= i < |rows| ==>
      rows[i].index in content && rows[i].hash == codec.hash(content[rows[i].index]) && rows[i].nodes != []
  {
  }

  /** An accepted answer is the chunk. */
  lemma ServedIsContent(codec: Codec, plain: Bytes, hash: string, nodes: seq<string>, k: nat, answers: Answers)
    requires hash == codec.hash(plain) && forall n :: n in nodes ==> NoCollisionAt(codec, plain, answers(k, n))
    ensures var s := Serve(codec, hash, nodes, k, answers); s.Some? ==> s.value == plain
  {
  }

  lemma ServedPrefix(codec: Codec, t: Tables, objectId: nat, content: map<int, Bytes>, rows: seq<Chunk>,
                     answers: Answers)
    requires Describes(codec, t, objectId, content) && Listing(t, objectId, rows)
    requires NoCollision(codec, content, rows, answers)
    ensures Covers(content, IndexesOf(rows))
    ensures Served(codec, rows, answers) <= Select(content, IndexesOf(rows))
    ensures |Served(codec, rows, answers)| == |rows| <==>
      forall k: nat :: k < |rows| ==> CanServe(codec, rows, k, answers)
  {
    ListedIndex(codec, t, objectId, content, rows);
    ServedFacts(codec, rows, answers);
    var served := Served(codec, rows, answers);
    forall k: nat | k < |served| ensures served[k] == content[rows[k].index] {
      assert CanServe(codec, rows, k, answers);
      ServedIsContent(codec, content[rows[k].index], rows[k].hash, rows[k].nodes, k, answers);
    }
  }

  /** The download ended before row `cut`, which no replica could serve. */
  ghost predicate StoppedAt(codec: Codec, rows: seq<Chunk>, answers: Answers, pieces: seq<Bytes>, cut: nat) {
    && cut < |rows| == |pieces| && !CanServe(codec, rows, cut, answers)
    && Answer(codec, rows, answers) ==
         Response(if cut == 0 then 500 else 200, Flatten(pieces[..cut]) + Text("all replicas failed or corrupted"))
  }

  /** Integrity: whatever the replicas answer, what a download writes before any error text is a prefix,
      cut between chunks, of what the listed rows hold, and it is all of it exactly when every row has a
      replica with an acceptable answer. */
  lemma Integrity(codec: Codec, t: Tables, objectId: nat, content: map<int, Bytes>, rows: seq<Chunk>, answers: Answers)
    requires Describes(codec, t, objectId, content) && Listing(t, objectId, rows)
    requires NoCollision(codec, content, rows, answers)
    ensures Covers(content, IndexesOf(rows))
    ensures var pieces := Select(content, IndexesOf(rows));
      if forall k: nat :: k < |rows| ==> CanServe(codec, rows, k, answers)
      then Answer(codec, rows, answers) == Response(200, Flatten(pieces))
      else exists cut: nat :: StoppedAt(codec, rows, answers, pieces, cut)
  {
    ServedPrefix(codec, t, objectId, content, rows, answers);
    ServedFacts(codec, rows, answers);
    var served, pieces := Served(codec, rows, answers), Select(content, IndexesOf(rows));
    assert served == pieces[..|served|];
    if |served| == |rows| {
      assert served == pieces;
    } else {
      assert StoppedAt(codec, rows, answers, pieces, |served|);
    }
  }

  /** A client that goes away has got whole chunks of the listed content, from its beginning. */
  lemma LeaverGetsPrefix(codec: Codec, t: Tables, objectId: nat, content: map<int, Bytes>, rows: seq<Chunk>,
                         answers: Answers, leaves: nat)
    requires Describes(codec, t, objectId, content) && Listing(t, objectId, rows)
    requires NoCollision(codec, content, rows, answers) && leaves <= |Served(codec, rows, answers)|
    ensures Covers(content, IndexesOf(rows)) && leaves <= |rows|
    ensures Sent(codec, rows, answers, Some(leaves)).body == Flatten(Select(content, IndexesOf(rows))[..leaves])
    ensures Sent(codec, rows, answers, Some(leaves)).status ==
      if rows != [] && !CanServe(codec, rows, 0, answers) then 500 else 200
  {
    ServedPrefix(codec, t, objectId, content, rows, answers);
    ServedFacts(codec, rows, answers);
    var served, pieces := Served(codec, rows, answers), Select(content, IndexesOf(rows));
    assert served[..leaves] == pieces[..leaves];
  }

  /** Some recorded replica of every listed row answers with a ciphertext of the chunk. */
  ghost predicate EachHasGoodReplica(codec: Codec, content: map<int, Bytes>, rows: seq<Chunk>, answers: Answers) {
    forall k: nat :: k < |rows| && rows[k].index in content ==>
      exists n :: n in rows[k].nodes && GoodAnswer(codec, content[rows[k].index], answers(k, n))
  }

  predicate GoodAnswer(codec: Codec, plain: Bytes, answer: Option<Bytes>) {
    answer.Some? && Open(codec, answer.value) == Some(plain)
  }

  lemma GoodIsServable(codec: Codec, rows: seq<Chunk>, k: nat, answers: Answers, plain: Bytes)
    requires k < |rows| && rows[k].hash == codec.hash(plain)
    requires exists n :: n in rows[k].nodes && GoodAnswer(codec, plain, answers(k, n))
    ensures CanServe(codec, rows, k, answers)
  {
    var n :| n in rows[k].nodes && GoodAnswer(codec, plain, answers(k, n));
    ServeFirst(codec, rows[k].hash, rows[k].nodes, k, answers);
  }

  /** One good replica of each listed row is enough for all of what the listed rows hold. */
  lemma DownloadDelivers(codec: Codec, t: Tables, objectId: nat, content: map<int, Bytes>, rows: seq<Chunk>,
                         answers: Answers)
    requires Describes(codec, t, objectId, content) && Listing(t, objectId, rows)
    requires NoCollision(codec, content, rows, answers) && EachHasGoodReplica(codec, content, rows, answers)
    ensures Covers(content, IndexesOf(rows))
    ensures Answer(codec, rows, answers) == Response(200, Flatten(Select(content, IndexesOf(rows))))
  {
    ListedIndex(codec, t, objectId, content, rows);
    forall k: nat | k < |rows| ensures CanServe(codec, rows, k, answers) {
      GoodIsServable(codec, rows, k, answers, content[rows[k].index]);
    }
    Integrity(codec, t, objectId, content, rows, answers);
  }

  /** The indices that a listing shows are those of the rows that have a location; the others are left out
      of the download without any sign of it. */
  lemma ListedIndices(codec: Codec, t: Tables, objectId: nat, content: map<int, Bytes>, rows: seq<Chunk>, i: int)
    requires Valid(t) && Describes(codec, t, objectId, content) && Listing(t, objectId, rows)
    ensures (exists k :: 0 <= k < |rows| && rows[k].index == i) <==>
      exists c :: c in ChunksOf(t, objectId) && t.chunks[c].index == i && NodesOf(t, c) != {}
  {
    if k :| 0 <= k < |rows| && rows[k].index == i {
      assert AsStored(t, rows[k]);
      assert rows[k].nodes[0] in Elements(rows[k].nodes);
    }
    if c :| c in ChunksOf(t, objectId) && t.chunks[c].index == i && NodesOf(t, c) != {} {
      var k :| 0 <= k < |rows| && rows[k].id == c;
      assert AsStored(t, rows[k]);
    }
  }

  lemma ListedAll(codec: Codec, t: Tables, objectId: nat, content: map<int, Bytes>, rows: seq<Chunk>, i: int)
    requires Valid(t) && Describes(codec, t, objectId, content) && Listing(t, objectId, rows)
    requires RecordedOn(t, objectId, 1)
    ensures i in IndexesOf(rows) <==> i in content
  {
  }

  /** With a location for every chunk, the listing goes through all indices in ascending order. */
  lemma CompleteListing(codec: Codec, t: Tables, objectId: nat, content: map<int, Bytes>, rows: seq<Chunk>,
                        order: seq<int>)
    requires Valid(t) && Describes(codec, t, objectId, content) && Listing(t, objectId, rows)
    requires RecordedOn(t, objectId, 1)
    requires Ascending(order) && Lists(order, content.Keys)
    ensures IndexesOf(rows) == order
  {
    forall i ensures i in Elements(IndexesOf(rows)) <==> i in content.Keys {
      ListedAll(codec, t, objectId, content, rows, i);
    }
    AscendingListingUnique(IndexesOf(rows), order);
  }

  /** The round trip: an object whose chunks are all recorded somewhere, and each still has one good
      recorded replica, is delivered whole and in order, whatever the other replicas answer. */
  lemma RoundTrip(codec: Codec, t: Tables, objectId: nat, content: map<int, Bytes>, rows: seq<Chunk>,
                  answers: Answers, order: seq<int>)
    requires Valid(t) && Describes(codec, t, objectId, content) && RecordedOn(t, objectId, 1)
    requires Listing(t, objectId, rows) && Ascending(order) && Lists(order, content.Keys)
    requires NoCollision(codec, content, rows, answers) && EachHasGoodReplica(codec, content, rows, answers)
    ensures Covers(content, order)
    ensures Answer(codec, rows, answers) == Response(200, Flatten(Select(content, order)))
  {
    CompleteListing(codec, t, objectId, content, rows, order);
    DownloadDelivers(codec, t, objectId, content, rows, answers);
  }

  /** Every recorded replica of the object opens to bytes of its chunk's digest. */
  ghost predicate OnDisk(codec: Codec, t: Tables, objectId: nat, files: Files) {
    forall c :: c in ChunksOf(t, objectId) ==> Backed(t.chunks[c].hash, NodesOf(t, c), files, GoodFor(codec))
  }

  /** Nodes outside `down` answer from their files; those inside answer anything or nothing. */
  ghost predicate AnswersFrom(rows: seq<Chunk>, answers: Answers, files: Files, down: set<string>) {
    forall k: nat, n :: k < |rows| && n in rows[k].nodes && n !in down && (n, rows[k].hash) in files ==>
      answers(k, n) == Some(files[(n, rows[k].hash)])
  }

  /** Quorum durability: with every chunk recorded on q nodes that hold it, any q - 1 nodes may be down or
      corrupt, and the object is still delivered whole. */
  lemma QuorumDurability(codec: Codec, t: Tables, objectId: nat, content: map<int, Bytes>, rows: seq<Chunk>,
                         answers: Answers, order: seq<int>, files: Files, down: set<string>, q: nat)
    requires Valid(t) && Describes(codec, t, objectId, content) && RecordedOn(t, objectId, q)
    requires OnDisk(codec, t, objectId, files)
    requires AnswersFrom(rows, answers, files, down) && |down| < q
    requires Listing(t, objectId, rows) && Ascending(order) && Lists(order, content.Keys)
    requires NoCollision(codec, content, rows, answers)
    ensures Covers(content, order)
    ensures Answer(codec, rows, answers) == Response(200, Flatten(Select(content, order)))
  {
    forall k: nat | k < |rows| && rows[k].index in content
      ensures exists n :: n in rows[k].nodes && GoodAnswer(codec, content[rows[k].index], answers(k, n))
    {
      assert AsStored(t, rows[k]);
      var c := rows[k].id;
      var n := OneUp(NodesOf(t, c), down);
      assert n in Elements(rows[k].nodes);
    }
    RoundTrip(codec, t, objectId, content, rows, answers, order);
  }

  lemma OneUp(nodes: set<string>, down: set<string>) returns (n: string)
    requires |nodes| > |down|
    ensures n in nodes && n !in down
  {
    if nodes <= down {
      SubsetSize(nodes, down);
      assert false;
    }
    n :| n in nodes && n !in down;
  }
}
