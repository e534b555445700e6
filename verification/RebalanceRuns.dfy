/** Whole passes of the rebalancer, and what they do together with changes of membership. */
module RebalanceRuns {
  import opened Sequences
  import opened Ring
  import opened RingInvariant
  import opened RingTheory
  import opened RingDisruption
  import opened Cluster
  import opened Tables
  import opened Repository
  import opened Rebalancer
  import opened SharedDigests

  ghost function Expected(cfg: Config, st: RingState, hash: string, replicas: int): set<string> {
    Elements(Place(st, cfg.hash(hash), replicas))
  }

  /** A row has moved toward its expected nodes, or not at all; one without a location stays so. */
  ghost predicate Toward(before: set<string>, after: set<string>, expected: set<string>) {
    before * expected <= after <= before + expected && (before == {} ==> after == {})
  }

  ghost predicate Settled(t: Tables, c: nat, expected: set<string>) {
    NodesOf(t, c) == {} || NodesOf(t, c) == expected
  }

  /** The step that a pass over one row is for all rows. */
  ghost predicate RowStep(t: Tables, t': Tables, c: nat, p: RowPass) {
    && c in t.chunks && Possible(p) && p.hash == t.chunks[c].hash
    && p.current == NodesOf(t, c) && p.after == NodesOf(t', c) && SameButNodes(t, t', c)
  }

  /** Without failures, and with its replicas readable, a pass over a row ends at what the ring expects. */
  lemma RowConverges(p: RowPass)
    requires Possible(p) && Undisturbed(p) && p.hash != "" && p.current != {}
    requires forall m :: m in p.current ==> (m, p.hash) in p.files && p.files[(m, p.hash)] != []
    ensures p.after == p.expected
  {
  }

  /** The first k listed rows have been handled, and no other row has been touched. */
  ghost predicate Handled(t: Tables, t': Tables, rows: seq<Chunk>, k: nat) {
    && t' == t.(locations := t'.locations)
    && forall c :: (forall j :: 0 <= j < k && j < |rows| ==> rows[j].id != c) ==> NodesOf(t', c) == NodesOf(t, c)
  }

  /** What a pass starts from: the ring and the replication factor, the tables and the files. */
  datatype Setting = Setting(cfg: Config, st: RingState, replicas: int, t: Tables, files: Files)

  ghost function ExpectedFor(x: Setting, hash: string): set<string> {
    Expected(x.cfg, x.st, hash, x.replicas)
  }

  ghost predicate Located(t: Tables, c: nat) {
    c in t.chunks && NodesOf(t, c) != {}
  }

  /** The rows of one digest that a pass gets to see. */
  ghost function GroupOf(x: Setting, hash: string): Group {
    Group(hash, ExpectedFor(x, hash),
          map c | c in x.t.chunks && x.t.chunks[c].hash == hash && Located(x.t, c) :: NodesOf(x.t, c), x.files)
  }

  /** The same rows with the nodes recorded by now. */
  ghost function NowOf(x: Setting, hash: string, t: Tables): map<nat, set<string>> {
    map c | c in GroupOf(x, hash).current :: NodesOf(t, c)
  }

  ghost predicate AllToward(x: Setting, t: Tables) {
    forall c :: c in x.t.chunks ==> Toward(NodesOf(x.t, c), NodesOf(t, c), ExpectedFor(x, x.t.chunks[c].hash))
  }

  ghost predicate AllSettled(x: Setting, t: Tables) {
    forall c :: c in t.chunks ==> Settled(t, c, ExpectedFor(x, t.chunks[c].hash))
  }

  /** No other row that a pass sees has the digest of this one. */
  ghost predicate Sole(t: Tables, c: nat)
    requires c in t.chunks
  {
    forall d :: Located(t, d) && t.chunks[d].hash == t.chunks[c].hash ==> d == c
  }

  lemma StillListed(t: Tables, t': Tables, rows: seq<Chunk>, k: nat)
    requires Joined(t, t.chunks.Keys, rows) && Handled(t, t', rows, k) && k < |rows|
    ensures AsStored(t', rows[k])
  {
  }

  lemma HandledStep(t: Tables, t': Tables, t'': Tables, rows: seq<Chunk>, k: nat)
    requires Handled(t, t', rows, k) && k < |rows| && SameButNodes(t', t'', rows[k].id)
    ensures Handled(t, t'', rows, k + 1)
  {
  }

  lemma TowardStep(x: Setting, t: Tables, t': Tables, c: nat, p: RowPass)
    requires AllToward(x, t) && t.chunks == x.t.chunks && NodesOf(t, c) == NodesOf(x.t, c)
    requires RowStep(t, t', c, p) && p.expected == ExpectedFor(x, p.hash)
    ensures AllToward(x, t')
  {
  }

  // ---- a pass, row by row ----

  /** The pass over one row, the tables around it, and the calls that it made. */
  datatype Turn = Turn(t: Tables, p: RowPass, t': Tables, made: seq<Call>)

  ghost function CallsIn(turns: seq<Turn>): seq<Call> {
    if turns == [] then [] else CallsIn(turns[..|turns| - 1]) + turns[|turns| - 1].made
  }

  /** The statements that the database did not carry out. */
  ghost function LostIn(turns: seq<Turn>): nat {
    if turns == [] then 0 else LostIn(turns[..|turns| - 1]) + Lost(turns[|turns| - 1].p)
  }

  ghost function TablesAfter(x: Setting, turns: seq<Turn>): Tables {
    if turns == [] then x.t else turns[|turns| - 1].t'
  }

  ghost function FilesAfterTurns(x: Setting, turns: seq<Turn>): Files {
    if turns == [] then x.files else turns[|turns| - 1].p.files'
  }

  /** This row's turn, after the turns before it. */
  ghost predicate IsTurn(x: Setting, row: Chunk, before: seq<Turn>, turn: Turn) {
    && RowStep(turn.t, turn.t', row.id, turn.p) && turn.p.expected == ExpectedFor(x, turn.p.hash)
    && turn.t == TablesAfter(x, before) && turn.p.files == FilesAfterTurns(x, before) && Reported(turn.p, turn.made)
  }

  /** The rows have had their turns in their order. */
  ghost predicate IsHistory(x: Setting, rows: seq<Chunk>, turns: seq<Turn>) {
    turns == [] ||
    var k := |turns| - 1;
    k < |rows| && IsHistory(x, rows, turns[..k]) && IsTurn(x, rows[k], turns[..k], turns[k])
  }

  /** What went well so far: no record got stuck, nothing failed, there was nothing to do. */
  datatype Course = Course(unstuck: bool, calm: bool, quiet: bool)

  ghost function CourseOf(turns: seq<Turn>): Course {
    if turns == [] then Course(true, true, true)
    else
      var before, p := CourseOf(turns[..|turns| - 1]), turns[|turns| - 1].p;
      Course(before.unstuck && (p.end.Moved? ==> p.end.stuck == {}), before.calm && Undisturbed(p),
             before.quiet && p.end.Balanced?)
  }

  ghost function DoneOf(rows: seq<Chunk>, k: nat, hash: string): set<nat> {
    set j | 0 <= j < k && j < |rows| && rows[j].hash == hash :: rows[j].id
  }

  lemma DoneStep(rows: seq<Chunk>, k: nat, hash: string)
    requires k < |rows|
    ensures DoneOf(rows, k + 1, hash) ==
      if rows[k].hash == hash then DoneOf(rows, k, hash) + {rows[k].id} else DoneOf(rows, k, hash)
  {
  }

  lemma ListedRow(x: Setting, rows: seq<Chunk>, k: nat, t: Tables)
    requires k < |rows| && Joined(x.t, x.t.chunks.Keys, rows) && Handled(x.t, t, rows, k)
    ensures var row := rows[k];
      && Located(x.t, row.id) && row.hash == x.t.chunks[row.id].hash
      && NodesOf(t, row.id) == NodesOf(x.t, row.id) && row.id !in DoneOf(rows, k, row.hash)
  {
    assert AsStored(x.t, rows[k]);
    assert rows[k].nodes[0] in Elements(rows[k].nodes);
  }

  lemma {:induction false} HistoryHandled(x: Setting, rows: seq<Chunk>, turns: seq<Turn>)
    requires IsHistory(x, rows, turns)
    ensures Handled(x.t, TablesAfter(x, turns), rows, |turns|)
  {
    if turns != [] {
      var k := |turns| - 1;
      HistoryHandled(x, rows, turns[..k]);
      HandledStep(x.t, turns[k].t, turns[k].t', rows, k);
    }
  }

  lemma {:induction false} HistoryToward(x: Setting, rows: seq<Chunk>, turns: seq<Turn>)
    requires IsHistory(x, rows, turns) && Joined(x.t, x.t.chunks.Keys, rows)
    ensures AllToward(x, TablesAfter(x, turns))
  {
    if turns != [] {
      var k := |turns| - 1;
      HistoryToward(x, rows, turns[..k]);
      HistoryHandled(x, rows, turns[..k]);
      ListedRow(x, rows, k, turns[k].t);
      TowardStep(x, turns[k].t, turns[k].t', rows[k].id, turns[k].p);
    }
  }

  ghost predicate SoleBacked(x: Setting, good: (string, Bytes) -> bool, t: Tables, files: Files) {
    forall c :: c in x.t.chunks && Sole(x.t, c) && Backed(x.t.chunks[c].hash, NodesOf(x.t, c), x.files, good) ==>
      Backed(x.t.chunks[c].hash, NodesOf(t, c), files, good)
  }

  lemma SoleStep(x: Setting, good: (string, Bytes) -> bool, t: Tables, t': Tables, c: nat, p: RowPass)
    requires SoleBacked(x, good, t, p.files) && RowStep(t, t', c, p) && (p.end.Moved? ==> p.end.stuck == {})
    requires t.chunks == x.t.chunks && Located(x.t, c) && NodesOf(t, c) == NodesOf(x.t, c)
    ensures SoleBacked(x, good, t', p.files')
  {
    forall d | d in x.t.chunks && Sole(x.t, d) && Backed(x.t.chunks[d].hash, NodesOf(x.t, d), x.files, good)
      ensures Backed(x.t.chunks[d].hash, NodesOf(t', d), p.files', good)
    {
      if d == c {
        StaysBacked(p, good);
      } else {
        forall n ensures SameAt(p.files, p.files', (n, x.t.chunks[d].hash)) {
        }
      }
    }
  }

  lemma {:induction false} HistorySole(x: Setting, good: (string, Bytes) -> bool, rows: seq<Chunk>, turns: seq<Turn>)
    requires IsHistory(x, rows, turns) && Joined(x.t, x.t.chunks.Keys, rows) && CourseOf(turns).unstuck
    ensures SoleBacked(x, good, TablesAfter(x, turns), FilesAfterTurns(x, turns))
  {
    if turns != [] {
      var k := |turns| - 1;
      HistorySole(x, good, rows, turns[..k]);
      HistoryHandled(x, rows, turns[..k]);
      ListedRow(x, rows, k, turns[k].t);
      SoleStep(x, good, turns[k].t, turns[k].t', rows[k].id, turns[k].p);
    }
  }

  lemma {:induction false} HistoryQuiet(x: Setting, rows: seq<Chunk>, turns: seq<Turn>)
    requires IsHistory(x, rows, turns) && Joined(x.t, x.t.chunks.Keys, rows) && AllSettled(x, x.t)
    ensures CourseOf(turns).quiet && FilesAfterTurns(x, turns) == x.files
  {
    if turns != [] {
      var k := |turns| - 1;
      HistoryQuiet(x, rows, turns[..k]);
      HistoryHandled(x, rows, turns[..k]);
      ListedRow(x, rows, k, turns[k].t);
      assert Settled(x.t, rows[k].id, turns[k].p.expected);
    }
  }

  /** What is recorded after one more row, in its own group and in another one. */
  lemma NowStep(x: Setting, t: Tables, t': Tables, c: nat, p: RowPass, hash: string)
    requires RowStep(t, t', c, p) && t.chunks == x.t.chunks && Located(x.t, c) && NodesOf(t, c) == NodesOf(x.t, c)
    ensures var g := GroupOf(x, hash);
      if hash == p.hash
      then c in g.current && g.current[c] == p.current && NowOf(x, hash, t') == NowOf(x, hash, t)[c := p.after]
      else NowOf(x, hash, t') == NowOf(x, hash, t) && SameUnder(p.files, p.files', hash)
  {
    if hash != p.hash {
      forall n ensures SameAt(p.files, p.files', (n, hash)) {
        RetainedUntouched(p);
      }
    }
  }

  lemma GroupTurn(x: Setting, good: (string, Bytes) -> bool, rows: seq<Chunk>, k: nat, before: seq<Turn>, turn: Turn,
                  hash: string, calm: bool, calm': bool)
    requires Joined(x.t, x.t.chunks.Keys, rows) && k < |rows| && IsTurn(x, rows[k], before, turn)
    requires Handled(x.t, turn.t, rows, k) && (calm' ==> calm && Undisturbed(turn.p))
    requires Handling(GroupOf(x, hash), good, DoneOf(rows, k, hash), NowOf(x, hash, turn.t), turn.p.files, calm)
    ensures Handling(GroupOf(x, hash), good, DoneOf(rows, k + 1, hash), NowOf(x, hash, turn.t'), turn.p.files', calm')
  {
    var p, g, now, done := turn.p, GroupOf(x, hash), NowOf(x, hash, turn.t), DoneOf(rows, k, hash);
    ListedRow(x, rows, k, turn.t);
    NowStep(x, turn.t, turn.t', rows[k].id, p, hash);
    DoneStep(rows, k, hash);
    if hash == p.hash {
      assert DoneOf(rows, k + 1, hash) == done + {rows[k].id};
      HandlingStep(g, good, done, now, rows[k].id, p, calm, calm');
    } else {
      assert DoneOf(rows, k + 1, hash) == done;
      HandlingUnder(g, good, done, now, p.files, p.files', calm, calm');
    }
  }

  /** The rows of one digest, seen through a pass over all rows. */
  lemma {:induction false} HistoryOfGroup(x: Setting, good: (string, Bytes) -> bool, rows: seq<Chunk>,
                                          turns: seq<Turn>, hash: string)
    requires IsHistory(x, rows, turns) && Joined(x.t, x.t.chunks.Keys, rows)
    ensures Handling(GroupOf(x, hash), good, DoneOf(rows, |turns|, hash), NowOf(x, hash, TablesAfter(x, turns)),
                     FilesAfterTurns(x, turns), CourseOf(turns).calm)
  {
    if turns == [] {
      assert NowOf(x, hash, x.t) == GroupOf(x, hash).current && DoneOf(rows, 0, hash) == {};
      HandlingStarts(GroupOf(x, hash), good, CourseOf(turns).calm);
    } else {
      var k := |turns| - 1;
      HistoryOfGroup(x, good, rows, turns[..k], hash);
      HistoryHandled(x, rows, turns[..k]);
      GroupTurn(x, good, rows, k, turns[..k], turns[k], hash, CourseOf(turns[..k]).calm, CourseOf(turns).calm);
    }
  }

  /** No row touches the files on anchors of its digest. */
  ghost predicate AnchorsHeld(x: Setting, files: Files) {
    forall hash, n :: Anchor(GroupOf(x, hash), n) ==> SameAt(x.files, files, (n, hash))
  }

  /** Every safe row of a digest that started out good is where it is expected, each replica good. */
  ghost predicate SafeRowsSettled(x: Setting, good: (string, Bytes) -> bool, t: Tables, files: Files) {
    forall c :: Located(x.t, c) && StartsSafe(x, good, c) ==>
      NodesOf(t, c) == ExpectedFor(x, x.t.chunks[c].hash) && Backed(x.t.chunks[c].hash, NodesOf(t, c), files, good)
  }

  /** The row is safe, and its digest started out good. */
  ghost predicate StartsSafe(x: Setting, good: (string, Bytes) -> bool, c: nat)
    requires Located(x.t, c)
  {
    var g := GroupOf(x, x.t.chunks[c].hash);
    StartsGood(g, good) && SafeRow(g, c)
  }

  /** A pass over all rows that were read. */
  ghost predicate IsPass(x: Setting, rows: seq<Chunk>, turns: seq<Turn>) {
    Joined(x.t, x.t.chunks.Keys, rows) && IsHistory(x, rows, turns) && |turns| == |rows|
  }

  lemma PassHoldsAnchors(x: Setting, rows: seq<Chunk>, turns: seq<Turn>)
    requires IsPass(x, rows, turns)
    ensures AnchorsHeld(x, FilesAfterTurns(x, turns))
  {
    forall hash, n | Anchor(GroupOf(x, hash), n) ensures SameAt(x.files, FilesAfterTurns(x, turns), (n, hash)) {
      HistoryOfGroup(x, (h, b) => true, rows, turns, hash);
    }
  }

  lemma CalmPassSettles(x: Setting, good: (string, Bytes) -> bool, rows: seq<Chunk>, turns: seq<Turn>)
    requires IsPass(x, rows, turns) && CourseOf(turns).calm
    ensures SafeRowsSettled(x, good, TablesAfter(x, turns), FilesAfterTurns(x, turns))
  {
    forall c | Located(x.t, c) && StartsSafe(x, good, c)
      ensures NodesOf(TablesAfter(x, turns), c) == ExpectedFor(x, x.t.chunks[c].hash)
      ensures Backed(x.t.chunks[c].hash, NodesOf(TablesAfter(x, turns), c), FilesAfterTurns(x, turns), good)
    {
      HistoryOfGroup(x, good, rows, turns, x.t.chunks[c].hash);
      var j :| 0 <= j < |rows| && rows[j].id == c;
      assert AsStored(x.t, rows[j]);
      assert c in DoneOf(rows, |rows|, x.t.chunks[c].hash);
    }
  }

  lemma PassOutcome(x: Setting, good: (string, Bytes) -> bool, rows: seq<Chunk>, turns: seq<Turn>)
    requires IsPass(x, rows, turns)
    ensures var t, files := TablesAfter(x, turns), FilesAfterTurns(x, turns);
      && AllToward(x, t) && AnchorsHeld(x, files)
      && (CourseOf(turns).unstuck ==> SoleBacked(x, good, t, files))
      && (CourseOf(turns).calm ==> SafeRowsSettled(x, good, t, files))
      && (AllSettled(x, x.t) ==> CourseOf(turns).quiet && files == x.files)
  {
    HistoryToward(x, rows, turns);
    PassHoldsAnchors(x, rows, turns);
    if CourseOf(turns).unstuck {
      HistorySole(x, good, rows, turns);
    }
    if CourseOf(turns).calm {
      CalmPassSettles(x, good, rows, turns);
    }
    if AllSettled(x, x.t) {
      HistoryQuiet(x, rows, turns);
    }
  }

  lemma {:induction false} NothingLost(turns: seq<Turn>)
    requires LostIn(turns) == 0
    ensures CourseOf(turns).unstuck
  {
    if turns != [] {
      NothingLost(turns[..|turns| - 1]);
    }
  }

  lemma {:induction false} QuietIsSilent(x: Setting, rows: seq<Chunk>, turns: seq<Turn>)
    requires IsHistory(x, rows, turns) && CourseOf(turns).quiet
    ensures CallsIn(turns) == []
  {
    if turns != [] {
      QuietIsSilent(x, rows, turns[..|turns| - 1]);
    }
  }

  /** The turn of the next row. */
  method TakeTurn(ring: HashRing, cluster: StorageNodes, db: Database, rows: seq<Chunk>, k: nat, replicas: int,
                  ghost x: Setting, ghost turns: seq<Turn>)
    returns (ghost turn: Turn)
    requires ring.Valid() && Valid(db.tables) && Joined(x.t, x.t.chunks.Keys, rows)
    requires x.cfg == ring.cfg && x.st == ring.State() && x.replicas == replicas
    requires IsHistory(x, rows, turns) && |turns| == k < |rows|
    requires db.tables == TablesAfter(x, turns) && cluster.files == FilesAfterTurns(x, turns)
    modifies cluster, db
    ensures Valid(db.tables) && cluster.faults >= old(cluster.faults)
    ensures IsTurn(x, rows[k], turns, turn) && turn.t' == db.tables && turn.p.files' == cluster.files
    ensures cluster.calls == old(cluster.calls) + turn.made && db.faults == old(db.faults) + Lost(turn.p)
    ensures db.faults == old(db.faults) && cluster.faults == old(cluster.faults) ==> Undisturbed(turn.p)
  {
    ghost var t := db.tables;
    HistoryHandled(x, rows, turns);
    StillListed(x.t, t, rows, k);
    ghost var p, made := RebalanceRow(ring, cluster, db, rows[k], replicas);
    turn := Turn(t, p, db.tables, made);
  }

  lemma HistoryGrows(x: Setting, rows: seq<Chunk>, turns: seq<Turn>, turn: Turn)
    requires IsHistory(x, rows, turns) && |turns| < |rows| && IsTurn(x, rows[|turns|], turns, turn)
    ensures var more := turns + [turn];
      && IsHistory(x, rows, more) && TablesAfter(x, more) == turn.t' && FilesAfterTurns(x, more) == turn.p.files'
      && CallsIn(more) == CallsIn(turns) + turn.made && LostIn(more) == LostIn(turns) + Lost(turn.p)
      && (CourseOf(turns).calm && Undisturbed(turn.p) ==> CourseOf(more).calm)
  {
  }

  /** The loop over the rows that were read: each has its turn, whatever fails. */
  method RebalanceRows(ring: HashRing, cluster: StorageNodes, db: Database, rows: seq<Chunk>, replicas: int)
    returns (ghost turns: seq<Turn>)
    requires ring.Valid() && Valid(db.tables) && Joined(db.tables, db.tables.chunks.Keys, rows)
    modifies cluster, db
    ensures Valid(db.tables) && cluster.faults >= old(cluster.faults)
    ensures
      var x := Setting(ring.cfg, ring.State(), replicas, old(db.tables), old(cluster.files));
      && IsPass(x, rows, turns) && db.tables == TablesAfter(x, turns) && cluster.files == FilesAfterTurns(x, turns)
    ensures db.tables == old(db.tables).(locations := db.tables.locations)
    ensures cluster.calls == old(cluster.calls) + CallsIn(turns) && db.faults == old(db.faults) + LostIn(turns)
    ensures db.faults == old(db.faults) && cluster.faults == old(cluster.faults) ==> CourseOf(turns).calm
  {
    ghost var x := Setting(ring.cfg, ring.State(), replicas, db.tables, cluster.files);
    turns := [];
    for k := 0 to |rows|
      invariant Valid(db.tables) && cluster.faults >= old(cluster.faults)
      invariant IsHistory(x, rows, turns) && |turns| == k
      invariant db.tables == TablesAfter(x, turns) && cluster.files == FilesAfterTurns(x, turns)
      invariant cluster.calls == old(cluster.calls) + CallsIn(turns) && db.faults == old(db.faults) + LostIn(turns)
      invariant db.faults == old(db.faults) && cluster.faults == old(cluster.faults) ==> CourseOf(turns).calm
    {
      ghost var turn := TakeTurn(ring, cluster, db, rows, k, replicas, x, turns);
      Appended(old(cluster.calls), cluster.calls, CallsIn(turns), turn.made);
      HistoryGrows(x, rows, turns, turn);
      turns := turns + [turn];
    }
    HistoryHandled(x, rows, turns);
  }

  /** One turn of the loop: all rows, read once, each handled by itself, unless the rows cannot be read or the
      ring is empty.  Whatever fails, every row moves toward its expected nodes or stays, and no file on an
      anchor of its digest is touched.  Good replicas stay good whichever remote calls fail, if no other row
      has the digest.  If nothing fails, every safe row of a digest whose recorded replicas are good ends at
      its expected nodes with good replicas.  Once all rows are where they are expected, a pass issues no
      remote call. */
  method RebalancePass(ring: HashRing, cluster: StorageNodes, db: Database, replicas: int,
                       ghost good: (string, Bytes) -> bool)
    returns (ghost read: Option<seq<Chunk>>, ghost turns: seq<Turn>)
    requires ring.Valid() && Valid(db.tables)
    modifies cluster, db
    ensures Valid(db.tables) && db.tables == old(db.tables).(locations := db.tables.locations)
    ensures cluster.faults >= old(cluster.faults) && cluster.calls == old(cluster.calls) + CallsIn(turns)
    ensures db.faults == old(db.faults) + (if read.Some? then 0 else 1) + LostIn(turns)
    ensures
      var x := Setting(ring.cfg, ring.State(), replicas, old(db.tables), old(cluster.files));
      && db.tables == TablesAfter(x, turns) && cluster.files == FilesAfterTurns(x, turns)
      && (if read.Some? && ring.nodesMap != {} then IsPass(x, read.value, turns) else turns == [])
      && AllToward(x, db.tables) && AnchorsHeld(x, cluster.files)
      && (db.faults == old(db.faults) ==> SoleBacked(x, good, db.tables, cluster.files))
      && (db.faults == old(db.faults) && cluster.faults == old(cluster.faults) && ring.nodesMap != {} ==>
            SafeRowsSettled(x, good, db.tables, cluster.files))
      && (AllSettled(x, x.t) ==> cluster.calls == old(cluster.calls) && cluster.files == old(cluster.files))
  {
    ghost var x := Setting(ring.cfg, ring.State(), replicas, db.tables, cluster.files);
    turns := [];
    var found := db.GetAllChunks();
    read := found;
    if found.None? {
      return;
    }
    var rows := found.value;
    if |rows| == 0 {
      PassOutcome(x, good, rows, []);
      return;
    }
    var empty := ring.IsEmpty();
    if empty {
      return;
    }
    turns := RebalanceRows(ring, cluster, db, rows, replicas);
    PassEnds(x, good, rows, turns, db.faults == old(db.faults));
  }

  lemma PassEnds(x: Setting, good: (string, Bytes) -> bool, rows: seq<Chunk>, turns: seq<Turn>, dbOk: bool)
    requires IsPass(x, rows, turns) && (dbOk ==> LostIn(turns) == 0)
    ensures var t, files := TablesAfter(x, turns), FilesAfterTurns(x, turns);
      && AllToward(x, t) && AnchorsHeld(x, files) && (dbOk ==> SoleBacked(x, good, t, files))
      && (CourseOf(turns).calm ==> SafeRowsSettled(x, good, t, files))
      && (AllSettled(x, x.t) ==> CallsIn(turns) == [] && files == x.files)
  {
    PassOutcome(x, good, rows, turns);
    if dbOk {
      NothingLost(turns);
    }
    if AllSettled(x, x.t) {
      QuietIsSilent(x, rows, turns);
    }
  }

  /** Every recorded replica can be read. */
  ghost predicate AllReadable(t: Tables, files: Files) {
    forall c, n :: c in t.chunks && n in NodesOf(t, c) ==>
      t.chunks[c].hash != "" && (n, t.chunks[c].hash) in files && files[(n, t.chunks[c].hash)] != []
  }

  ghost predicate AllSafe(x: Setting) {
    forall c :: Located(x.t, c) ==> SafeRow(GroupOf(x, x.t.chunks[c].hash), c)
  }

  /** Convergence: if nothing fails during a first pass over readable replicas of safe rows, the next pass
      finds nothing to do. */
  method TwoPasses(ring: HashRing, cluster: StorageNodes, db: Database, replicas: int)
    returns (faults: nat, quiet: bool)
    requires ring.Valid() && Valid(db.tables) && ring.nodesMap != {}
    requires AllReadable(db.tables, cluster.files)
    requires AllSafe(Setting(ring.cfg, ring.State(), replicas, db.tables, cluster.files))
    modifies cluster, db
    ensures faults == 0 ==> quiet
  {
    ghost var x := Setting(ring.cfg, ring.State(), replicas, db.tables, cluster.files);
    var before := cluster.faults + db.faults;
    var _, _ := RebalancePass(ring, cluster, db, replicas, (h, b) => b != []);
    faults := cluster.faults + db.faults - before;
    if faults == 0 {
      ConvergedIsSettled(x, db.tables, cluster.files);
    }
    var issued := |cluster.calls|;
    var _, _ := RebalancePass(ring, cluster, db, replicas, (h, b) => true);
    quiet := |cluster.calls| == issued;
  }

  lemma ConvergedIsSettled(x: Setting, t: Tables, files: Files)
    requires AllReadable(x.t, x.files) && AllSafe(x) && t.chunks == x.t.chunks && AllToward(x, t)
    requires SafeRowsSettled(x, (h, b) => b != [], t, files)
    ensures AllSettled(Setting(x.cfg, x.st, x.replicas, t, files), t)
  {
  }

  // ---- membership changes, then a pass ----

  lemma KeptShare(recorded: set<string>, before: set<string>, after: set<string>, k: nat)
    requires recorded <= before && |before - after| <= k
    ensures |recorded * after| >= |recorded| - k
  {
    SubsetSize(recorded - after, before - after);
    assert recorded == (recorded - after) + (recorded * after);
  }

  /** The gateway has rebuilt its ring from another listing.  A pass over a row that the old ring placed
      leaves all of its replicas recorded and their files untouched but for those on nodes that have gone and
      at most one per node that has come, whatever calls fail. */
  lemma ChangesThenPass(cfg: Config, a: seq<string>, b: seq<string>, replicas: int, p: RowPass)
    requires CollisionFree(cfg, Elements(a) + Elements(b))
    requires Possible(p) && p.expected == Expected(cfg, Rebuild(cfg, b), p.hash, replicas)
    requires p.current <= Expected(cfg, Rebuild(cfg, a), p.hash, replicas)
    ensures p.current * p.expected <= p.after
    ensures forall n :: n in p.current * p.expected ==> SameAt(p.files, p.files', (n, p.hash))
    ensures |p.after| >= |p.current * p.expected| >= |p.current| - |ComeOrGone(Elements(a), Elements(b))|
    ensures |p.current - p.expected - (Elements(a) - Elements(b))| <= |Elements(b) - Elements(a)|
  {
    PlacementLoss(cfg, a, b, cfg.hash(p.hash), replicas);
    SubsetSize(p.current - p.expected - (Elements(a) - Elements(b)),
               Expected(cfg, Rebuild(cfg, a), p.hash, replicas) - p.expected - (Elements(a) - Elements(b)));
    RebuildDrift(cfg, a, b, cfg.hash(p.hash), replicas);
    KeptShare(p.current, Expected(cfg, Rebuild(cfg, a), p.hash, replicas), p.expected,
              |ComeOrGone(Elements(a), Elements(b))|);
    RetainedUntouched(p);
    SubsetSize(p.current * p.expected, p.after);
  }

  /** What one join or leave takes from nodes chosen by the old ring: at most one, and a leave takes nothing
      but the node that has left. */
  lemma OneChange(cfg: Config, a: seq<string>, b: seq<string>, change: Change, hash: string, replicas: int,
                  recorded: set<string>)
    requires CollisionFree(cfg, Elements(a) + {change.node}) && Elements(b) == MemberStep(Elements(a), change)
    requires recorded <= Expected(cfg, Rebuild(cfg, a), hash, replicas)
    ensures var kept := recorded * Expected(cfg, Rebuild(cfg, b), hash, replicas);
      |kept| >= |recorded| - 1 && (change.Leave? ==> recorded - {change.node} <= kept)
  {
    var st, nodes := Rebuild(cfg, a), Elements(a) + {change.node};
    RebuildInvariant(cfg, a);
    RebuildFollowsOne(cfg, a, b, change);
    CollisionFreeIsExclusive(cfg, nodes, nodes, change.node);
    ReplacesOne(cfg, st, change, cfg.hash(hash), replicas);
    KeptShare(recorded, Expected(cfg, st, hash, replicas), Expected(cfg, Rebuild(cfg, b), hash, replicas), 1);
  }

  /** Single-change safety: a chunk stored with a quorum keeps at least half its replication factor of
      recorded, untouched replicas across one join or leave; a leave costs it no other replica than the one
      on the node that has left. */
  lemma SingleChangeSafety(cfg: Config, a: seq<string>, b: seq<string>, change: Change, replicas: nat, p: RowPass)
    requires CollisionFree(cfg, Elements(a) + {change.node}) && Elements(b) == MemberStep(Elements(a), change)
    requires Possible(p) && p.expected == Expected(cfg, Rebuild(cfg, b), p.hash, replicas)
    requires p.current <= Expected(cfg, Rebuild(cfg, a), p.hash, replicas) && |p.current| >= replicas / 2 + 1
    ensures |p.after| >= |p.current * p.expected| >= replicas / 2
    ensures replicas >= 2 ==> p.after != {}
    ensures change.Leave? ==> p.current - {change.node} <= p.current * p.expected
    ensures forall n :: n in p.current * p.expected ==> n in p.after && SameAt(p.files, p.files', (n, p.hash))
  {
    OneChange(cfg, a, b, change, p.hash, replicas, p.current);
    RetainedUntouched(p);
    SubsetSize(p.current * p.expected, p.after);
  }
}
