/** Rows of the same digest.  Files are named by digest, so such rows share the file on every node, and the
    rebalancer, which handles the rows one after the other, retires for one row what another still needs. */
module SharedDigests {
  import opened Sequences
  import opened Cluster
  import opened Rebalancer

  /** The rows of one digest before a pass: the nodes recorded for each, the nodes expected for all of them,
      and the files. */
  datatype Group = Group(hash: string, expected: set<string>, current: map<nat, set<string>>, files: Files)

  ghost predicate SameUnder(files: Files, files': Files, hash: string) {
    forall n :: SameAt(files, files', (n, hash))
  }

  /** Pass p handles row c.  Since the pass before it, only files under other digests may have changed. */
  ghost predicate Handles(g: Group, c: nat, files: Files, p: RowPass) {
    c in g.current && Starts(p, g.hash, g.current[c], g.expected, p.files) && SameUnder(files, p.files, g.hash)
  }

  ghost function FilesAfterPasses(g: Group, passes: seq<RowPass>): Files {
    if passes == [] then g.files else passes[|passes| - 1].files'
  }

  /** The nodes recorded once these rows have been handled. */
  ghost function RecordedAfter(g: Group, order: seq<nat>, passes: seq<RowPass>): map<nat, set<string>>
    requires |order| == |passes|
  {
    if passes == [] then g.current
    else
      var k := |passes| - 1;
      RecordedAfter(g, order[..k], passes[..k])[order[k] := passes[k].after]
  }

  /** The rows in `order` are handled one after the other, each once. */
  ghost predicate InTurn(g: Group, order: seq<nat>, passes: seq<RowPass>) {
    && |order| == |passes| && Distinct(order)
    && forall k :: 0 <= k < |passes| ==> Handles(g, order[k], FilesAfterPasses(g, passes[..k]), passes[k])
  }

  /** All rows are handled. */
  ghost predicate AllInTurn(g: Group, order: seq<nat>, passes: seq<RowPass>) {
    InTurn(g, order, passes) && Elements(order) == g.current.Keys
  }

  ghost predicate IsCalm(passes: seq<RowPass>) {
    forall k :: 0 <= k < |passes| ==> Undisturbed(passes[k])
  }

  ghost predicate AllGood(g: Group, good: (string, Bytes) -> bool) {
    forall c :: c in g.current ==> Backed(g.hash, g.current[c], g.files, good)
  }

  ghost predicate AllLocated(g: Group) {
    forall c :: c in g.current ==> g.current[c] != {}
  }

  /** The nodes that no other row of the digest records. */
  ghost predicate OwnNode(g: Group, c: nat, n: string)
    requires c in g.current
  {
    n in g.current[c] && forall d :: d in g.current && d != c ==> n !in g.current[d]
  }

  /** The row shares a node with the expected placement, or has a node to itself. */
  ghost predicate SafeRow(g: Group, c: nat)
    requires c in g.current
  {
    g.current[c] * g.expected != {} || exists n :: OwnNode(g, c, n)
  }

  // ---- when nothing fails ----

  /** The rows in `done` have been handled without a failure; `now` is what is recorded and `files` what the
      nodes hold.  Recorded files are good unless a handled row has retired them, and what a handled row
      could retire is gone. */
  ghost predicate Midway(g: Group, good: (string, Bytes) -> bool, done: set<nat>, now: map<nat, set<string>>,
                         files: Files) {
    && now.Keys == g.current.Keys && done <= now.Keys
    && (forall c :: c in now && c !in done ==> now[c] == g.current[c])
    && (forall c, n :: c in g.current && n in g.current[c] ==>
          GoodAt(g.hash, n, files, good) || Retired(g, done, files, n))
    && (forall c, n :: c in done && n in g.current[c] && n !in g.expected ==> (n, g.hash) !in files)
    && (forall c :: c in done && SafeRow(g, c) ==> now[c] == g.expected && Backed(g.hash, g.expected, files, good))
  }

  ghost predicate Retired(g: Group, done: set<nat>, files: Files, n: string) {
    && n !in g.expected && (n, g.hash) !in files
    && exists d :: d in done && d in g.current && n in g.current[d]
  }

  lemma MidwayUnder(g: Group, good: (string, Bytes) -> bool, done: set<nat>, now: map<nat, set<string>>,
                    files: Files, files': Files)
    requires Midway(g, good, done, now, files) && SameUnder(files, files', g.hash)
    ensures Midway(g, good, done, now, files')
  {
    forall c, n | c in g.current && n in g.current[c]
      ensures GoodAt(g.hash, n, files', good) || Retired(g, done, files', n)
    {
      assert GoodAt(g.hash, n, files, good) || Retired(g, done, files, n);
      assert SameAt(files, files', (n, g.hash));
    }
  }

  /** A pass without failures reads only good data, if any. */
  lemma CalmPass(g: Group, good: (string, Bytes) -> bool, done: set<nat>, now: map<nat, set<string>>, c: nat,
                 p: RowPass)
    requires Midway(g, good, done, now, p.files) && c in g.current && c !in done && Undisturbed(p)
    requires Starts(p, g.hash, g.current[c], g.expected, p.files) && g.hash != "" && !good(g.hash, [])
    ensures p.end.Moved? ==> good(g.hash, p.end.data) && p.after == g.expected
    ensures p.end.Unfetched? ==> !SafeRow(g, c) && forall m :: m in g.current[c] ==> (m, g.hash) !in p.files
  {
    forall m | m in g.current[c] && (m, g.hash) in p.files ensures GoodAt(g.hash, m, p.files, good) {
      assert GoodAt(g.hash, m, p.files, good) || Retired(g, done, p.files, m);
    }
    if n :| n in g.current[c] && (n in g.expected || OwnNode(g, c, n)) {
      assert GoodAt(g.hash, n, p.files, good) || Retired(g, done, p.files, n);
    }
    if g.current[c] * g.expected != {} {
      var n :| n in g.current[c] * g.expected;
    }
  }

  lemma MidwayStep(g: Group, good: (string, Bytes) -> bool, done: set<nat>, now: map<nat, set<string>>, c: nat,
                   p: RowPass)
    requires Midway(g, good, done, now, p.files) && c in g.current && c !in done && Undisturbed(p)
    requires Starts(p, g.hash, g.current[c], g.expected, p.files) && g.hash != "" && !good(g.hash, [])
    ensures Midway(g, good, done + {c}, now[c := p.after], p.files')
  {
    CalmPass(g, good, done, now, c, p);
    var done' := done + {c};
    forall d, n | d in g.current && n in g.current[d]
      ensures GoodAt(g.hash, n, p.files', good) || Retired(g, done', p.files', n)
    {
      assert GoodAt(g.hash, n, p.files, good) || Retired(g, done, p.files, n);
      assert n in g.current[c] && n !in g.expected ==> c in done' && (p.end.Moved? ==> (n, g.hash) !in p.files');
    }
    forall d, n | d in done' && n in g.current[d] && n !in g.expected ensures (n, g.hash) !in p.files' {
      assert d != c ==> (n, g.hash) !in p.files;
    }
    forall d | d in done' && SafeRow(g, d)
      ensures now[c := p.after][d] == g.expected && Backed(g.hash, g.expected, p.files', good)
    {
      forall n | n in g.expected ensures GoodAt(g.hash, n, p.files', good) {
        assert n in g.current[c] ==> GoodAt(g.hash, n, p.files, good) || Retired(g, done, p.files, n);
        assert d != c ==> GoodAt(g.hash, n, p.files, good);
        assert SameAt(p.files, p.files', (n, g.hash)) || n in g.expected - g.current[c];
      }
    }
  }

  lemma MidwayStart(g: Group, good: (string, Bytes) -> bool)
    requires AllGood(g, good)
    ensures Midway(g, good, {}, g.current, g.files)
  {
  }

  lemma {:induction false} CalmRun(g: Group, good: (string, Bytes) -> bool, order: seq<nat>, passes: seq<RowPass>)
    requires InTurn(g, order, passes) && IsCalm(passes)
    requires AllGood(g, good) && g.hash != "" && !good(g.hash, [])
    ensures Midway(g, good, Elements(order), RecordedAfter(g, order, passes), FilesAfterPasses(g, passes))
  {
    if passes == [] {
      MidwayStart(g, good);
    } else {
      var k := |passes| - 1;
      RunPrefix(g, order, passes);
      CalmRun(g, good, order[..k], passes[..k]);
      MidwayUnder(g, good, Elements(order[..k]), RecordedAfter(g, order[..k], passes[..k]),
                  FilesAfterPasses(g, passes[..k]), passes[k].files);
      assert order[k] !in order[..k];
      MidwayStep(g, good, Elements(order[..k]), RecordedAfter(g, order[..k], passes[..k]), order[k], passes[k]);
      assert order == order[..k] + [order[k]];
      ElementsAppend(order[..k], order[k]);
    }
  }

  lemma RunPrefix(g: Group, order: seq<nat>, passes: seq<RowPass>)
    requires InTurn(g, order, passes) && passes != []
    ensures var k := |passes| - 1; InTurn(g, order[..k], passes[..k])
  {
  }

  /** A whole pass without failures leaves every safe row exactly where it is expected, each replica good. */
  lemma SafeRowSettles(g: Group, good: (string, Bytes) -> bool, order: seq<nat>, passes: seq<RowPass>, c: nat)
    requires AllInTurn(g, order, passes) && IsCalm(passes) && c in g.current && SafeRow(g, c)
    requires AllGood(g, good) && g.hash != "" && !good(g.hash, [])
    ensures c in RecordedAfter(g, order, passes) && RecordedAfter(g, order, passes)[c] == g.expected
    ensures Backed(g.hash, g.expected, FilesAfterPasses(g, passes), good)
  {
    CalmRun(g, good, order, passes);
  }

  // ---- runs exist ----

  lemma RunStep(g: Group, order: seq<nat>, passes: seq<RowPass>, c: nat, p: RowPass)
    requires InTurn(g, order, passes) && c !in order && Handles(g, c, FilesAfterPasses(g, passes), p)
    ensures InTurn(g, order + [c], passes + [p])
    ensures RecordedAfter(g, order + [c], passes + [p]) == RecordedAfter(g, order, passes)[c := p.after]
    ensures FilesAfterPasses(g, passes + [p]) == p.files'
  {
    SnocInit(order, c);
    SnocInit(passes, p);
    forall k | 0 <= k < |passes + [p]|
      ensures Handles(g, (order + [c])[k], FilesAfterPasses(g, (passes + [p])[..k]), (passes + [p])[k])
    {
      assert (passes + [p])[..k] == passes[..k];
      assert passes[..|passes|] == passes;
    }
  }

  /** Whatever the nodes hold, some pass over the row meets no failure. */
  lemma SomeCalmPass(g: Group, c: nat, files: Files) returns (p: RowPass)
    requires c in g.current && g.hash != ""
    ensures Handles(g, c, files, p) && p.files == files && Undisturbed(p)
  {
    var current := g.current[c];
    if current == g.expected {
      p := RowPass(g.hash, current, g.expected, files, current, files, Balanced);
    } else if m :| m in current && (m, g.hash) in files && files[(m, g.hash)] != [] {
      CalmMovePossible(g.hash, current, g.expected, files, m);
      p := CalmMove(g.hash, current, g.expected, files, m);
    } else {
      p := RowPass(g.hash, current, g.expected, files, current, files, Unfetched);
      if m :| m in current && (m, g.hash) in files {
        assert m in p.current && (m, p.hash) in p.files && p.files[(m, p.hash)] == [];
      }
    }
  }

  lemma {:induction false} SomeCalmRun(g: Group, order: seq<nat>) returns (passes: seq<RowPass>)
    requires Distinct(order) && (forall c :: c in order ==> c in g.current) && g.hash != ""
    ensures InTurn(g, order, passes) && IsCalm(passes)
  {
    passes := [];
    if order != [] {
      var init, c := order[..|order| - 1], order[|order| - 1];
      passes := SomeCalmRun(g, init);
      var p := SomeCalmPass(g, c, FilesAfterPasses(g, passes));
      assert order == init + [c];
      RunStep(g, init, passes, c, p);
      passes := passes + [p];
    }
  }

  ghost predicate Orphaned(g: Group, c: nat, now: map<nat, set<string>>, files: Files) {
    c in now && now[c] != {} && forall n :: n in now[c] ==> (n, g.hash) !in files
  }

  /** Once every other row has been handled, nothing is left of a row that is not safe. */
  lemma OthersRetireAll(g: Group, good: (string, Bytes) -> bool, done: set<nat>, now: map<nat, set<string>>,
                        files: Files, c: nat)
    requires Midway(g, good, done, now, files) && done == g.current.Keys - {c}
    requires c in g.current && !SafeRow(g, c)
    ensures forall n :: n in g.current[c] ==> n !in g.expected && (n, g.hash) !in files
  {
    forall n | n in g.current[c] ensures n !in g.expected && (n, g.hash) !in files {
      assert !OwnNode(g, c, n);
      assert n !in g.current[c] * g.expected;
      var d :| d in g.current && d != c && n in g.current[d];
      assert d in done;
    }
  }

  /** A pass without failures over a row whose nodes hold nothing changes nothing. */
  lemma NothingToCopy(g: Group, c: nat, files: Files, p: RowPass)
    requires Handles(g, c, files, p) && Undisturbed(p) && g.current[c] != {}
    requires forall n :: n in g.current[c] ==> n !in g.expected && (n, g.hash) !in files
    ensures p.after == g.current[c] && SameUnder(files, p.files', g.hash)
  {
  }

  lemma OthersFirst(g: Group, good: (string, Bytes) -> bool, c: nat) returns (others: seq<nat>, passes: seq<RowPass>)
    requires AllGood(g, good) && g.hash != "" && !good(g.hash, []) && c in g.current && !SafeRow(g, c)
    ensures InTurn(g, others, passes) && IsCalm(passes) && Elements(others) == g.current.Keys - {c} && c !in others
    ensures RecordedAfter(g, others, passes).Keys == g.current.Keys
    ensures forall n :: n in g.current[c] ==> n !in g.expected && (n, g.hash) !in FilesAfterPasses(g, passes)
  {
    others := SomeListing(g.current.Keys - {c});
    assert forall d :: d in others <==> d in Elements(others);
    passes := SomeCalmRun(g, others);
    CalmRun(g, good, others, passes);
    OthersRetireAll(g, good, Elements(others), RecordedAfter(g, others, passes), FilesAfterPasses(g, passes), c);
  }

  /** A row that is not safe, handled last, finds no file on any node that is recorded for it, although no
      call and no statement has failed. */
  lemma UnsafeRowOrphaned(g: Group, good: (string, Bytes) -> bool, c: nat)
    returns (order: seq<nat>, passes: seq<RowPass>)
    requires AllGood(g, good) && g.hash != "" && !good(g.hash, []) && c in g.current
    requires g.current[c] != {} && !SafeRow(g, c)
    ensures AllInTurn(g, order, passes) && IsCalm(passes)
    ensures Orphaned(g, c, RecordedAfter(g, order, passes), FilesAfterPasses(g, passes))
  {
    var others, before := OthersFirst(g, good, c);
    var files := FilesAfterPasses(g, before);
    var p := SomeCalmPass(g, c, files);
    NothingToCopy(g, c, files, p);
    RunStep(g, others, before, c, p);
    ElementsAppend(others, c);
    order, passes := others + [c], before + [p];
    forall n | n in g.current[c] ensures (n, g.hash) !in p.files' {
      assert SameAt(files, p.files', (n, g.hash));
    }
  }

  /** Whichever order the rows are handled in, this row has a good recorded replica after a pass without
      failures. */
  ghost predicate KeptWhenCalm(g: Group, good: (string, Bytes) -> bool, c: nat) {
    forall order, passes :: AllInTurn(g, order, passes) && IsCalm(passes) ==>
      var now := RecordedAfter(g, order, passes);
      c in now && HasGood(g.hash, now[c], FilesAfterPasses(g, passes), good)
  }

  /** Good replicas are all that rows of one digest start with, and nothing fails.  Still a row can end with
      nothing; it cannot exactly if it shares a node with its placement or has a node to itself. */
  lemma SafeRowIff(g: Group, good: (string, Bytes) -> bool, c: nat)
    requires AllGood(g, good) && g.hash != "" && !good(g.hash, []) && g.expected != {}
    requires c in g.current && g.current[c] != {}
    ensures KeptWhenCalm(g, good, c) <==> SafeRow(g, c)
  {
    if SafeRow(g, c) {
      var n :| n in g.expected;
      forall order, passes | AllInTurn(g, order, passes) && IsCalm(passes)
        ensures var now := RecordedAfter(g, order, passes);
          c in now && HasGood(g.hash, now[c], FilesAfterPasses(g, passes), good)
      {
        SafeRowSettles(g, good, order, passes, c);
        assert GoodAt(g.hash, n, FilesAfterPasses(g, passes), good);
      }
    } else {
      var order, passes := UnsafeRowOrphaned(g, good, c);
      assert AllInTurn(g, order, passes) && IsCalm(passes);
    }
  }

  // ---- whatever fails ----

  /** Expected, and recorded for every row of the digest, so that no row writes to it or retires it. */
  ghost predicate Anchor(g: Group, n: string) {
    n in g.expected && forall c :: c in g.current ==> n in g.current[c]
  }

  ghost predicate HasAnchor(g: Group, c: nat)
    requires c in g.current
  {
    exists n :: n in g.current[c] && Anchor(g, n)
  }

  /** What no failure can change: the files on anchors, and the records that are also expected. */
  ghost predicate Anchored(g: Group, now: map<nat, set<string>>, files: Files) {
    && now.Keys == g.current.Keys && (forall n :: Anchor(g, n) ==> SameAt(g.files, files, (n, g.hash)))
    && forall c :: c in now ==> g.current[c] * g.expected <= now[c]
  }

  lemma AnchoredStep(g: Group, now: map<nat, set<string>>, files: Files, c: nat, p: RowPass)
    requires Anchored(g, now, files) && SameUnder(files, p.files, g.hash) && c in g.current
    requires Possible(p) && p.hash == g.hash && p.current == g.current[c] && p.expected == g.expected
    ensures Anchored(g, now[c := p.after], p.files')
  {
  }

  lemma AnchoredUnder(g: Group, now: map<nat, set<string>>, files: Files, files': Files)
    requires Anchored(g, now, files) && SameUnder(files, files', g.hash)
    ensures Anchored(g, now, files')
  {
  }

  lemma {:induction false} AnchoredRun(g: Group, order: seq<nat>, passes: seq<RowPass>)
    requires InTurn(g, order, passes)
    ensures Anchored(g, RecordedAfter(g, order, passes), FilesAfterPasses(g, passes))
  {
    if passes != [] {
      var k := |passes| - 1;
      RunPrefix(g, order, passes);
      AnchoredRun(g, order[..k], passes[..k]);
      AnchoredStep(g, RecordedAfter(g, order[..k], passes[..k]), FilesAfterPasses(g, passes[..k]), order[k], passes[k]);
    }
  }

  ghost predicate KeptAnyway(g: Group, good: (string, Bytes) -> bool, c: nat) {
    forall order, passes :: AllInTurn(g, order, passes) ==>
      var now := RecordedAfter(g, order, passes);
      c in now && HasGood(g.hash, now[c], FilesAfterPasses(g, passes), good)
  }

  /** The worst pass: every save fails and leaves `bad`, every delete fails, and the records go. */
  ghost function WorstPass(g: Group, c: nat, files: Files, bad: Bytes, m: string): RowPass
    requires c in g.current && (m, g.hash) in files
  {
    var current := g.current[c];
    if current == g.expected then RowPass(g.hash, current, g.expected, files, current, files, Balanced)
    else RowPass(g.hash, current, g.expected, files, current * g.expected,
                 Rewritten(files, g.hash, bad, g.expected - current, {}), Moved(files[(m, g.hash)], {}, {}, {}))
  }

  /** Nothing is good any more on the expected nodes that some handled row does not record. */
  ghost predicate Spoiled(g: Group, bad: Bytes, done: set<nat>, now: map<nat, set<string>>, files: Files) {
    && now.Keys == g.current.Keys
    && (forall c, n :: c in g.current && n in g.current[c] ==> (n, g.hash) in files && files[(n, g.hash)] != [])
    && (forall c, n :: c in done && c in g.current && n in g.expected - g.current[c] ==>
          (n, g.hash) in files && files[(n, g.hash)] == bad)
    && forall c :: c in done && c in now ==> now[c] == g.current[c] * g.expected
  }

  lemma SpoiledStep(g: Group, bad: Bytes, done: set<nat>, now: map<nat, set<string>>, files: Files, c: nat, m: string)
    requires Spoiled(g, bad, done, now, files) && c in g.current && m in g.current[c] && bad != []
    ensures var p := WorstPass(g, c, files, bad, m);
      Handles(g, c, files, p) && Spoiled(g, bad, done + {c}, now[c := p.after], p.files')
  {
  }

  lemma {:induction false} WorstRun(g: Group, good: (string, Bytes) -> bool, bad: Bytes, order: seq<nat>)
    returns (passes: seq<RowPass>)
    requires AllGood(g, good) && AllLocated(g) && !good(g.hash, []) && bad != []
    requires Distinct(order) && forall c :: c in order ==> c in g.current
    ensures InTurn(g, order, passes)
    ensures Spoiled(g, bad, Elements(order), RecordedAfter(g, order, passes), FilesAfterPasses(g, passes))
  {
    passes := [];
    if order != [] {
      var init, c := order[..|order| - 1], order[|order| - 1];
      passes := WorstRun(g, good, bad, init);
      assert order == init + [c];
      var m :| m in g.current[c];
      var p := WorstPass(g, c, FilesAfterPasses(g, passes), bad, m);
      SpoiledStep(g, bad, Elements(init), RecordedAfter(g, init, passes), FilesAfterPasses(g, passes), c, m);
      RunStep(g, init, passes, c, p);
      ElementsAppend(init, c);
      passes := passes + [p];
    }
  }

  /** Whatever remote calls fail, and in whichever order the rows are handled, a row keeps a good replica
      exactly if one of its nodes is expected and recorded for every row of the digest. */
  lemma AnchorIff(g: Group, good: (string, Bytes) -> bool, bad: Bytes, c: nat)
    requires AllGood(g, good) && AllLocated(g) && !good(g.hash, []) && bad != [] && !good(g.hash, bad)
    requires c in g.current
    ensures KeptAnyway(g, good, c) <==> HasAnchor(g, c)
  {
    if HasAnchor(g, c) {
      var n :| n in g.current[c] && Anchor(g, n);
      forall order, passes | AllInTurn(g, order, passes)
        ensures var now := RecordedAfter(g, order, passes);
          c in now && HasGood(g.hash, now[c], FilesAfterPasses(g, passes), good)
      {
        AnchoredRun(g, order, passes);
        assert n in g.current[c] * g.expected;
        assert SameAt(g.files, FilesAfterPasses(g, passes), (n, g.hash));
        assert GoodAt(g.hash, n, FilesAfterPasses(g, passes), good);
      }
    } else {
      var order: seq<nat> := SomeListing(g.current.Keys);
      assert forall d :: d in order <==> d in Elements(order);
      var passes := WorstRun(g, good, bad, order);
      assert AllInTurn(g, order, passes);
      var now, files := RecordedAfter(g, order, passes), FilesAfterPasses(g, passes);
      forall n | n in now[c] ensures !GoodAt(g.hash, n, files, good) {
        assert n in g.current[c] && n in g.expected && !Anchor(g, n);
        var d :| d in g.current && n !in g.current[d];
        assert d in Elements(order) && n in g.expected - g.current[d];
      }
    }
  }

  // ---- both together ----

  ghost predicate StartsGood(g: Group, good: (string, Bytes) -> bool) {
    AllGood(g, good) && g.hash != "" && !good(g.hash, [])
  }

  /** What is known of the group while its rows are being handled. */
  ghost predicate Handling(g: Group, good: (string, Bytes) -> bool, done: set<nat>, now: map<nat, set<string>>,
                           files: Files, calm: bool) {
    && Anchored(g, now, files)
    && (calm && StartsGood(g, good) ==> Midway(g, good, done, now, files))
  }

  lemma HandlingStarts(g: Group, good: (string, Bytes) -> bool, calm: bool)
    ensures Handling(g, good, {}, g.current, g.files, calm)
  {
  }

  lemma HandlingUnder(g: Group, good: (string, Bytes) -> bool, done: set<nat>, now: map<nat, set<string>>,
                      files: Files, files': Files, calm: bool, calm': bool)
    requires Handling(g, good, done, now, files, calm) && SameUnder(files, files', g.hash) && (calm' ==> calm)
    ensures Handling(g, good, done, now, files', calm')
  {
    AnchoredUnder(g, now, files, files');
    if calm' && StartsGood(g, good) {
      MidwayUnder(g, good, done, now, files, files');
    }
  }

  lemma HandlingStep(g: Group, good: (string, Bytes) -> bool, done: set<nat>, now: map<nat, set<string>>, c: nat,
                     p: RowPass, calm: bool, calm': bool)
    requires Handling(g, good, done, now, p.files, calm) && c in g.current && c !in done
    requires Possible(p) && p.hash == g.hash && p.current == g.current[c] && p.expected == g.expected
    requires calm' ==> calm && Undisturbed(p)
    ensures Handling(g, good, done + {c}, now[c := p.after], p.files', calm')
  {
    AnchoredStep(g, now, p.files, c, p);
    if calm' && StartsGood(g, good) {
      MidwayStep(g, good, done, now, c, p);
    }
  }
}
