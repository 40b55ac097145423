/** The indexer store as an object updated in place.  Its methods follow the program's steps;
    a failing check of the program (`assert!`, `expect`, `panic!`) is an `assert` here, so
    verification shows it cannot fail on fitting input. */
module Store {
  import opened Chain
  import opened Database
  import opened StoreSpec
  import opened StoreProofs
  import opened StoreRuns
  import opened Buffering

  /** The unique index over non-extinct rows: one live block per height. */
  ghost predicate UniqueLive(rows: map<BlockId, Row>) {
    forall h: nat, a, b | LiveAt(rows, h, a) && LiveAt(rows, h, b) :: a == b
  }

  lemma HoldsUnique(rows: map<BlockId, Row>, c: seq<BlockId>)
    requires Holds(rows, c)
    ensures UniqueLive(rows)
  {
    forall h: nat, a, b | LiveAt(rows, h, a) && LiveAt(rows, h, b) ensures a == b {
      assert c[h] == a && c[h] == b;
    }
  }

  method ReadHashByHeight(rows: map<BlockId, Row>, h: nat) returns (r: Option<BlockId>)
    requires UniqueLive(rows)
    ensures r == HashByHeight(rows, h)
  {
    if exists id | id in rows :: rows[id] == Row(h, false) {
      var id :| id in rows && rows[id] == Row(h, false);
      assert LiveAt(rows, h, id);
      r := Some(id);
    } else {
      assert !exists id :: LiveAt(rows, h, id);
      r := None;
    }
  }

  /** SELECT max(height) FROM block, plus one. */
  method ReadBlockCount(rows: map<BlockId, Row>, live: bool) returns (n: nat)
    ensures IsCount(rows, live, n)
  {
    n := 0;
    var todo := rows.Keys;
    while todo != {}
      invariant todo <= rows.Keys
      invariant forall id | Selected(rows, live, id) && id !in todo :: rows[id].height < n
      invariant n > 0 ==> exists id :: Selected(rows, live, id) && rows[id].height == n - 1
      decreases todo
    {
      var id :| id in todo;
      if (live ==> !rows[id].extinct) && rows[id].height >= n {
        n := rows[id].height + 1;
        assert Selected(rows, live, id);
      }
      todo := todo - {id};
    }
  }

  lemma CountUnique(rows: map<BlockId, Row>, live: bool, n: nat, m: nat)
    requires IsCount(rows, live, n) && IsCount(rows, live, m)
    ensures n == m
  {
  }

  /** The revert events of the live rows from the top down to `h`. */
  method RevertEvents(rows: map<BlockId, Row>, h: nat) returns (events: seq<Event>)
    requires UniqueLive(rows)
    ensures events == Reverts(rows, h, CountOf(rows))
  {
    var n := ReadBlockCount(rows, false);
    CountUnique(rows, false, n, CountOf(rows));
    var k: nat := n;
    events := [];
    while k > h
      invariant k <= n
      invariant events + Reverts(rows, h, k) == Reverts(rows, h, n)
    {
      k := k - 1;
      var r := ReadHashByHeight(rows, k);
      if r.Some? {
        ghost var rest := Reverts(rows, h, k);
        assert events + ([Event(r.value, true)] + rest) == events + [Event(r.value, true)] + rest;
        events := events + [Event(r.value, true)];
      } else {
        assert [] + Reverts(rows, h, k) == Reverts(rows, h, k);
      }
    }
    assert events + [] == events;
  }

  /** Walks the new branch in ascending height inside the transaction `tx`: stored blocks are
      revived, the rest is collected; a gap or a block that is live already is a panic. */
  method SettleLoop(tx: Db, branch: map<nat, Block>) returns (result: Result<(Db, seq<Block>)>)
    ensures result == Settle(tx, [], branch, KeysOf(branch), None)
  {
    var r, unseen := tx, [];
    var keys := KeysOf(branch);
    var prev: Option<nat> := None;
    var i := 0;
    assert keys[0..] == keys;
    while i < |keys|
      invariant 0 <= i <= |keys|
      invariant Settle(tx, [], branch, keys, None) == Settle(r, unseen, branch, keys[i..], prev)
    {
      var b := branch[keys[i]];
      assert keys[i..][0] == keys[i] && keys[i..][1..] == keys[i + 1..];
      if prev.Some? && prev.value + 1 != keys[i] {
        return Panicked(Gap);
      }
      prev := Some(b.height);
      if b.id in r.rows {
        if !r.rows[b.id].extinct {
          return Panicked(NotExtinct);
        }
        r := Revive(r, b.id);
      } else {
        unseen := unseen + [b];
      }
      i := i + 1;
    }
    return Ok((r, unseen));
  }

  lemma IdSetMore(bs: seq<Block>, i: nat)
    requires i < |bs|
    ensures IdSet(bs[..i + 1]) == IdSet(bs[..i]) + {bs[i].id}
  {
    assert bs[..i + 1] == bs[..i] + [bs[i]];
    IdSetConcat(bs[..i], [bs[i]]);
  }

  lemma NoIds()
    ensures IdSet([]) == {}
  {
  }

  /** Blocks of one chain have different ids, so batches in flight never share one. */
  lemma BatchesDisjoint(s: StoreSpec.Store, c: seq<BlockId>, a: seq<Block>, b: seq<Block>)
    requires Inv(s, c) && Flat(s.flight) + s.batch == a + b
    ensures IdSet(a) !! IdSet(b)
  {
    hide TablesFaithful, DbInv, IsChain, Visible, PendingIs, Ids, Flat;
    var v := Visible(s.db);
    IdsConcat(Flat(s.flight), s.batch);
    IdsConcat(a, b);
    Assoc3(v, Ids(Flat(s.flight)), Ids(s.batch));
    Assoc3(v, Ids(a), Ids(b));
    forall i, j | 0 <= i < |a| && 0 <= j < |b| ensures a[i].id != b[j].id {
      DifferentIds(v, a, b, i, j);
    }
  }

  lemma DifferentIds(v: seq<BlockId>, a: seq<Block>, b: seq<Block>, i: nat, j: nat)
    requires IsChain(v + Ids(a) + Ids(b)) && i < |a| && j < |b|
    ensures a[i].id != b[j].id
  {
    hide IsChain, Ids;
    var c, n := v + Ids(a) + Ids(b), |v|;
    IdsAt(a, i);
    IdsAt(b, j);
    assert c[n + i] == a[i].id && c[n + |a| + j] == b[j].id;
    if a[i].id == b[j].id {
      SharedBlock(c, c, n + i, n + |a| + j);
    }
  }

  lemma OldestBatch(s: StoreSpec.Store, c: seq<BlockId>)
    requires Inv(s, c) && s.flight != []
    ensures var bs, rest := s.flight[0], Flat(s.flight[1..]);
      IdSet(Flat(s.flight)) == IdSet(bs) + IdSet(rest) && IdSet(bs) !! IdSet(rest)
  {
    hide Inv, IdSet;
    var bs, rest := s.flight[0], Flat(s.flight[1..]);
    FlatCons(s.flight);
    Assoc3(bs, rest, s.batch);
    BatchesDisjoint(s, c, bs, rest + s.batch);
    IdSetConcat(bs, rest);
    IdSetConcat(rest, s.batch);
  }

  class IndexerStore {
    var db: Db
    /** batches inside the pipeline, oldest first */
    var flight: seq<seq<Block>>
    /** ids of blocks sent to the workers and not yet written */
    var inFlight: set<BlockId>
    var batch: seq<Block>
    var batchTxs: nat
    var pending: map<nat, Block>
    var count: nat
    var running: bool
    var mode: Mode
    var head: nat

    /** the fold of chain insertion over everything received so far */
    ghost var received: seq<BlockId>

    ghost function View(): StoreSpec.Store
      reads this
    {
      Store(db, flight, batch, batchTxs, pending, count, running, mode, head)
    }

    ghost predicate Valid()
      reads this
    {
      Inv(View(), received) && inFlight == IdSet(Flat(flight))
    }

    /** Between stopping and starting the workers. */
    ghost predicate Stopped()
      reads this
    {
      && !running && batch == [] && flight == [] && inFlight == {} && pending == map[]
      && Inv(View().(running := true), received)
    }

    /** Opening the database; `k` says from where the chain will be replayed. */
    constructor (db: Db, mode: Mode, head: nat, ghost k: nat)
      requires DbInv(db) && k <= |Visible(db)|
      ensures Valid() && received == Visible(db)[..k]
      ensures Open(db, mode, head) == Some(View())
    {
      var count := ReadBlockCount(db.rows, false);
      var current := ReadBlockCount(db.rows, true);
      OpenCommitted(db, mode, head, k);
      CountUnique(db.rows, false, count, CountOf(db.rows));
      CountUnique(db.rows, true, current, LiveCountOf(db.rows));
      assert count == current;
      this.db, this.mode, this.head, this.count := db, mode, head, count;
      flight, inFlight, batch, batchTxs, pending, running := [], {}, [], 0, map[], true;
      received := Visible(db)[..k];
    }

    /** The writer thread: one transaction, and only then the ids leave `inFlight`. */
    method WriterCommits()
      requires Valid() && flight != []
      modifies this`db, this`flight, this`inFlight
      ensures Valid() && View() == CommitOne(old(View()))
      ensures |flight| == old(|flight|) - 1
    {
      hide Inv, IdSet, Flat;
      CommitOneKeeps(View(), received);
      OldestBatch(View(), received);
      var bs := flight[0];
      db, flight := AppendBlocks(db, bs), flight[1..];
      RemoveIds(bs, Flat(flight));
    }

    /** Every id of a written batch must still be marked as in flight. */
    method RemoveIds(bs: seq<Block>, ghost rest: seq<Block>)
      requires inFlight == IdSet(bs) + IdSet(rest) && IdSet(bs) !! IdSet(rest)
      modifies this`inFlight
      ensures inFlight == IdSet(rest)
    {
      var anyMissing := false;
      var ids := set b | b in bs :: b.id;
      assert ids == IdSet(bs) by {
        assert forall b :: b in bs <==> exists i :: 0 <= i < |bs| && bs[i] == b;
      }
      while ids != {}
        invariant inFlight == ids + IdSet(rest) && ids <= IdSet(bs) && !anyMissing
        decreases ids
      {
        var id :| id in ids;
        anyMissing := anyMissing || id !in inFlight;
        inFlight, ids := inFlight - {id}, ids - {id};
      }
      assert !anyMissing;
    }

    method FlushBatch()
      requires Valid()
      modifies this`batch, this`flight, this`inFlight, this`batchTxs
      ensures Valid() && View() == StoreSpec.FlushBatch(old(View())) && batch == []
    {
      if batch == [] {
        return;
      }
      hide Inv, IdSet, Flat;
      FlushKeeps(View(), received);
      FlatSnoc(flight, batch);
      IdSetConcat(Flat(flight), batch);
      NotInReorg(View(), received);
      assert running;
      MarkIds(batch);
      flight, batch, batchTxs := flight + [batch], [], 0;
    }

    /** Ids are marked before the batch is handed over. */
    method MarkIds(bs: seq<Block>)
      modifies this`inFlight
      ensures inFlight == old(inFlight) + IdSet(bs)
    {
      hide IdSet;
      NoIds();
      for i := 0 to |bs|
        invariant inFlight == old(inFlight) + IdSet(bs[..i])
      {
        IdSetMore(bs, i);
        inFlight := inFlight + {bs[i].id};
      }
      assert bs[..|bs|] == bs;
    }

    /** Closes the pipeline: it writes all it holds, then nothing may be left in flight. */
    method StopWorkers()
      requires Valid() && running && batch == []
      modifies this`db, this`flight, this`inFlight, this`running
      ensures Stopped() && View() == StoreSpec.StopWorkers(old(View()))
    {
      StopKeeps(View(), received);
      NotInReorg(View(), received);
      ghost var all := CommitAll(db, flight);
      while flight != []
        invariant Valid() && running && batch == [] && pending == old(pending)
        invariant CommitAll(db, flight) == all
        decreases |flight|
      {
        WriterCommits();
      }
      running := false;
      assert inFlight == {};
    }

    method FlushWorkers()
      requires Valid()
      modifies this`batch, this`flight, this`inFlight, this`batchTxs, this`db, this`running
      ensures Valid() && View() == StoreSpec.FlushWorkers(old(View()))
    {
      hide Inv, StoreSpec.StopWorkers;
      if running {
        FlushWorkersKeeps(View(), received);
        FlushBatch();
        EmptyInFlight(View(), received);
        if inFlight != {} {
          StopWorkers();
          running := true;
        }
      }
    }

    method SetMode(mode: Mode)
      requires Valid()
      modifies this
      ensures Valid() && View() == StoreSpec.SetMode(old(View()), mode) && received == old(received)
      ensures old(running) && old(this.mode) != mode ==>
        flight == [] && inFlight == {} && batch == [] && Visible(db) == old(Live(View()))
    {
      hide Inv, Live, Visible, StoreSpec.FlushWorkers, IdSet;
      if this.mode == mode {
        return;
      }
      this.mode := mode;
      ModeIsFree(old(View()), received, mode);
      if running {
        SetModeWaits(old(View()), received, mode);
      }
      FlushWorkers();
      EmptyInFlight(View(), received);
    }

    method Insert(b: Block)
      requires Valid() && Fits(received, b)
      modifies this
      ensures Valid() && received == Chain.Insert(old(received), b)
      ensures InsertBlock(old(View()), b) == Ok(View())
      ensures Live(View()) == Longer(Live(old(View())), received)
    {
      InsertRefines(View(), received, b);
      if pending != map[] {
        InsertWhenInReorg(b);
      } else {
        InsertWhenAtTip(b);
      }
    }

    method InsertWhenAtTip(b: Block)
      requires Valid() && Fits(received, b) && pending == map[]
      modifies this
      ensures Valid() && received == Chain.Insert(old(received), b)
      ensures InsertAtTip(old(View()), b) == Ok(View())
    {
      FitsCount(View(), received, b);
      hide Inv, Fits, InsertAtTip, IdSet, Live, StoreSpec.FlushBatch, StoreSpec.SetMode;
      assert b.height <= count;
      if b.height != count {
        CompareWithStored(b);
        return;
      }
      AddedKeeps(View(), received, b);
      OnTopResult(View(), b);
      batchTxs, batch, count := batchTxs + TxCount([b]), batch + [b], count + 1;
      received := Chain.Insert(received, b);
      assert View() == Added(old(View()), b);
      if mode.IsBulk() {
        if batchTxs > 100_000 {
          FlushBatch();
        }
      } else {
        FlushBatch();
      }
      if head == b.height {
        SetMode(Normal);
      }
    }

    /** The store already has a block at this height: either this one, or a reorg starts. */
    method CompareWithStored(b: Block)
      requires Valid() && Fits(received, b) && pending == map[] && b.height < count
      modifies this
      ensures Valid() && received == Chain.Insert(old(received), b)
      ensures InsertAtTip(old(View()), b) == Ok(View())
    {
      hide Inv, Fits, InsertAtTip, Live, AppendBlocks, CommitAll, HashByHeight, UniqueLive;
      InsertBelowTip(View(), received, b);
      NotInReorg(View(), received);
      BelowTipResult(View(), b);
      FlushBatch();
      StopWorkers();
      CommittedUnique(View().(running := true), received);
      var stored := ReadHashByHeight(db.rows, b.height);
      StoppedAt(View().(running := true), received, b.height);
      assert stored.Some?;
      received := Chain.Insert(received, b);
      if stored.value == b.id {
        running := true;
      } else {
        assert batch == [];
        pending := pending[b.height := b];
      }
    }

    method InsertWhenInReorg(b: Block)
      requires Valid() && Fits(received, b) && pending != map[]
      modifies this
      ensures Valid() && received == Chain.Insert(old(received), b)
      ensures InsertInReorg(old(View()), b) == Ok(View())
    {
      hide Inv, PendingIs, Fits, Below, DbInv, Live, StoreSpec.FinishReorg, IsChain, Visible;
      InsertInReorgKeeps(View(), received, b);
      ReorgIsDrained(View(), received);
      ghost var lo: nat :| PendingIs(View(), received, lo);
      CutPending(View(), received, b, lo);
      FitsCount(View(), received, b);
      InsertKeepsChain(received, b);
      assert b.height <= count;
      pending, received := Below(pending, b.height)[b.height := b], Chain.Insert(received, b);
      if b.height == count {
        FinishReorg(if b.height < lo then b.height else lo);
      }
    }

    /** One transaction moves the database from the old branch to the received one. */
    method FinishReorg(ghost lo: nat)
      requires DbInv(db) && flight == [] && inFlight == {} && batch == [] && count == |Visible(db)|
      requires IsChain(received) && |received| == count + 1 && PendingIs(View(), received, lo)
      modifies this`db, this`batch, this`batchTxs, this`pending, this`count, this`running
      ensures Valid() && StoreSpec.FinishReorg(old(View())) == Ok(View()) && Visible(db) == received
    {
      hide DbInv, PendingIs, Inv, Visible, IsChain, AppendBlocks, From, MarkExtinct, Settle, Reverts, KeysOf,
           UniqueLive, FirstDifferent;
      ghost var s := View();
      FinishSwitches(s, received, lo);
      CommittedDbUnique(db);
      var keys := KeysOf(pending);
      var first := FindFork(keys);
      assert first == ForkOf(s);

      // the transaction works on its own copy until it commits
      var reverts := RevertEvents(db.rows, first);
      var cut := db.(events := db.events + reverts, rows := MarkExtinct(db.rows, first));
      var walked := SettleLoop(cut, From(pending, first));
      assert walked.Ok?;
      var (settled, unseen) := walked.value;
      var blocks := batch + unseen;
      assert blocks != [];
      db, batch, batchTxs, pending, count, running :=
        AppendBlocks(settled, blocks), [], batchTxs + TxCount(unseen), map[], count + 1, true;
      assert Flat([]) == [];
    }

    method FindFork(keys: seq<nat>) returns (first: nat)
      requires UniqueLive(db.rows) && keys == KeysOf(pending)
      ensures first == ForkOf(View())
    {
      var found := None;
      var i := 0;
      while i < |keys|
        invariant 0 <= i <= |keys|
        invariant FirstDifferent(db.rows, pending, keys) == FirstDifferent(db.rows, pending, keys[i..])
        invariant found.None?
      {
        var existing := ReadHashByHeight(db.rows, keys[i]);
        assert keys[i..][0] == keys[i] && keys[i..][1..] == keys[i + 1..];
        if existing.Some? && existing.value != pending[keys[i]].id {
          found := Some(pending[keys[i]].height);
          break;
        }
        i := i + 1;
      }
      first := if found.Some? then found.value else count;
    }

    /** The height of the chain head, None when nothing is stored. */
    method GetHeadHeight() returns (h: Option<nat>)
      requires Valid()
      ensures h == if Live(View()) == [] then None else Some(|Live(View())| - 1)
    {
      h := if count == 0 then None else Some(count - 1);
    }

    method GetHashByHeight(h: nat) returns (r: Option<BlockId>)
      requires Valid()
      modifies this`batch, this`flight, this`inFlight, this`batchTxs, this`db, this`running
      ensures Valid() && (View(), r) == GetHash(old(View()), h)
      ensures r == if h < |received| then Some(received[h])
                   else if h < |Live(View())| then Some(Live(View())[h]) else None
    {
      GetHashMeaning(View(), received, h);
      if count <= h {
        return None;
      }
      if h in pending {
        return Some(pending[h].id);
      }
      FlushWorkers();
      CommittedUnique(View(), received);
      r := ReadHashByHeight(db.rows, h);
    }
  }

  // ---------------------------------------------------------------- helper facts

  lemma NotInReorg(s: StoreSpec.Store, c: seq<BlockId>)
    requires Inv(s, c)
    ensures InReorg(s) <==> !s.running
    ensures s.batch != [] ==> s.running
  {
    hide DbInv, IsChain, PendingIs, Live;
  }

  lemma ReorgIsDrained(s: StoreSpec.Store, c: seq<BlockId>)
    requires Inv(s, c) && InReorg(s)
    ensures DbInv(s.db) && s.flight == [] && s.batch == [] && s.count == |Visible(s.db)| && Flat(s.flight) == []
    ensures IsChain(c) && exists lo: nat :: PendingIs(s, c, lo)
  {
    hide DbInv, IsChain, PendingIs;
    assert Live(s) == Visible(s.db);
  }

  lemma FitsCount(s: StoreSpec.Store, c: seq<BlockId>, b: Block)
    requires Inv(s, c) && Fits(c, b)
    ensures b.height <= s.count
  {
    hide DbInv, IsChain, PendingIs, Live;
  }

  lemma CommittedDbUnique(db: Db)
    requires DbInv(db)
    ensures UniqueLive(db.rows)
  {
    hide TablesFaithful, IsChain, FollowAll, AncestorClosed;
    HoldsUnique(db.rows, Visible(db));
  }

  lemma CommittedUnique(s: StoreSpec.Store, c: seq<BlockId>)
    requires Inv(s, c)
    ensures UniqueLive(s.db.rows)
  {
    hide DbInv, IsChain, PendingIs, Live;
    CommittedDbUnique(s.db);
  }

  lemma EmptyInFlight(s: StoreSpec.Store, c: seq<BlockId>)
    requires Inv(s, c)
    ensures s.flight == [] <==> IdSet(Flat(s.flight)) == {}
  {
    hide DbInv, IsChain, PendingIs, Live;
    if s.flight != [] {
      FlatCons(s.flight);
      assert s.flight[0] != [];
      assert Flat(s.flight)[0].id in IdSet(Flat(s.flight));
    }
  }

  lemma StoppedAt(s: StoreSpec.Store, c: seq<BlockId>, h: nat)
    requires Inv(s, c) && s.flight == [] && s.batch == []
    ensures HashByHeight(s.db.rows, h) == if h < s.count then Some(Live(s)[h]) else None
  {
    hide TablesFaithful, IsChain, FollowAll, AncestorClosed, PendingIs;
    assert Live(s) == Visible(s.db);
    HoldsByHeight(s.db.rows, Live(s), h);
  }

  lemma BelowTipResult(s: StoreSpec.Store, b: Block)
    requires b.height < s.count
    ensures var stopped := StoreSpec.StopWorkers(StoreSpec.FlushBatch(s));
      InsertAtTip(s, b) ==
        match HashByHeight(stopped.db.rows, b.height)
        case None => Panicked(NotIndexed)
        case Some(id) =>
          if id == b.id then Ok(stopped.(running := true))
          else Ok(stopped.(pending := stopped.pending[b.height := b]))
  {
  }

  lemma OnTopResult(s: StoreSpec.Store, b: Block)
    requires b.height == s.count
    ensures var added := Added(s, b);
      var sent := if added.mode.IsBulk() && added.batchTxs <= 100_000 then added else StoreSpec.FlushBatch(added);
      InsertAtTip(s, b) == Ok(if s.head == b.height then StoreSpec.SetMode(sent, Normal) else sent)
  {
  }
}
