/** Every run of the store refines "the longest chain seen". */
module StoreProofs {
  import opened Chain
  import opened Database
  import opened StoreSpec

  /** A database state, possibly in the middle of a transaction: the log leads to `c`, the
      live rows are `c`, all stored heights are below `n`. */
  ghost predicate Mid(db: Db, c: seq<BlockId>, n: nat) {
    && Followed(db.events) == Some(c)
    && IsChain(c)
    && Holds(db.rows, c)
    && AncestorClosed(db.rows, n)
    && TablesFaithful(db)
  }

  /** With one block of a chain the store has every block below it. */
  lemma {:induction false} StoredBelow(rows: map<BlockId, Row>, n: nat, c: seq<BlockId>, i: nat, j: nat)
    requires AncestorClosed(rows, n) && IsChain(c) && i <= j < |c| && c[j] in rows
    ensures c[i] in rows
  {
    if i < j {
      assert LinkedAt(c, j) && LinkedAt(c, j - 1) && ParentStored(rows, c[j]);
      StoredBelow(rows, n, c, i, j - 1);
    }
  }

  lemma AppendOne(db: Db, c: seq<BlockId>, n: nat, b: Block)
    requires Mid(db, c, n)
    requires b.height == |c| && b.id.Hash? && b.id.prev == Top(c) && b.id !in db.rows
    ensures Mid(AppendBlock(db, b), c + [b.id], if n <= |c| then |c| + 1 else n)
  {
    AppendKeepsTables(db, b);
    hide TablesFaithful;
    hide InsertTxs;
    var db' := AppendBlock(db, b);
    ChainExtend(c, b.id);
    assert db'.events[..|db.events|] == db.events;
    assert c != [] ==> LiveAt(db.rows, |c| - 1, c[|c| - 1]);
    forall id | id in db'.rows ensures ParentStored(db'.rows, id) {
      assert id in db.rows ==> ParentStored(db.rows, id);
    }
    forall i | 0 <= i < |c| + 1 ensures LiveAt(db'.rows, i, (c + [b.id])[i]) {
      assert i < |c| ==> LiveAt(db.rows, i, c[i]);
    }
  }

  lemma {:induction false} AppendMany(db: Db, c: seq<BlockId>, n: nat, bs: seq<Block>)
    requires Mid(db, c, n) && IsChain(c + Ids(bs)) && Heights(bs, |c|)
    requires bs != [] ==> bs[0].id !in db.rows
    ensures Mid(AppendBlocks(db, bs), c + Ids(bs), if n <= |c| + |bs| then |c| + |bs| else n)
    ensures forall id | id in AppendBlocks(db, bs).rows && id !in db.rows ::
      AppendBlocks(db, bs).rows[id].height < |c| + |bs|
  {
    hide TablesFaithful, Holds, IsChain, Followed, InsertTxs;
    if bs == [] {
      assert c + Ids(bs) == c;
    } else {
      var k := |bs| - 1;
      var init, last, h := bs[..k], bs[k], |c| + k;
      var d := c + Ids(bs);
      assert d == c + Ids(init) + [last.id] && d[..h] == c + Ids(init);
      ChainPrefix(d, h);
      ChainHeight(d, h);
      AppendMany(db, c, n, init);
      var mid := AppendBlocks(db, init);
      assert last.id !in mid.rows by {
        IdsAt(bs, 0);
        if last.id in db.rows {
          StoredBelow(db.rows, n, d, |c|, h);
        }
      }
      AppendOne(mid, c + Ids(init), if n <= h then h else n, last);
    }
  }

  /** Committing a batch that continues the committed chain. */
  lemma AppendCommitted(db: Db, bs: seq<Block>)
    requires DbInv(db) && IsChain(Visible(db) + Ids(bs)) && Heights(bs, |Visible(db)|)
    ensures DbInv(AppendBlocks(db, bs)) && Visible(AppendBlocks(db, bs)) == Visible(db) + Ids(bs)
  {
    hide TablesFaithful;
    var c := Visible(db);
    if bs != [] {
      var d := c + Ids(bs);
      IdsAt(bs, 0);
      ChainHeight(d, |c|);
    }
    AppendMany(db, c, |c|, bs);
  }

  lemma FlatCons(flight: seq<seq<Block>>)
    requires flight != []
    ensures Flat(flight) == flight[0] + Flat(flight[1..])
  {
  }

  lemma {:induction false} FlatSnoc(flight: seq<seq<Block>>, b: seq<Block>)
    ensures Flat(flight + [b]) == Flat(flight) + b
  {
    if flight == [] {
      assert Flat([b]) == b + Flat([b][1..]);
    } else {
      assert (flight + [b])[1..] == flight[1..] + [b];
      FlatSnoc(flight[1..], b);
    }
  }

  lemma HeightsSplit(a: seq<Block>, b: seq<Block>, n: nat)
    ensures Heights(a + b, n) <==> Heights(a, n) && Heights(b, n + |a|)
  {
    if Heights(a + b, n) {
      assert forall i | 0 <= i < |a| :: a[i] == (a + b)[i];
      assert forall i | 0 <= i < |b| :: b[i] == (a + b)[|a| + i];
    }
  }

  /** One commit moves the visible chain along the live chain and changes nothing else. */
  lemma CommitOneKeeps(s: Store, c: seq<BlockId>)
    requires Inv(s, c)
    ensures Inv(CommitOne(s), c) && Live(CommitOne(s)) == Live(s)
    ensures Visible(s.db) <= Visible(CommitOne(s).db) <= Live(s)
  {
    hide TablesFaithful, DbInv, IsChain, AppendBlocks, Heights, PendingIs, Followed;
    if s.flight != [] {
      var s', b, rest := CommitOne(s), s.flight[0], s.flight[1..];
      var v := Visible(s.db);
      FlatCons(s.flight);
      IdsConcat(b, Flat(rest));
      hide Ids, Flat;
      Assoc3(b, Flat(rest), s.batch);
      Assoc3(v, Ids(b), Ids(Flat(rest)));
      PrefixOf(v + Ids(b), Ids(Flat(rest)), Ids(s.batch));
      ChainPrefix(Live(s), |v| + |b|);
      HeightsSplit(b, Flat(rest) + s.batch, |v|);
      AppendCommitted(s.db, b);
      assert Live(s') == Live(s);
    }
  }

  lemma PrefixOf<T>(a: seq<T>, b: seq<T>, c: seq<T>)
    ensures a <= a + b + c && (a + b + c)[..|a|] == a
  {
  }

  lemma Assoc3<T>(a: seq<T>, b: seq<T>, c: seq<T>)
    ensures a + (b + c) == a + b + c
  {
  }

  lemma FlushKeeps(s: Store, c: seq<BlockId>)
    requires Inv(s, c)
    ensures Inv(FlushBatch(s), c) && Live(FlushBatch(s)) == Live(s) && FlushBatch(s).batch == []
  {
    hide DbInv, IsChain, PendingIs, Visible, Heights;
    if s.batch != [] {
      FlatSnoc(s.flight, s.batch);
      IdsConcat(Flat(s.flight), s.batch);
      hide Flat, Ids;
      Assoc3(Visible(s.db), Ids(Flat(s.flight)), Ids(s.batch));
      assert Flat(s.flight) + s.batch + [] == Flat(s.flight) + s.batch;
      EmptyIds();
      assert Live(FlushBatch(s)) == Live(s);
    }
  }

  lemma EmptyIds()
    ensures Ids([]) == []
  {
  }

  /** Stopping the workers commits everything in flight, batch by batch. */
  lemma {:induction false} StopKeeps(s: Store, c: seq<BlockId>)
    requires Inv(s, c) && s.batch == [] && s.running
    ensures var t := StopWorkers(s).(running := true);
      Inv(t, c) && Live(t) == Live(s) && Visible(t.db) == Live(s)
    decreases |s.flight|
  {
    hide TablesFaithful;
    if s.flight != [] {
      CommitOneKeeps(s, c);
      StopKeeps(CommitOne(s), c);
    } else {
      assert Live(s) == Visible(s.db);
    }
  }

  lemma FlushWorkersKeeps(s: Store, c: seq<BlockId>)
    requires Inv(s, c)
    ensures Inv(FlushWorkers(s), c) && Live(FlushWorkers(s)) == Live(s)
    ensures Visible(FlushWorkers(s).db) == Live(s)
  {
    hide TablesFaithful;
    if s.running {
      FlushKeeps(s, c);
      if FlushBatch(s).flight != [] {
        StopKeeps(FlushBatch(s), c);
      }
    }
  }

  // ---------------------------------------------------------------- switching branches

  /** Loop state while walking the new branch up to height `k`: blocks below `m` are live
      again, those from `m` on were never stored. */
  ghost predicate Settling(db: Db, unseen: seq<Block>, c: seq<BlockId>, n: nat, m: nat, k: nat) {
    && m <= k <= |c|
    && Mid(db, c[..m], n)
    && unseen == Blocks(c, m, k)
    && (m < k ==> c[m] !in db.rows)
  }

  lemma FlagsKeepAncestors(rows: map<BlockId, Row>, rows': map<BlockId, Row>, n: nat)
    requires AncestorClosed(rows, n) && rows'.Keys == rows.Keys
    requires forall id | id in rows :: rows'[id].height == rows[id].height
    ensures AncestorClosed(rows', n)
  {
    forall id | id in rows' ensures ParentStored(rows', id) {
      assert ParentStored(rows, id);
    }
  }

  lemma ReviveOne(db: Db, c: seq<BlockId>, n: nat, k: nat)
    requires IsChain(c) && k < |c| && Mid(db, c[..k], n) && c[k] in db.rows
    ensures db.rows[c[k]].extinct
    ensures Mid(Revive(db, c[k]), c[..k + 1], n)
  {
    hide TablesFaithful;
    var id := c[k];
    var db' := Revive(db, id);
    ChainHeight(c, k);
    ChainPrefix(c, k + 1);
    assert db.rows[id].height == k;
    assert db'.events[..|db.events|] == db.events;
    assert c[..k + 1] == c[..k] + [id];
    FlagsKeepTables(db, db');
    FlagsKeepAncestors(db.rows, db'.rows, n);
    forall i | 0 <= i < k + 1 ensures LiveAt(db'.rows, i, c[i]) {
      assert i < k ==> LiveAt(db.rows, i, c[..k][i]);
    }
  }

  /** Walking the new branch never meets a live block or a gap, revives exactly its stored
      part and collects exactly the rest, both in ascending height. */
  lemma {:induction false} SettleBranch(db: Db, unseen: seq<Block>, c: seq<BlockId>, n: nat, m: nat, f: nat, k: nat,
                                        branch: map<nat, Block>)
    requires IsChain(c) && Settling(db, unseen, c, n, m, k) && f <= k
    requires forall h | f <= h < |c| :: h in branch && branch[h] == Block(h, c[h])
    ensures forall h | h in Range(k, |c|) :: h in branch
    ensures var prev := if k == f then None else Some(k - 1);
      exists m': nat, db', unseen' ::
        && Settling(db', unseen', c, n, m', |c|)
        && db'.rows.Keys == db.rows.Keys
        && Settle(db, unseen, branch, Range(k, |c|), prev) == Ok((db', unseen'))
    decreases |c| - k
  {
    hide TablesFaithful, Holds, AncestorClosed, IsChain, Followed;
    var prev := if k == f then None else Some(k - 1);
    if k == |c| {
      assert Settle(db, unseen, branch, Range(k, |c|), prev) == Ok((db, unseen));
    } else {
      var keys := Range(k, |c|);
      assert keys[1..] == Range(k + 1, |c|) && keys[0] == k;
      if c[k] in db.rows {
        if m < k {
          StoredBelow(db.rows, n, c, m, k);
        }
        ReviveOne(db, c, n, k);
        assert Blocks(c, k + 1, k + 1) == unseen;
        SettleBranch(Revive(db, c[k]), unseen, c, n, k + 1, f, k + 1, branch);
      } else {
        assert Blocks(c, m, k + 1) == unseen + [Block(k, c[k])];
        SettleBranch(db, unseen + [Block(k, c[k])], c, n, m, f, k + 1, branch);
      }
    }
  }

  lemma CountIs(rows: map<BlockId, Row>, c: seq<BlockId>)
    requires Holds(rows, c) && AncestorClosed(rows, |c|)
    ensures CountOf(rows) == |c|
  {
    if c != [] {
      assert LiveAt(rows, |c| - 1, c[|c| - 1]) && Selected(rows, false, c[|c| - 1]);
    }
    assert IsCount(rows, false, |c|);
    var n := CountOf(rows);
    assert IsCount(rows, false, n);
    if c != [] {
      assert rows[c[|c| - 1]].height == |c| - 1;
    }
  }

  /** The search for the fork: the first pending height where the live chain has another
      block, or the end of the live chain. */
  lemma {:induction false} ForkPoint(rows: map<BlockId, Row>, d: seq<BlockId>, c: seq<BlockId>, k: nat,
                                     pending: map<nat, Block>)
    requires Holds(rows, d) && |c| == |d| + 1 && k <= |d| && c[..k] == d[..k]
    requires forall h | k <= h < |c| :: h in pending && pending[h] == Block(h, c[h])
    ensures forall h | h in Range(k, |c|) :: h in pending
    ensures var found := FirstDifferent(rows, pending, Range(k, |c|));
      var f := if found.Some? then found.value else |d|;
      k <= f <= |d| && c[..f] == d[..f] && (f < |d| ==> c[f] != d[f])
    decreases |d| - k
  {
    var keys := Range(k, |c|);
    assert keys[0] == k && keys[1..] == Range(k + 1, |c|);
    HoldsByHeight(rows, d, k);
    if k == |d| {
      assert FirstDifferent(rows, pending, keys[1..]).None?;
    } else if c[k] == d[k] {
      assert c[..k + 1] == c[..k] + [c[k]] && d[..k + 1] == d[..k] + [d[k]];
      ForkPoint(rows, d, c, k + 1, pending);
    }
  }

  /** After the reverts and the UPDATE the database stands at the fork. */
  lemma CutAt(db: Db, f: nat)
    requires DbInv(db) && f <= |Visible(db)|
    ensures var d := Visible(db);
      Mid(Cut(db, f, |d|), d[..f], |d|)
  {
    hide TablesFaithful, IsChain, FollowAll;
    var d := Visible(db);
    var rows := MarkExtinct(db.rows, f);
    FollowReverts(db.rows, d, f, |d|);
    assert d[..|d|] == d;
    FollowConcat([], db.events, Reverts(db.rows, f, |d|));
    ChainPrefix(d, f);
    FlagsKeepTables(db, Cut(db, f, |d|));
    FlagsKeepAncestors(db.rows, rows, |d|);
    assert forall i | 0 <= i < f :: LiveAt(db.rows, i, d[i]);
  }

  /** The database at the fork, before the new branch is walked. */
  ghost function Cut(db: Db, f: nat, n: nat): Db {
    db.(events := db.events + Reverts(db.rows, f, n), rows := MarkExtinct(db.rows, f))
  }

  /** Storing what was never stored completes the new branch; its top is always among it,
      because it is higher than anything stored. */
  lemma StoreRest(db: Db, unseen: seq<Block>, c: seq<BlockId>, n: nat, m: nat)
    requires IsChain(c) && |c| == n + 1 && Settling(db, unseen, c, n, m, |c|)
    ensures unseen != []
    ensures DbInv(AppendBlocks(db, unseen)) && Visible(AppendBlocks(db, unseen)) == c
  {
    hide TablesFaithful, Holds, IsChain, FollowAll, AppendBlocks;
    assert m < |c| by {
      if m == |c| {
        HoldsByHeight(db.rows, c[..m], n);
        ChainHeight(c, n);
        assert false;
      }
    }
    BlocksMeaning(c, m, |c|);
    hide Blocks;
    assert unseen[0] == Block(m, c[m]);
    SplitAt(c, m);
    AppendMany(db, c[..m], n, unseen);
  }

  lemma SplitAt<T>(s: seq<T>, m: nat)
    requires m <= |s|
    ensures s[..m] + s[m..|s|] == s
  {
  }

  lemma SamePrefix<T>(a: seq<T>, b: seq<T>, n: nat, m: nat)
    requires m <= n <= |a| && n <= |b| && a[..n] == b[..n]
    ensures a[..m] == b[..m]
  {
    assert a[..n][..m] == a[..m] && b[..n][..m] == b[..m];
  }

  /** Walking the whole new branch from the fork on. */
  lemma WalkAll(cut: Db, c: seq<BlockId>, f: nat, branch: map<nat, Block>) returns (m: nat)
    requires IsChain(c) && c != [] && f < |c| && Mid(cut, c[..f], |c| - 1)
    requires forall k :: k in branch <==> f <= k < |c|
    requires forall k | f <= k < |c| :: branch[k] == Block(k, c[k])
    ensures var r := Settle(cut, [], branch, KeysOf(branch), None);
      r.Ok? && Settling(r.value.0, r.value.1, c, |c| - 1, m, |c|) && r.value.0.rows.Keys == cut.rows.Keys
  {
    hide DbInv, Visible, IsChain, Settle, AppendBlocks, Mid;
    var n := |c| - 1;
    SortedRange(branch.Keys, f, |c|);
    assert Blocks(c, f, f) == [];
    assert Settling(cut, [], c, n, f, f);
    hide Settling;
    SettleBranch(cut, [], c, n, f, f, f, branch);
    var settled, unseen;
    m, settled, unseen :| Settling(settled, unseen, c, n, m, |c|) && settled.rows.Keys == cut.rows.Keys
      && Settle(cut, [], branch, Range(f, |c|), None) == Ok((settled, unseen));
  }

  /** Walking and storing the whole new branch from the fork on. */
  lemma SettleAll(cut: Db, c: seq<BlockId>, f: nat, branch: map<nat, Block>)
    requires IsChain(c) && c != [] && f < |c| && Mid(cut, c[..f], |c| - 1)
    requires forall k :: k in branch <==> f <= k < |c|
    requires forall k | f <= k < |c| :: branch[k] == Block(k, c[k])
    ensures var r := Settle(cut, [], branch, KeysOf(branch), None);
      && r.Ok? && r.value.1 != []
      && DbInv(AppendBlocks(r.value.0, r.value.1))
      && Visible(AppendBlocks(r.value.0, r.value.1)) == c
  {
    hide DbInv, Visible, IsChain, Settle, AppendBlocks, Mid, Settling;
    var m := WalkAll(cut, c, f, branch);
    var r := Settle(cut, [], branch, KeysOf(branch), None).value;
    StoreRest(r.0, r.1, c, |c| - 1, m);
  }

  ghost function ForkOf(s: Store): nat {
    var found := FirstDifferent(s.db.rows, s.pending, KeysOf(s.pending));
    if found.Some? then found.value else s.count
  }

  lemma ForkOfMeaning(s: Store, c: seq<BlockId>, lo: nat)
    requires DbInv(s.db) && Live(s) == Visible(s.db) && s.count == |Visible(s.db)|
    requires |c| == s.count + 1 && PendingIs(s, c, lo)
    ensures ForkOf(s) <= s.count && c[..ForkOf(s)] == Visible(s.db)[..ForkOf(s)]
    ensures ForkOf(s) < s.count ==> c[ForkOf(s)] != Visible(s.db)[ForkOf(s)]
    ensures forall k :: k in From(s.pending, ForkOf(s)) <==> ForkOf(s) <= k < |c|
    ensures forall k | ForkOf(s) <= k < |c| :: From(s.pending, ForkOf(s))[k] == Block(k, c[k])
  {
    hide TablesFaithful, Holds, AncestorClosed, IsChain, FollowAll;
    SortedRange(s.pending.Keys, lo, |c|);
    ForkPoint(s.db.rows, Visible(s.db), c, lo, s.pending);
  }

  /** Finishing a reorg: no panic, and the live chain becomes the received one in a single
      transaction. */
  lemma FinishSwitches(s: Store, c: seq<BlockId>, lo: nat)
    requires DbInv(s.db) && s.flight == [] && s.batch == [] && s.count == |Visible(s.db)|
    requires IsChain(c) && |c| == s.count + 1 && PendingIs(s, c, lo)
    ensures FinishReorg(s).Ok?
    ensures var t := FinishReorg(s).value; Inv(t, c) && Visible(t.db) == c && t.flight == [] && t.batch == []
  {
    hide TablesFaithful, Holds, AncestorClosed, IsChain, FollowAll, PendingIs, Settle, AppendBlocks, MarkExtinct,
         Reverts, FirstDifferent, KeysOf, From;
    var d := Visible(s.db);
    assert Live(s) == d;
    CountIs(s.db.rows, d);
    ForkOfMeaning(s, c, lo);
    var f := ForkOf(s);
    CutAt(s.db, f);
    SettleAll(Cut(s.db, f, |d|), c, f, From(s.pending, f));
    var r := Settle(Cut(s.db, f, |d|), [], From(s.pending, f), KeysOf(From(s.pending, f)), None).value;
    assert s.batch + r.1 == r.1;
    var t := FinishReorg(s).value;
    assert t.db == AppendBlocks(r.0, r.1);
    assert Live(t) == c;
    assert Flat(t.flight) + t.batch == [];
  }

  // ---------------------------------------------------------------- one insert

  /** The invariant of a store in the middle of a reorg, with its fork named. */
  lemma ReorgInv(s: Store, c: seq<BlockId>, lo: nat)
    requires DbInv(s.db) && IsChain(Visible(s.db)) && |Visible(s.db)| == s.count
    requires !s.running && s.flight == [] && s.batch == [] && InReorg(s)
    requires IsChain(c) && |c| <= s.count && PendingIs(s, c, lo)
    ensures Inv(s, c) && Live(s) == Visible(s.db)
  {
    hide DbInv, IsChain, PendingIs, Visible;
    assert Live(s) == Visible(s.db);
  }

  /** A block at a height the store already has: either the very same block, or the start of
      a competing branch; in both cases everything buffered is written first. */
  lemma InsertBelowTip(s: Store, c: seq<BlockId>, b: Block)
    requires Inv(s, c) && !InReorg(s) && Fits(c, b) && b.height < s.count
    ensures InsertAtTip(s, b).Ok?
    ensures var t := InsertAtTip(s, b).value;
      Inv(t, Insert(c, b)) && Live(t) == Live(s) && Visible(t.db) == Live(s)
  {
    hide TablesFaithful, IsChain, AppendBlocks, CommitAll, Followed, Genuine;
    var d, c', h := Live(s), Insert(c, b), b.height;
    InsertKeepsChain(c, b);
    FlushKeeps(s, c);
    StopKeeps(FlushBatch(s), c);
    var stopped := StopWorkers(FlushBatch(s));
    var run := stopped.(running := true);
    assert Visible(run.db) == Live(run) == d;
    HoldsByHeight(stopped.db.rows, d, h);
    hide Holds, AncestorClosed;
    var t := InsertAtTip(s, b).value;
    CutPrefix(c, d, h, b.id);
    if d[h] == b.id {
      assert t == run;
    } else {
      assert t == stopped.(pending := map[h := b]);
      StartPending(t, c', d, h, b);
      ReorgInv(t, c', h);
    }
  }

  lemma CutPrefix(c: seq<BlockId>, d: seq<BlockId>, h: nat, id: BlockId)
    requires |c| <= |d| && c == d[..|c|] && h <= |c| && h < |d|
    ensures var c' := c[..h] + [id]; c'[..h] == d[..h] && (d[h] == id ==> c' == d[..h + 1])
  {
    assert c[..h] == d[..h];
  }

  lemma StartPending(t: Store, c: seq<BlockId>, d: seq<BlockId>, h: nat, b: Block)
    requires Live(t) == d && |c| == h + 1 && h < |d| && c[..h] == d[..h] && c[h] == b.id && b.height == h
    requires t.pending == map[h := b]
    ensures PendingIs(t, c, h)
  {
    hide Live;
  }

  /** The mode plays no part in the invariant. */
  lemma ModeIsFree(s: Store, c: seq<BlockId>, mode: Mode)
    requires Inv(s, c)
    ensures Inv(s.(mode := mode), c) && Live(s.(mode := mode)) == Live(s)
  {
    hide DbInv, IsChain;
    var t := s.(mode := mode);
    assert Live(t) == Live(s);
    forall lo: nat | PendingIs(s, c, lo) ensures PendingIs(t, c, lo) {
    }
  }

  function Added(s: Store, b: Block): Store {
    s.(batch := s.batch + [b], count := s.count + 1, batchTxs := s.batchTxs + TxCount([b]))
  }

  /** A new block at the tip goes into the batch. */
  lemma AddedKeeps(s: Store, c: seq<BlockId>, b: Block)
    requires Inv(s, c) && !InReorg(s) && Fits(c, b) && b.height == s.count
    ensures Inv(Added(s, b), Insert(c, b)) && Live(Added(s, b)) == Insert(c, b)
  {
    hide DbInv, IsChain, Visible, PendingIs, Fits;
    var t := Added(s, b);
    InsertKeepsChain(c, b);
    IdsConcat(s.batch, [b]);
    assert c == Live(s);
    Assoc3(Visible(s.db) + Ids(Flat(s.flight)), Ids(s.batch), [b.id]);
    Assoc3(Flat(s.flight), s.batch, [b]);
  }

  lemma InsertOnTop(s: Store, c: seq<BlockId>, b: Block)
    requires Inv(s, c) && !InReorg(s) && Fits(c, b) && b.height == s.count
    ensures InsertAtTip(s, b).Ok?
    ensures var t := InsertAtTip(s, b).value;
      Inv(t, Insert(c, b)) && Live(t) == Insert(c, b) && Visible(s.db) <= Visible(t.db)
  {
    hide Inv, Live, Visible, FlushWorkers;
    var c' := Insert(c, b);
    AddedKeeps(s, c, b);
    var added := Added(s, b);
    FlushKeeps(added, c');
    var sent := if added.mode.IsBulk() && added.batchTxs <= 100_000 then added else FlushBatch(added);
    ModeIsFree(sent, c', Normal);
    FlushWorkersKeeps(sent.(mode := Normal), c');
    VisibleGrows(sent, c');
  }

  lemma InsertAtTipKeeps(s: Store, c: seq<BlockId>, b: Block)
    requires Inv(s, c) && !InReorg(s) && Fits(c, b)
    ensures InsertAtTip(s, b).Ok?
    ensures var t := InsertAtTip(s, b).value;
      Inv(t, Insert(c, b)) && Live(t) == Longer(Live(s), Insert(c, b))
      && Visible(s.db) <= Visible(t.db)
  {
    hide DbInv, IsChain, InsertAtTip;
    VisibleGrows(s, c);
    if b.height < s.count {
      InsertBelowTip(s, c, b);
    } else {
      InsertOnTop(s, c, b);
    }
  }

  /** Draining the pipeline only extends the visible chain. */
  lemma VisibleGrows(s: Store, c: seq<BlockId>)
    requires Inv(s, c)
    ensures Visible(s.db) <= Live(s)
  {
    hide TablesFaithful;
    assert Live(s) == Visible(s.db) + (Ids(Flat(s.flight)) + Ids(s.batch));
  }

  /** While in a reorg a new block cuts the pending branch at its height. */
  lemma CutPending(s: Store, c: seq<BlockId>, b: Block, lo: nat)
    requires PendingIs(s, c, lo) && b.height <= |c|
    ensures var h := b.height;
      PendingIs(s.(pending := Below(s.pending, h)[h := b]), Insert(c, b), if h < lo then h else lo)
  {
    hide Live;
    var d, c', h := Live(s), Insert(c, b), b.height;
    var t := s.(pending := Below(s.pending, h)[h := b]);
    var lo' := if h < lo then h else lo;
    assert Live(t) == d by {
      LiveOfTables(s, t);
    }
    SamePrefix(c, d, lo, lo');
    assert c'[..lo'] == c[..lo'];
    forall k | lo' <= k < |c'| ensures t.pending[k] == Block(k, c'[k]) {
      assert k < h ==> c'[k] == c[k];
    }
  }

  lemma LiveOfTables(s: Store, t: Store)
    requires s.db == t.db && s.flight == t.flight && s.batch == t.batch
    ensures Live(s) == Live(t)
  {
  }

  lemma InsertInReorgKeeps(s: Store, c: seq<BlockId>, b: Block)
    requires Inv(s, c) && InReorg(s) && Fits(c, b)
    ensures InsertInReorg(s, b).Ok?
    ensures var t := InsertInReorg(s, b).value;
      Inv(t, Insert(c, b)) && Live(t) == Longer(Live(s), Insert(c, b))
      && (Visible(t.db) == Visible(s.db) || Visible(t.db) == Insert(c, b))
  {
    hide TablesFaithful, DbInv, IsChain, FinishReorg, PendingIs, Below;
    var d, c', h := Live(s), Insert(c, b), b.height;
    assert d == Visible(s.db);
    InsertKeepsChain(c, b);
    var lo: nat :| PendingIs(s, c, lo);
    CutPending(s, c, b, lo);
    var t := s.(pending := Below(s.pending, h)[h := b]);
    var lo' := if h < lo then h else lo;
    assert IsChain(d) by {
      ChainOfDb(s.db);
    }
    if h == s.count {
      FinishSwitches(t, c', lo');
      var r := FinishReorg(t).value;
      assert Live(r) == c';
    } else {
      assert h in t.pending;
      ReorgInv(t, c', lo');
    }
  }

  lemma ChainOfDb(db: Db)
    requires DbInv(db)
    ensures IsChain(Visible(db))
  {
    hide TablesFaithful, Holds, AncestorClosed, IsChain, FollowAll;
  }

  /** The refinement: after any fitting block the store has not panicked, still represents
      the received chain, and its live chain is the longer of the two. */
  lemma InsertRefines(s: Store, c: seq<BlockId>, b: Block)
    requires Inv(s, c) && Fits(c, b)
    ensures InsertBlock(s, b).Ok?
    ensures var t := InsertBlock(s, b).value;
      && Inv(t, Insert(c, b))
      && Live(t) == Longer(Live(s), Insert(c, b))
      && |Visible(s.db)| <= |Visible(t.db)|
      && (Visible(s.db) <= Visible(t.db) || (Visible(t.db) == Insert(c, b) == Live(t)))
  {
    hide TablesFaithful;
    if InReorg(s) {
      InsertInReorgKeeps(s, c, b);
    } else {
      InsertAtTipKeeps(s, c, b);
    }
  }
}
