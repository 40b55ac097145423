/** What the store keeps in memory.  In the bulk modes blocks at the tip wait until 100,000
    transactions have come together; inserting the block at the node's starting height ends
    bulk mode.  This module says, from the chains alone, when the last block is still waiting. */
module Buffering {
  import opened Chain
  import opened Ledger
  import opened Database
  import opened StoreSpec
  import opened StoreProofs
  import opened StoreRuns

  const LIMIT: nat := 100_000

  // ---------------------------------------------------------------- blocks a reorg stores

  /** The blocks of `c` from height `k` on that are not stored yet. */
  function Unstored(stored: set<BlockId>, c: seq<BlockId>, k: nat): seq<Block>
    requires k <= |c|
    decreases |c| - k
  {
    if k == |c| then []
    else (if c[k] in stored then [] else [Block(k, c[k])]) + Unstored(stored, c, k + 1)
  }

  lemma {:induction false} UnstoredSkips(stored: set<BlockId>, c: seq<BlockId>, k: nat, f: nat)
    requires k <= f <= |c| && forall i | 0 <= i < f :: c[i] in stored
    ensures Unstored(stored, c, k) == Unstored(stored, c, f)
    decreases f - k
  {
    if k < f {
      UnstoredSkips(stored, c, k + 1, f);
    }
  }

  lemma {:induction false} SettleCollects(db: Db, unseen: seq<Block>, c: seq<BlockId>, k: nat, branch: map<nat, Block>,
                                          prev: Option<nat>)
    requires k <= |c| && forall h | k <= h < |c| :: h in branch && branch[h] == Block(h, c[h])
    ensures forall h | h in Range(k, |c|) :: h in branch
    ensures var r := Settle(db, unseen, branch, Range(k, |c|), prev);
      r.Ok? ==> r.value.1 == unseen + Unstored(db.rows.Keys, c, k)
    decreases |c| - k
  {
    if k < |c| {
      var keys := Range(k, |c|);
      assert keys[1..] == Range(k + 1, |c|) && keys[0] == k;
      var rest := Unstored(db.rows.Keys, c, k + 1);
      if c[k] in db.rows {
        assert Revive(db, c[k]).rows.Keys == db.rows.Keys;
        SettleCollects(Revive(db, c[k]), unseen, c, k + 1, branch, Some(k));
      } else {
        SettleCollects(db, unseen + [Block(k, c[k])], c, k + 1, branch, Some(k));
        Assoc3(unseen, [Block(k, c[k])], rest);
      }
    }
  }

  lemma LiveStored(db: Db, i: nat)
    requires DbInv(db) && i < |Visible(db)|
    ensures Visible(db)[i] in db.rows
  {
    hide TablesFaithful, AncestorClosed, IsChain, FollowAll;
    assert LiveAt(db.rows, i, Visible(db)[i]);
  }

  /** The counter after a reorg: every block of the new branch that was not stored counts. */
  lemma FinishCounts(s: Store, c: seq<BlockId>, lo: nat)
    requires DbInv(s.db) && s.flight == [] && s.batch == [] && s.count == |Visible(s.db)|
    requires IsChain(c) && |c| == s.count + 1 && PendingIs(s, c, lo)
    ensures FinishReorg(s).Ok?
    ensures var t := FinishReorg(s).value;
      && t.batchTxs == s.batchTxs + TxCount(Unstored(s.db.rows.Keys, c, 0))
      && t.batch == [] && t.pending == map[] && t.mode == s.mode && t.head == s.head
  {
    hide DbInv, IsChain, PendingIs, Settle, AppendBlocks, MarkExtinct, Reverts, FirstDifferent, KeysOf, From, TxCount,
         Visible, Unstored;
    FinishSwitches(s, c, lo);
    assert Live(s) == Visible(s.db);
    ForkOfMeaning(s, c, lo);
    var f, branch := ForkOf(s), From(s.pending, ForkOf(s));
    forall i | 0 <= i < f ensures c[i] in s.db.rows {
      LiveStored(s.db, i);
      assert c[..f][i] == c[i];
    }
    UnstoredSkips(s.db.rows.Keys, c, 0, f);
    KeysAre(branch, f, |c|);
    var cut := s.db.(events := s.db.events + Reverts(s.db.rows, f, CountOf(s.db.rows)), rows := MarkExtinct(s.db.rows, f));
    MarkedKeys(s.db.rows, f);
    SettleCollects(cut, [], c, f, branch, None);
    var walked := Settle(cut, [], branch, KeysOf(branch), None);
    assert [] + Unstored(s.db.rows.Keys, c, f) == Unstored(s.db.rows.Keys, c, f);
    assert walked.Ok?;
  }

  lemma MarkedKeys(rows: map<BlockId, Row>, h: nat)
    ensures MarkExtinct(rows, h).Keys == rows.Keys
  {
  }

  lemma KeysAre(branch: map<nat, Block>, lo: nat, hi: nat)
    requires lo <= hi && forall k :: k in branch <==> lo <= k < hi
    ensures KeysOf(branch) == Range(lo, hi)
  {
    SortedRange(branch.Keys, lo, hi);
  }

  // ---------------------------------------------------------------- words

  /** What the counter counts: the transactions of the blocks, all of them. */
  lemma {:induction false} TxCountIs(bs: seq<Block>)
    ensures TxCount(bs) == |TxsOf(Ids(bs))|
  {
    if bs != [] {
      TxCountIs(bs[..|bs| - 1]);
      assert Ids(bs)[..|Ids(bs)| - 1] == Ids(bs[..|bs| - 1]);
    }
  }

  /** Both bulk modes wait, normal mode does not. */
  lemma BulkModes(mode: Mode)
    ensures mode.IsBulk() <==> mode == FreshBulk || mode == Bulk
  {
  }

  // ---------------------------------------------------------------- the change of mode

  /** Changing the mode of a running store waits until everything is written. */
  lemma SetModeWaits(s: Store, c: seq<BlockId>, mode: Mode)
    requires Inv(s, c) && s.running && s.mode != mode
    ensures var t := SetMode(s, mode);
      && Inv(t, c) && t.mode == mode && t.flight == [] && t.batch == []
      && Visible(t.db) == Live(t) == Live(s)
  {
    hide Inv, Live, Visible, CommitAll;
    ModeIsFree(s, c, mode);
    FlushWorkersKeeps(s.(mode := mode), c);
  }

  /** An insert changes the mode only at the node's starting height, to normal, and by then
      everything is written. */
  lemma InsertSwitches(s: Store, c: seq<BlockId>, b: Block)
    requires Inv(s, c) && Fits(c, b)
    ensures InsertBlock(s, b).Ok?
    ensures var t := InsertBlock(s, b).value;
      && (t.mode != s.mode <==> s.mode != Normal && !InReorg(s) && b.height == s.head == s.count)
      && (t.mode != s.mode ==>
            && t.mode == Normal && t.flight == [] && t.batch == []
            && Visible(t.db) == Live(t) == Insert(c, b))
  {
    hide Inv, FinishReorg, Below, InsertAtTip, SetMode, Live, Visible, Fits;
    InsertRefines(s, c, b);
    CountIsLive(s, c);
    if InReorg(s) {
      if b.height == s.count {
        FinishShape(s.(pending := Below(s.pending, b.height)[b.height := b]));
      }
    } else if b.height == s.count {
      TipSwitches(s, c, b);
    } else {
      BelowTipShape(s, b);
    }
  }

  lemma TipSwitches(s: Store, c: seq<BlockId>, b: Block)
    requires Inv(s, c) && Fits(c, b) && !InReorg(s) && b.height == s.count
    ensures InsertAtTip(s, b).Ok?
    ensures var t := InsertAtTip(s, b).value;
      && (t.mode != s.mode <==> s.mode != Normal && b.height == s.head)
      && (t.mode != s.mode ==>
            t.mode == Normal && t.flight == [] && t.batch == [] && Visible(t.db) == Live(t) == Insert(c, b))
  {
    hide Inv, Live, Visible, SetMode, Fits;
    CountIsLive(s, c);
    AddedKeeps(s, c, b);
    var added := Added(s, b);
    FlushKeeps(added, Insert(c, b));
    FlushRuns(added);
    var sent := if added.mode.IsBulk() && added.batchTxs <= 100_000 then added else FlushBatch(added);
    if s.mode != Normal {
      SetModeWaits(sent, Insert(c, b), Normal);
    } else {
      assert SetMode(sent, Normal) == sent by {
        SameMode(sent);
      }
    }
  }

  lemma FlushRuns(s: Store)
    ensures FlushBatch(s).running == s.running && FlushBatch(s).mode == s.mode
  {
  }

  lemma SameMode(s: Store)
    ensures SetMode(s, s.mode) == s
  {
  }

  // ---------------------------------------------------------------- the forecast

  /** The first height that is inserted at the tip, after a reorg if there must be one. */
  function TipStart(d: seq<BlockId>, t: seq<BlockId>): nat {
    if d <= t then |d| else |d| + 1
  }

  /** The transaction counter at that moment. */
  function TxsBefore(stored: set<BlockId>, d: seq<BlockId>, t: seq<BlockId>): nat
    requires |d| < |t|
  {
    if d <= t then 0 else TxCount(Unstored(stored, t[..|d| + 1], 0))
  }

  /** The counter, in bulk mode, when the blocks of `t` at heights lo..n-1 are in. */
  function Counter(t: seq<BlockId>, lo: nat, start: nat, n: nat): nat
    requires lo <= n <= |t|
    decreases n
  {
    if n == lo then start
    else
      var txs := Counter(t, lo, start, n - 1) + TxCount([Block(n - 1, t[n - 1])]);
      if txs > LIMIT then 0 else txs
  }

  /** The block at height n-1 is waiting in memory. */
  predicate Waiting(t: seq<BlockId>, lo: nat, start: nat, n: nat, mode: Mode, head: nat)
    requires lo <= n <= |t|
  {
    && mode.IsBulk()
    && lo < n
    && !(lo <= head < n)
    && Counter(t, lo, start, n - 1) + TxCount([Block(n - 1, t[n - 1])]) <= LIMIT
  }

  /** Restarted on `db` in `mode`, with the node's height `head`, and given the whole of `t`,
      the store writes all of it.  Everything here is known before the first block arrives. */
  predicate WritesAll(db: Db, t: seq<BlockId>, mode: Mode, head: nat)
    requires |Visible(db)| < |t|
  {
    var d := Visible(db);
    !Waiting(t, TipStart(d, t), TxsBefore(db.rows.Keys, d, t), |t|, mode, head)
  }

  /** In normal mode, and when the node's starting height is its top, nothing is left waiting. */
  lemma HeadIsEnough(db: Db, t: seq<BlockId>, mode: Mode, head: nat)
    requires |Visible(db)| < |t|
    ensures mode == Normal || head + 1 == |t| ==> WritesAll(db, t, mode, head)
  {
  }

  // ---------------------------------------------------------------- the store along the way

  /** The store when the first `n` blocks of `t` are received, having started on `db`. */
  ghost predicate StoreAt(s: Store, db: Db, t: seq<BlockId>, n: nat, mode: Mode, head: nat)
    requires |Visible(db)| < |t| && n <= |t|
  {
    var d := Visible(db);
    && s.head == head
    && if n <= |d| then
         && s.db == db && s.flight == [] && s.batch == [] && s.batchTxs == 0 && s.mode == mode
         && (InReorg(s) ==> t[..n] != d[..n])
       else
         var lo, start := TipStart(d, t), TxsBefore(db.rows.Keys, d, t);
         && !InReorg(s)
         && Live(s) == t[..n]
         && s.mode == (if lo <= head < n then Normal else mode)
         && (s.batch != [] <==> Waiting(t, lo, start, n, mode, head))
         && (s.mode.IsBulk() ==> s.batchTxs == Counter(t, lo, start, n))
  }

  lemma LiveAlongTheWay(s: Store, db: Db, t: seq<BlockId>, n: nat, mode: Mode, head: nat)
    requires |Visible(db)| < |t| && n <= |t| && StoreAt(s, db, t, n, mode, head)
    ensures Live(s) == if n <= |Visible(db)| then Visible(db) else t[..n]
  {
    hide Visible, Waiting, Live, TxsBefore;
    if n <= |Visible(db)| {
      LiveIsVisible(s);
    }
  }

  /** A block at a height the database already has changes nothing but the pending branch. */
  lemma BelowStep(s: Store, c: seq<BlockId>, db: Db, t: seq<BlockId>, n: nat, mode: Mode, head: nat)
    requires DbInv(db) && |Visible(db)| < |t| && n < |Visible(db)|
    requires Inv(s, c) && StoreAt(s, db, t, n, mode, head) && Fits(c, Block(n, t[n]))
    ensures InsertBlock(s, Block(n, t[n])).Ok?
    ensures StoreAt(InsertBlock(s, Block(n, t[n])).value, db, t, n + 1, mode, head)
  {
    hide DbInv, IsChain, Visible, FinishReorg, Below;
    var b, d := Block(n, t[n]), Visible(db);
    CountIsLive(s, c);
    InsertRefines(s, c, b);
    assert Live(s) == d + [] + [];
    MoreDiffers(t, d, n);
    if !InReorg(s) {
      VisibleHolds(db);
      HoldsByHeight(db.rows, d, n);
    } else {
      assert n in Below(s.pending, n)[n := b];
    }
  }

  lemma VisibleHolds(db: Db)
    requires DbInv(db)
    ensures Holds(db.rows, Visible(db))
  {
    hide Holds, TablesFaithful, AncestorClosed, IsChain, FollowAll;
  }

  lemma MoreDiffers(t: seq<BlockId>, d: seq<BlockId>, n: nat)
    requires n < |d| && n < |t|
    ensures t[..n + 1] == d[..n + 1] <==> t[..n] == d[..n] && t[n] == d[n]
  {
    if t[..n + 1] == d[..n + 1] {
      assert t[..n + 1][n] == d[..n + 1][n];
      assert t[..n + 1][..n] == t[..n] && d[..n + 1][..n] == d[..n];
    }
    if t[..n] == d[..n] && t[n] == d[n] {
      assert t[..n + 1] == t[..n] + [t[n]] && d[..n + 1] == d[..n] + [d[n]];
    }
  }

  lemma CountIsLive(s: Store, c: seq<BlockId>)
    requires Inv(s, c)
    ensures s.count == |Live(s)| && IsChain(c) && DbInv(s.db)
    ensures !InReorg(s) ==> s.running && c == Live(s)[..|c|] && |c| <= |Live(s)|
  {
    hide DbInv, IsChain, PendingIs, Live;
  }

  /** What one block at the tip does to batch, counter and mode. */
  lemma TipInsert(s: Store, b: Block)
    requires b.height == s.count && s.running && (s.mode == Normal ==> s.batch == [])
    ensures InsertAtTip(s, b).Ok?
    ensures var t, txs := InsertAtTip(s, b).value, s.batchTxs + TxCount([b]);
      && t.head == s.head && t.pending == s.pending
      && t.mode == (if s.head == b.height then Normal else s.mode)
      && (t.batch != [] <==> s.mode != Normal && s.head != b.height && txs <= 100_000)
      && (t.mode != Normal ==> t.batchTxs == if txs > 100_000 then 0 else txs)
    ensures var t, txs := InsertAtTip(s, b).value, s.batchTxs + TxCount([b]);
      s.head != b.height || s.mode == Normal ==>
        && t.db == s.db
        && if s.mode != Normal && txs <= 100_000 then t.batch == s.batch + [b] && t.flight == s.flight
           else t.flight == s.flight + [s.batch + [b]]
  {
    hide CommitAll, TxCount;
    var added := Added(s, b);
    assert added.batch != [];
  }

  lemma TipStep(s: Store, c: seq<BlockId>, db: Db, t: seq<BlockId>, n: nat, mode: Mode, head: nat)
    requires DbInv(db) && |Visible(db)| < |t| && |Visible(db)| <= n < |t| && !InReorg(s) && c == t[..n]
    requires Inv(s, c) && StoreAt(s, db, t, n, mode, head) && Fits(c, Block(n, t[n]))
    requires s.mode == Normal ==> s.batch == []
    ensures InsertBlock(s, Block(n, t[n])).Ok?
    ensures StoreAt(InsertBlock(s, Block(n, t[n])).value, db, t, n + 1, mode, head)
  {
    hide DbInv, IsChain, Visible, Inv, InsertAtTip, TxCount, TxsBefore, Fits, Live, Waiting;
    var b, d := Block(n, t[n]), Visible(db);
    CountIsLive(s, c);
    if n == |d| {
      LiveIsVisible(s);
      assert t[..|d|] == d && TipStart(d, t) == |d|;
      NoTxsBefore(db.rows.Keys, d, t);
    }
    InsertRefines(s, c, b);
    assert c[..n] + [t[n]] == t[..n + 1];
    TipInsert(s, b);
    Forecast(t, TipStart(d, t), TxsBefore(db.rows.Keys, d, t), n, mode, head, s);
  }

  /** The forecast moves with the store. */
  lemma Forecast(t: seq<BlockId>, lo: nat, start: nat, n: nat, mode: Mode, head: nat, s: Store)
    requires lo <= n < |t| && s.mode == (if lo <= head < n then Normal else mode)
    requires s.mode.IsBulk() ==> s.batchTxs == Counter(t, lo, start, n)
    ensures var txs, after := s.batchTxs + TxCount([Block(n, t[n])]), if head == n then Normal else s.mode;
      && after == (if lo <= head < n + 1 then Normal else mode)
      && (Waiting(t, lo, start, n + 1, mode, head) <==> s.mode.IsBulk() && head != n && txs <= LIMIT)
      && (after.IsBulk() ==> Counter(t, lo, start, n + 1) == if txs > LIMIT then 0 else txs)
  {
    hide TxCount;
  }

  lemma LiveIsVisible(s: Store)
    requires s.flight == [] && s.batch == []
    ensures Live(s) == Visible(s.db)
  {
    hide Visible;
  }

  lemma NoTxsBefore(stored: set<BlockId>, d: seq<BlockId>, t: seq<BlockId>)
    requires |d| < |t| && d <= t
    ensures TxsBefore(stored, d, t) == 0
  {
  }

  /** The block that makes the received branch the longer one. */
  lemma SwitchStep(s: Store, c: seq<BlockId>, db: Db, t: seq<BlockId>, n: nat, mode: Mode, head: nat)
    requires DbInv(db) && |Visible(db)| < |t| && |Visible(db)| == n && InReorg(s) && c == t[..n]
    requires Inv(s, c) && StoreAt(s, db, t, n, mode, head) && Fits(c, Block(n, t[n]))
    ensures InsertBlock(s, Block(n, t[n])).Ok?
    ensures StoreAt(InsertBlock(s, Block(n, t[n])).value, db, t, n + 1, mode, head)
  {
    hide DbInv, IsChain, Visible, Inv, FinishReorg, TxCount, Fits, PendingIs, Unstored;
    var b, d := Block(n, t[n]), Visible(db);
    CountIsLive(s, c);
    LiveIsVisible(s);
    InsertKeepsChain(c, b);
    InsertRefines(s, c, b);
    assert Insert(c, b) == t[..n + 1];
    var lo: nat := PendingFrom(s, c);
    CutPending(s, c, b, lo);
    var cut := s.(pending := Below(s.pending, n)[n := b]);
    FinishCounts(cut, t[..n + 1], if n < lo then n else lo);
  }

  lemma PendingFrom(s: Store, c: seq<BlockId>) returns (lo: nat)
    requires Inv(s, c) && InReorg(s)
    ensures PendingIs(s, c, lo)
  {
    hide DbInv, IsChain, Live, PendingIs;
    lo :| PendingIs(s, c, lo);
  }

  /** Receiving the next block of `t`. */
  lemma NextBlock(s: Store, c: seq<BlockId>, db: Db, t: seq<BlockId>, n: nat, mode: Mode, head: nat)
    requires DbInv(db) && |Visible(db)| < |t| && n < |t| && (n >= |Visible(db)| ==> c == t[..n])
    requires Inv(s, c) && StoreAt(s, db, t, n, mode, head) && Fits(c, Block(n, t[n]))
    requires s.mode == Normal ==> s.batch == []
    ensures InsertBlock(s, Block(n, t[n])).Ok?
    ensures StoreAt(InsertBlock(s, Block(n, t[n])).value, db, t, n + 1, mode, head)
  {
    hide DbInv, Visible, Inv, InsertBlock, Fits, Waiting, Counter;
    if n < |Visible(db)| {
      BelowStep(s, c, db, t, n, mode, head);
    } else if InReorg(s) {
      SwitchStep(s, c, db, t, n, mode, head);
    } else {
      TipStep(s, c, db, t, n, mode, head);
    }
  }

  /** A commit does not touch what is waiting. */
  lemma CommitStays(s: Store, c: seq<BlockId>, db: Db, t: seq<BlockId>, n: nat, mode: Mode, head: nat)
    requires |Visible(db)| < |t| && n <= |t| && Inv(s, c) && StoreAt(s, db, t, n, mode, head)
    ensures StoreAt(CommitOne(s), db, t, n, mode, head)
  {
    hide Visible, Inv, AppendBlocks, Live, Waiting, Counter;
    CommitOneKeeps(s, c);
  }

  // ---------------------------------------------------------------- up to the head

  /** Blocks wait in memory only while the live chain has not passed the starting height. */
  predicate WaitsBelowHead(s: Store) {
    s.batch != [] ==> s.count <= s.head
  }

  /** No block up to the starting height is left waiting above it. */
  lemma InsertBelowHead(s: Store, c: seq<BlockId>, b: Block)
    requires Inv(s, c) && Fits(c, b) && b.height <= s.head && WaitsBelowHead(s)
    requires s.mode == Normal ==> s.batch == []
    ensures InsertBlock(s, b).Ok?
    ensures WaitsBelowHead(InsertBlock(s, b).value) && InsertBlock(s, b).value.head == s.head
  {
    hide Inv, FinishReorg, Below, InsertAtTip, Live, Visible, Fits;
    InsertRefines(s, c, b);
    CountIsLive(s, c);
    if InReorg(s) {
      ReorgIsFlushed(s, c);
      if b.height == s.count {
        FinishShape(s.(pending := Below(s.pending, b.height)[b.height := b]));
      }
    } else if b.height == s.count {
      TipInsert(s, b);
      TipCount(s, b);
    } else {
      BelowTipShape(s, b);
    }
  }

  lemma ReorgIsFlushed(s: Store, c: seq<BlockId>)
    requires Inv(s, c) && InReorg(s)
    ensures s.batch == []
  {
    hide DbInv, IsChain, PendingIs, Live;
  }

  lemma TipCount(s: Store, b: Block)
    requires b.height == s.count
    ensures InsertAtTip(s, b).Ok? && InsertAtTip(s, b).value.count == s.count + 1
  {
    hide CommitAll, TxCount;
  }

  lemma BelowTipShape(s: Store, b: Block)
    requires b.height != s.count && InsertAtTip(s, b).Ok?
    ensures var t := InsertAtTip(s, b).value; t.batch == [] && t.head == s.head && t.mode == s.mode
  {
    hide CommitAll, HashByHeight;
  }

  // ---------------------------------------------------------------- bulk mode past the head

  /** Once the live chain is above the node's starting height in bulk mode, bulk mode never
      ends; a block at the tip then reaches neither database nor pipeline until the counter
      passes the limit. */
  lemma BulkPastHead(s: Store, c: seq<BlockId>, b: Block)
    requires Inv(s, c) && Fits(c, b) && s.mode.IsBulk() && s.count > s.head
    ensures InsertBlock(s, b).Ok?
    ensures var t := InsertBlock(s, b).value;
      && t.mode == s.mode && t.head == s.head && t.count > t.head
      && (!InReorg(s) && b.height == s.count && s.batchTxs + TxCount([b]) <= LIMIT ==>
            t.db == s.db && t.flight == s.flight && t.batch == s.batch + [b])
      && (InReorg(s) && b.height < s.count ==> t.db == s.db)
  {
    hide Inv, FinishReorg, Below, InsertAtTip, TxCount, Live, Visible, Fits;
    InsertRefines(s, c, b);
    CountIsLive(s, c);
    if InReorg(s) {
      if b.height == s.count {
        FinishShape(s.(pending := Below(s.pending, b.height)[b.height := b]));
      }
    } else {
      AtTipShape(s, b);
    }
  }

  lemma AtTipShape(s: Store, b: Block)
    requires InsertAtTip(s, b).Ok? && s.running && s.mode.IsBulk() && s.count > s.head
    ensures var t := InsertAtTip(s, b).value;
      && t.mode == s.mode && t.head == s.head && t.count >= s.count
      && (b.height == s.count && s.batchTxs + TxCount([b]) <= LIMIT ==>
            t.db == s.db && t.flight == s.flight && t.batch == s.batch + [b])
  {
    hide CommitAll, HashByHeight, TxCount;
  }

  lemma FinishShape(s: Store)
    requires FinishReorg(s).Ok?
    ensures var t := FinishReorg(s).value;
      t.mode == s.mode && t.head == s.head && t.count == s.count + 1 && t.batch == []
  {
    hide Settle, Reverts, MarkExtinct, FirstDifferent, KeysOf, From, AppendBlocks, TxCount;
  }

  /** The same for whole runs: no input and no timing ever ends bulk mode then. */
  lemma {:induction false} BulkForever(s: Store, c: seq<BlockId>, inputs: seq<Input>)
    requires Inv(s, c) && Disciplined(c, inputs) && s.mode.IsBulk() && s.count > s.head
    ensures Run(s, inputs).Ok?
    ensures var t := Run(s, inputs).value; t.mode == s.mode && t.head == s.head && t.count > t.head
  {
    hide Inv, InsertBlock, CommitOne, Fits;
    RunRefines(s, c, inputs);
    if inputs != [] {
      var init, last := inputs[..|inputs| - 1], inputs[|inputs| - 1];
      RunRefines(s, c, init);
      BulkForever(s, c, init);
      match last {
        case Commit => CommitShape(Run(s, init).value);
        case Receive(b) => BulkPastHead(Run(s, init).value, Received(c, init), b);
      }
    }
  }

  lemma CommitShape(s: Store)
    ensures var t := CommitOne(s); t.mode == s.mode && t.head == s.head && t.count == s.count
  {
  }
}
