/** Exactly which events the store emits.  A reorg undoes the blocks above the fork, and only
    those, and then announces the new branch from the fork on; everything else only announces
    new blocks. */
module ReorgLog {
  import opened Chain
  import opened Database
  import opened StoreSpec
  import opened StoreProofs

  /** Reverts of the blocks of `d` from the top down to height `f`. */
  function Undo(d: seq<BlockId>, f: nat): (r: seq<Event>)
    requires f <= |d|
    ensures |r| == |d| - f
  {
    seq(|d| - f, i requires 0 <= i < |d| - f => Event(d[|d| - 1 - i], true))
  }

  /** `f` is the length of the longest common lower part of two chains. */
  predicate IsFork(d: seq<BlockId>, c: seq<BlockId>, f: nat) {
    && f <= |d| && f <= |c| && d[..f] == c[..f]
    && (f < |d| && f < |c| ==> d[f] != c[f])
  }

  lemma OneFork(d: seq<BlockId>, c: seq<BlockId>, f: nat, g: nat)
    requires IsFork(d, c, f) && IsFork(d, c, g)
    ensures f == g
  {
    SameBelow(d, c, f);
    SameBelow(d, c, g);
  }

  lemma SameBelow(d: seq<BlockId>, c: seq<BlockId>, n: nat)
    requires n <= |d| && n <= |c| && d[..n] == c[..n]
    ensures forall i | 0 <= i < n :: d[i] == c[i]
  {
    forall i | 0 <= i < n ensures d[i] == c[i] {
      assert d[..n][i] == c[..n][i];
    }
  }

  lemma {:induction false} RevertsAre(rows: map<BlockId, Row>, d: seq<BlockId>, f: nat, n: nat)
    requires Holds(rows, d) && f <= n <= |d|
    ensures Reverts(rows, f, n) == Undo(d[..n], f)
    decreases n
  {
    if f < n {
      HoldsByHeight(rows, d, n - 1);
      RevertsAre(rows, d, f, n - 1);
      hide Holds, HashByHeight;
      var u := Undo(d[..n], f);
      assert u == [Event(d[n - 1], true)] + Undo(d[..n - 1], f);
    }
  }

  lemma PushesConcat(a: seq<BlockId>, b: seq<BlockId>)
    ensures Pushes(a + b) == Pushes(a) + Pushes(b)
  {
  }

  lemma {:induction false} AppendEvents(db: Db, bs: seq<Block>)
    ensures AppendBlocks(db, bs).events == db.events + Pushes(Ids(bs))
  {
    if bs == [] {
      assert Pushes([]) == [];
    } else {
      var init, last := bs[..|bs| - 1], bs[|bs| - 1];
      AppendEvents(db, init);
      PushesConcat(Ids(init), [last.id]);
      assert Pushes([last.id]) == [Event(last.id, false)];
      Assoc3(db.events, Pushes(Ids(init)), [Event(last.id, false)]);
    }
  }

  // ---------------------------------------------------------------- walking the new branch

  /** The ids of `c` from height `k` on that are stored. */
  function StoredIds(stored: set<BlockId>, c: seq<BlockId>, k: nat): seq<BlockId>
    requires k <= |c|
    decreases |c| - k
  {
    if k == |c| then [] else (if c[k] in stored then [c[k]] else []) + StoredIds(stored, c, k + 1)
  }

  lemma {:induction false} StoredIsRange(stored: set<BlockId>, c: seq<BlockId>, f: nat, m: nat)
    requires f <= m <= |c|
    requires forall i | f <= i < m :: c[i] in stored
    requires forall i | m <= i < |c| :: c[i] !in stored
    ensures StoredIds(stored, c, f) == c[f..m]
    decreases |c| - f
  {
    if f < m {
      StoredIsRange(stored, c, f + 1, m);
      assert c[f..m] == [c[f]] + c[f + 1..m];
    } else if f < |c| {
      StoredIsRange(stored, c, f + 1, m + 1);
      assert [] + c[f + 1..m + 1] == c[f..m];
    }
  }

  lemma {:induction false} SettleEvents(db: Db, unseen: seq<Block>, c: seq<BlockId>, k: nat, branch: map<nat, Block>,
                                        prev: Option<nat>)
    requires k <= |c| && forall h | k <= h < |c| :: h in branch && branch[h] == Block(h, c[h])
    ensures forall h | h in Range(k, |c|) :: h in branch
    ensures var r := Settle(db, unseen, branch, Range(k, |c|), prev);
      r.Ok? ==> r.value.0.events == db.events + Pushes(StoredIds(db.rows.Keys, c, k))
    decreases |c| - k
  {
    if k == |c| {
      assert Pushes([]) == [];
    } else {
      var keys := Range(k, |c|);
      assert keys[1..] == Range(k + 1, |c|) && keys[0] == k;
      var rest := StoredIds(db.rows.Keys, c, k + 1);
      if c[k] in db.rows {
        assert Revive(db, c[k]).rows.Keys == db.rows.Keys;
        SettleEvents(Revive(db, c[k]), unseen, c, k + 1, branch, Some(k));
        PushesConcat([c[k]], rest);
        assert Pushes([c[k]]) == [Event(c[k], false)];
        Assoc3(db.events, [Event(c[k], false)], Pushes(rest));
      } else {
        SettleEvents(db, unseen + [Block(k, c[k])], c, k + 1, branch, Some(k));
        assert [] + rest == rest;
      }
    }
  }

  /** In the walked database exactly the part of the branch below `m` is stored. */
  lemma StoredUpTo(db: Db, unseen: seq<Block>, c: seq<BlockId>, m: nat, i: nat)
    requires IsChain(c) && c != [] && Settling(db, unseen, c, |c| - 1, m, |c|) && i < |c|
    ensures c[i] in db.rows <==> i < m
  {
    hide TablesFaithful, IsChain, FollowAll;
    if i < m {
      assert LiveAt(db.rows, i, c[..m][i]);
    } else if c[i] in db.rows {
      StoredBelow(db.rows, |c| - 1, c, m, i);
    }
  }

  /** Revive events for the stored part first, then events for the rest: together the branch. */
  lemma BranchEvents(cut: Db, c: seq<BlockId>, f: nat, branch: map<nat, Block>)
    requires IsChain(c) && c != [] && f < |c| && Mid(cut, c[..f], |c| - 1)
    requires forall k :: k in branch <==> f <= k < |c|
    requires forall k | f <= k < |c| :: branch[k] == Block(k, c[k])
    ensures var r := Settle(cut, [], branch, KeysOf(branch), None);
      r.Ok? && AppendBlocks(r.value.0, r.value.1).events == cut.events + Pushes(c[f..])
  {
    hide DbInv, Visible, IsChain, Settle, AppendBlocks, Mid, Settling, KeysOf, StoredIds, Ids;
    var m := WalkAll(cut, c, f, branch);
    var r := Settle(cut, [], branch, KeysOf(branch), None).value;
    BranchKeys(branch, f, |c|);
    SettleEvents(cut, [], c, f, branch, None);
    forall i | 0 <= i < |c| ensures c[i] in cut.rows.Keys <==> i < m {
      StoredUpTo(r.0, r.1, c, m, i);
    }
    BelowForkStored(cut, c, f, m);
    CollectedIs(r.0, r.1, c, m);
    StoredIsRange(cut.rows.Keys, c, f, m);
    AppendEvents(r.0, r.1);
    PushesConcat(c[f..m], c[m..]);
    assert c[f..m] + c[m..] == c[f..];
    Assoc3(cut.events, Pushes(c[f..m]), Pushes(c[m..]));
  }

  lemma BranchKeys(branch: map<nat, Block>, lo: nat, hi: nat)
    requires lo <= hi && forall k :: k in branch <==> lo <= k < hi
    ensures KeysOf(branch) == Range(lo, hi)
  {
    SortedRange(branch.Keys, lo, hi);
  }

  lemma CollectedIs(db: Db, unseen: seq<Block>, c: seq<BlockId>, m: nat)
    requires c != [] && Settling(db, unseen, c, |c| - 1, m, |c|)
    ensures m <= |c| && Ids(unseen) == c[m..]
  {
    hide Mid, Ids;
    BlocksMeaning(c, m, |c|);
    assert c[m..|c|] == c[m..];
  }

  lemma BelowForkStored(cut: Db, c: seq<BlockId>, f: nat, m: nat)
    requires f < |c| && Mid(cut, c[..f], |c| - 1)
    requires forall i | 0 <= i < |c| :: c[i] in cut.rows.Keys <==> i < m
    ensures f <= m
  {
    hide TablesFaithful, IsChain, FollowAll, AncestorClosed;
    if f > 0 {
      assert LiveAt(cut.rows, f - 1, c[..f][f - 1]);
    }
  }

  // ---------------------------------------------------------------- the reorg

  /** The log of a finished reorg: what was there, the reverts above the fork from the top down,
      the new branch from the fork up, and nothing else. */
  lemma FinishLog(s: Store, c: seq<BlockId>, lo: nat, f: nat)
    requires DbInv(s.db) && s.flight == [] && s.batch == [] && s.count == |Visible(s.db)|
    requires IsChain(c) && |c| == s.count + 1 && PendingIs(s, c, lo) && IsFork(Visible(s.db), c, f)
    ensures FinishReorg(s).Ok?
    ensures FinishReorg(s).value.db.events == s.db.events + Undo(Visible(s.db), f) + Pushes(c[f..])
  {
    hide TablesFaithful, AncestorClosed, Holds, IsChain, FollowAll, PendingIs, Settle, AppendBlocks, MarkExtinct, Reverts,
         FirstDifferent, KeysOf, From, Mid, Undo;
    var d := Visible(s.db);
    assert Live(s) == d;
    FinishSwitches(s, c, lo);
    CountIs(s.db.rows, d);
    ForkOfMeaning(s, c, lo);
    OneFork(d, c, f, ForkOf(s));
    CutAt(s.db, f);
    RevertsAre(s.db.rows, d, f, |d|);
    assert d[..|d|] == d;
    BranchEvents(Cut(s.db, f, |d|), c, f, From(s.pending, f));
    var r := Settle(Cut(s.db, f, |d|), [], From(s.pending, f), KeysOf(From(s.pending, f)), None).value;
    assert s.batch + r.1 == r.1;
  }

  // ---------------------------------------------------------------- everything else

  ghost predicate OnlyAnnounces(db: Db, later: Db) {
    exists ids :: later.events == db.events + Pushes(ids)
  }

  lemma Announces(db: Db, later: Db, ids: seq<BlockId>)
    requires later.events == db.events + Pushes(ids)
    ensures OnlyAnnounces(db, later)
  {
  }

  lemma {:induction false} CommitAllAnnounces(db: Db, flight: seq<seq<Block>>)
    ensures OnlyAnnounces(db, CommitAll(db, flight))
    decreases |flight|
  {
    hide OnlyAnnounces, AppendBlocks;
    if flight == [] {
      assert db.events + Pushes([]) == db.events;
      Announces(db, db, []);
    } else {
      AppendEvents(db, flight[0]);
      CommitAllAnnounces(AppendBlocks(db, flight[0]), flight[1..]);
      AnnouncesTwice(db, AppendBlocks(db, flight[0]), CommitAll(db, flight), Ids(flight[0]));
    }
  }

  lemma AnnouncesTwice(db: Db, mid: Db, later: Db, ids: seq<BlockId>)
    requires mid.events == db.events + Pushes(ids) && OnlyAnnounces(mid, later)
    ensures OnlyAnnounces(db, later)
  {
    var more :| later.events == mid.events + Pushes(more);
    PushesConcat(ids, more);
    Assoc3(db.events, Pushes(ids), Pushes(more));
    assert later.events == db.events + Pushes(ids + more);
  }

  /** Announced blocks are what a follower's chain grows by. */
  lemma AnnouncedIsVisible(db: Db, later: Db)
    requires DbInv(db) && DbInv(later) && OnlyAnnounces(db, later)
    ensures Visible(db) <= Visible(later)
    ensures later.events == db.events + Pushes(Visible(later)[|Visible(db)|..])
  {
    hide TablesFaithful, AncestorClosed, Holds, IsChain;
    var ids :| later.events == db.events + Pushes(ids);
    FollowConcat([], db.events, Pushes(ids));
    PushedChain(Visible(db), ids);
    assert (Visible(db) + ids)[|Visible(db)|..] == ids;
  }

  lemma {:induction false} PushedChain(c: seq<BlockId>, ids: seq<BlockId>)
    ensures FollowAll(c, Pushes(ids)).Some? ==> FollowAll(c, Pushes(ids)).value == c + ids
  {
    if ids == [] {
      assert c + [] == c;
    } else {
      var init := ids[..|ids| - 1];
      PushedChain(c, init);
      assert Pushes(ids)[..|ids| - 1] == Pushes(init);
      assert c + init + [ids[|ids| - 1]] == c + ids;
    }
  }

  lemma AtTipAnnounces(s: Store, b: Block)
    ensures InsertAtTip(s, b).Ok? ==> OnlyAnnounces(s.db, InsertAtTip(s, b).value.db)
  {
    hide OnlyAnnounces, CommitAll, HashByHeight, TxCount;
    assert s.db.events + Pushes([]) == s.db.events;
    Announces(s.db, s.db, []);
    if b.height < s.count {
      CommitAllAnnounces(s.db, FlushBatch(s).flight);
    } else if b.height == s.count {
      CommitAllAnnounces(s.db, FlushBatch(Added(s, b)).flight);
    }
  }

  /** The events of one insert, whatever it is. */
  lemma InsertLog(s: Store, c: seq<BlockId>, b: Block, f: nat)
    requires Inv(s, c) && Fits(c, b) && IsFork(Live(s), Insert(c, b), f)
    ensures InsertBlock(s, b).Ok?
    ensures var t := InsertBlock(s, b).value;
      if InReorg(s) && b.height == s.count then
        t.db.events == s.db.events + Undo(Live(s), f) + Pushes(Insert(c, b)[f..])
      else
        && Visible(s.db) <= Visible(t.db)
        && t.db.events == s.db.events + Pushes(Visible(t.db)[|Visible(s.db)|..])
  {
    hide Inv, DbInv, IsChain, PendingIs, Live, Visible, FinishReorg, InsertAtTip, Below, OnlyAnnounces, Fits, IsFork, Undo;
    InsertRefines(s, c, b);
    var t := InsertBlock(s, b).value;
    Committed(s, c);
    Committed(t, Insert(c, b));
    if InReorg(s) && b.height == s.count {
      ReorgLogOf(s, c, b, f);
    } else {
      if InReorg(s) {
        assert s.db.events + Pushes([]) == s.db.events;
        Announces(s.db, t.db, []);
      } else {
        AtTipAnnounces(s, b);
      }
      AnnouncedIsVisible(s.db, t.db);
    }
  }

  lemma Committed(s: Store, c: seq<BlockId>)
    requires Inv(s, c)
    ensures DbInv(s.db) && IsChain(c) && s.count == |Live(s)|
    ensures InReorg(s) ==> s.flight == [] && s.batch == [] && Live(s) == Visible(s.db)
  {
    hide DbInv, IsChain, PendingIs, Visible;
  }

  lemma ReorgLogOf(s: Store, c: seq<BlockId>, b: Block, f: nat)
    requires Inv(s, c) && InReorg(s) && Fits(c, b) && b.height == s.count && IsFork(Live(s), Insert(c, b), f)
    ensures InsertBlock(s, b).Ok?
    ensures InsertBlock(s, b).value.db.events == s.db.events + Undo(Live(s), f) + Pushes(Insert(c, b)[f..])
  {
    hide DbInv, IsChain, PendingIs, Visible, FinishReorg, Below, Fits, IsFork, Undo;
    Committed(s, c);
    InsertKeepsChain(c, b);
    var lo: nat :| PendingIs(s, c, lo);
    assert b.height <= |c| by {
      InsertRefines(s, c, b);
      FitsLow(c, b);
    }
    CutPending(s, c, b, lo);
    var cut := s.(pending := Below(s.pending, b.height)[b.height := b]);
    FinishLog(cut, Insert(c, b), if b.height < lo then b.height else lo, f);
  }

  lemma FitsLow(c: seq<BlockId>, b: Block)
    requires Fits(c, b)
    ensures b.height <= |c|
  {
  }

  /** A received branch that continues the live chain reverts nothing. */
  lemma NothingToUndo(d: seq<BlockId>, c: seq<BlockId>)
    requires d <= c
    ensures IsFork(d, c, |d|) && Undo(d, |d|) == []
  {
  }

  /** A commit of the pipeline announces its batch. */
  lemma CommitLog(s: Store)
    requires s.flight != []
    ensures CommitOne(s).db.events == s.db.events + Pushes(Ids(s.flight[0]))
  {
    AppendEvents(s.db, s.flight[0]);
  }
}
