/** The whole program: the fetcher delivers blocks, the main loop inserts them into the store,
    the store's pipeline commits them; the program may die at any moment and is started again
    on what the database then holds. */
module Indexer {
  import opened Chain
  import D = Database
  import S = StoreSpec
  import SP = StoreProofs
  import SR = StoreRuns
  import P = PrefetchSpec
  import PS = PrefetchSafety
  import PL = PrefetchLive
  import Store

  /** So many blocks are fetched again after a restart, in case there was a reorg. */
  const REDO: nat := 100

  function StartHeight(count: nat): nat
    requires count > 0
  {
    if count - 1 > REDO then count - 1 - REDO else 0
  }

  /** What the store counts as received before the first block arrives. */
  function StartBase(d: seq<BlockId>): seq<BlockId> {
    if d == [] then [] else d[..StartHeight(|d|) + 1]
  }

  /** The longest chain the deliveries ever showed, `d` unless one is longer. */
  function Best(d: seq<BlockId>, base: seq<BlockId>, out: seq<Block>): seq<BlockId> {
    if out == [] then d
    else S.Longer(Best(d, base, out[..|out| - 1]), P.Folded(base, out))
  }

  // ---------------------------------------------------------------- the main loop

  datatype StartPoint = NodeBehind | After(last: Option<Block>)

  /** Where to fetch from.  `NodeBehind` is the failed assertion on the node's height. */
  method FindStart(db: Store.IndexerStore, head: nat) returns (r: StartPoint)
    requires db.Valid()
    modifies db
    ensures db.Valid() && db.received == old(db.received) && S.Live(db.View()) == old(S.Live(db.View()))
    ensures var d := S.Live(db.View());
      if |d| > head + 1 then r == NodeBehind
      else if d == [] then r == After(None)
      else
        var h := StartHeight(|d|);
        r == After(Some(Block(h, if h < |db.received| then db.received[h] else d[h])))
    ensures var d := S.Live(db.View());
      d != [] && |d| <= head + 1 ==>
        r.After? && r.last.Some? && r.last.value.height == if |d| > 101 then |d| - 101 else 0
  {
    hide S.Inv, S.Live, S.GetHash, IdSet;
    CountIsLive(db.View(), db.received);
    SR.GetHashMeaning(db.View(), db.received, if db.count == 0 then 0 else StartHeight(db.count));
    var last := db.GetHeadHeight();
    if last.None? {
      return After(None);
    }
    if last.value > head {
      return NodeBehind;
    }
    var start: nat := if last.value > REDO then last.value - REDO else 0;
    var id := db.GetHashByHeight(start);
    r := After(Some(Block(start, id.value)));
  }

  lemma CountIsLive(s: S.Store, c: seq<BlockId>)
    requires S.Inv(s, c)
    ensures s.count == |S.Live(s)|
  {
    hide S.DbInv, IsChain, S.PendingIs, S.Live;
  }

  /** Inserting whatever the fetcher delivers.  `items` are the deliveries up to some moment. */
  method ProcessBlocks(db: Store.IndexerStore, items: seq<Block>)
    requires db.Valid() && P.AllFit(db.received, items)
    modifies db
    ensures db.Valid()
    ensures db.received == P.Folded(old(db.received), items)
    ensures S.Live(db.View()) == Best(old(S.Live(db.View())), old(db.received), items)
  {
    ghost var base, d := db.received, S.Live(db.View());
    assert items[..0] == [];
    for i := 0 to |items|
      invariant db.Valid() && db.received == P.Folded(base, items[..i])
      invariant S.Live(db.View()) == Best(d, base, items[..i])
    {
      FitsAt(base, items, i);
      SP.InsertRefines(db.View(), db.received, items[i]);
      OneMore(d, base, items, i);
      db.Insert(items[i]);
    }
    assert items[..|items|] == items;
  }

  lemma {:induction false} FitsAt(base: seq<BlockId>, out: seq<Block>, i: nat)
    requires P.AllFit(base, out) && i < |out|
    ensures Fits(P.Folded(base, out[..i]), out[i])
    decreases |out|
  {
    hide Fits, P.Folded;
    if i < |out| - 1 {
      var init := out[..|out| - 1];
      FitsAt(base, init, i);
      assert init[..i] == out[..i] && init[i] == out[i];
    }
  }

  /** Delivering one more fitting block. */
  lemma OneMore(d: seq<BlockId>, base: seq<BlockId>, out: seq<Block>, i: nat)
    requires i < |out| && Fits(P.Folded(base, out[..i]), out[i])
    ensures P.Folded(base, out[..i + 1]) == Insert(P.Folded(base, out[..i]), out[i])
    ensures Best(d, base, out[..i + 1]) ==
      S.Longer(Best(d, base, out[..i]), Insert(P.Folded(base, out[..i]), out[i]))
  {
    var more := out[..i + 1];
    assert more[..|more| - 1] == out[..i];
  }

  // ---------------------------------------------------------------- the composed machine

  /** `done` counts the delivered blocks the main loop has inserted. */
  datatype System = System(fetch: P.Pre, store: S.Result<S.Store>, done: nat)

  datatype Label = Fetch(l: P.Label) | InsertNext | Commit

  /** The main loop asks for the next block only after inserting the previous one. */
  predicate Enabled(s: System, l: Label) {
    match l
    case Fetch(f) => P.Enabled(s.fetch, f) && (f.Enter? ==> s.done == |s.fetch.out|)
    case InsertNext => s.store.Ok? && s.done < |s.fetch.out|
    case Commit => s.store.Ok?
  }

  ghost function Step(s: System, l: Label): System
    requires Enabled(s, l)
  {
    match l
    case Fetch(f) => s.(fetch := P.Step(s.fetch, f))
    case InsertNext => s.(store := S.InsertBlock(s.store.value, s.fetch.out[s.done]), done := s.done + 1)
    case Commit => s.(store := S.Ok(S.CommitOne(s.store.value)))
  }

  /** Starting on a database; None is a failed assertion of the start-up code. */
  ghost function Start(db: D.Db, mode: S.Mode, head: nat, node: seq<BlockId>, threads: nat, fastEnd: nat): Option<System> {
    match SR.Open(db, mode, head)
    case None => None
    case Some(store) =>
      if store.count == 0 then Some(System(P.New(node, None, threads, fastEnd), S.Ok(store), 0))
      else if store.count - 1 > head then None
      else
        var h := StartHeight(store.count);
        var (asked, id) := S.GetHash(store, h);
        if id.None? then None
        else Some(System(P.New(node, Some(Block(h, id.value)), threads, fastEnd), S.Ok(asked), 0))
  }

  /** `d` is the chain found in the database at the start. */
  ghost predicate Inv(s: System, base: seq<BlockId>, d: seq<BlockId>) {
    && P.Inv(s.fetch, base)
    && s.done <= |s.fetch.out|
    && s.store.Ok?
    && S.Inv(s.store.value, P.Folded(base, s.fetch.out[..s.done]))
    && S.Live(s.store.value) == Best(d, base, s.fetch.out[..s.done])
    && |d| <= |S.Visible(s.store.value.db)|
    && (s.store.value.mode == S.Normal ==> s.store.value.batch == [])
  }

  /** The start rule meets the store's demand: what the fetcher was told to continue from is
      what the store counts as received. */
  lemma StartKeeps(db: D.Db, mode: S.Mode, head: nat, node: seq<BlockId>, threads: nat, fastEnd: nat)
    requires S.DbInv(db) && IsChain(node) && threads > 0
    ensures var d := S.Visible(db);
      match Start(db, mode, head, node, threads, fastEnd)
      case None => |d| > head + 1
      case Some(s) =>
        && |d| <= head + 1
        && Inv(s, StartBase(d), d)
        && S.Live(s.store.value) == d
        && s.fetch.cur == (if d == [] then 0 else if |d| > 101 then |d| - 100 else 1)
        && (if d == [] then s.fetch == P.New(node, None, threads, fastEnd)
            else var h := StartHeight(|d|); s.fetch == P.New(node, Some(Block(h, d[h])), threads, fastEnd))
  {
    hide S.DbInv, SR.Open, IsChain, Inv, S.Live, S.Visible, S.GetHash, P.New;
    var d := S.Visible(db);
    OpenShape(db, mode, head);
    if d == [] {
      StartsEmpty(db, mode, head, node, threads, fastEnd);
      NewHasNothing(node, None, threads, fastEnd);
    } else if |d| <= head + 1 {
      StartsAgain(db, mode, head, node, threads, fastEnd);
      NewHasNothing(node, Some(Block(StartHeight(|d|), d[StartHeight(|d|)])), threads, fastEnd);
    }
  }

  lemma StartsEmpty(db: D.Db, mode: S.Mode, head: nat, node: seq<BlockId>, threads: nat, fastEnd: nat)
    requires S.DbInv(db) && IsChain(node) && threads > 0 && S.Visible(db) == [] && SR.Open(db, mode, head).Some?
    ensures var store := SR.Open(db, mode, head).value;
      Inv(System(P.New(node, None, threads, fastEnd), S.Ok(store), 0), [], []) && S.Live(store) == []
  {
    hide S.DbInv, SR.Open, IsChain, P.Inv, S.Inv, S.Live, P.Folded, S.Visible;
    SR.OpenCommitted(db, mode, head, 0);
    OpenShape(db, mode, head);
    PS.NewInv(node, None, threads, fastEnd);
    assert P.Base(None) == [];
    NothingYet([], []);
  }

  lemma StartsAgain(db: D.Db, mode: S.Mode, head: nat, node: seq<BlockId>, threads: nat, fastEnd: nat)
    requires S.DbInv(db) && IsChain(node) && threads > 0 && S.Visible(db) != [] && SR.Open(db, mode, head).Some?
    ensures var d, store := S.Visible(db), SR.Open(db, mode, head).value;
      var h := StartHeight(|d|);
      && S.GetHash(store, h) == (store, Some(d[h])) && S.Live(store) == d
      && Inv(System(P.New(node, Some(Block(h, d[h])), threads, fastEnd), S.Ok(store), 0), StartBase(d), d)
  {
    hide S.DbInv, SR.Open, IsChain, P.Inv, S.Inv, S.Live, P.Folded, S.Visible, S.GetHash, P.New, Best;
    var d := S.Visible(db);
    var h := StartHeight(|d|);
    SR.OpenCommitted(db, mode, head, h + 1);
    OpenShape(db, mode, head);
    var store := SR.Open(db, mode, head).value;
    SR.GetHashMeaning(store, d[..h + 1], h);
    GetHashShape(store, h);
    VisibleIsChain(db);
    ChainHeight(d, h);
    ChainPrefix(d, h + 1);
    var last := Some(Block(h, d[h]));
    PS.NewInv(node, last, threads, fastEnd);
    assert P.Base(last) == StartBase(d);
    NothingYet(StartBase(d), d);
    NewHasNothing(node, last, threads, fastEnd);
  }

  lemma NewHasNothing(node: seq<BlockId>, last: Option<Block>, threads: nat, fastEnd: nat)
    ensures var p := P.New(node, last, threads, fastEnd);
      p.out == [] && p.cur == if last.Some? then last.value.height + 1 else 0
  {
  }

  lemma NothingYet(base: seq<BlockId>, d: seq<BlockId>)
    ensures P.Folded(base, []) == base && Best(d, base, []) == d
  {
  }

  lemma VisibleIsChain(db: D.Db)
    requires S.DbInv(db)
    ensures IsChain(S.Visible(db))
  {
    hide IsChain, D.Holds, D.AncestorClosed, D.TablesFaithful;
  }

  lemma OpenShape(db: D.Db, mode: S.Mode, head: nat)
    requires S.DbInv(db)
    ensures SR.Open(db, mode, head).Some?
    ensures var s := SR.Open(db, mode, head).value;
      s.count == |S.Visible(db)| && s.flight == [] && s.batch == [] && s.pending == map[] && s.db == db
  {
    SP.CountIs(db.rows, S.Visible(db));
    SR.LiveCountIs(db.rows, S.Visible(db));
  }

  lemma GetHashShape(s: S.Store, h: nat)
    requires s.flight == [] && s.batch == []
    ensures S.GetHash(s, h).0 == s
  {
  }

  // ---------------------------------------------------------------- every step

  /** A step of the fetcher delivers at most one block. */
  lemma OutGrows(p: P.Pre, l: P.Label)
    requires P.Enabled(p, l)
    ensures var q := P.Step(p, l);
      |p.out| <= |q.out| <= |p.out| + 1 && q.out[..|p.out|] == p.out
    ensures PL.Polling(p, l) ==> P.Step(p, l).out == p.out
    ensures !l.NodeMoves? ==> P.Step(p, l).node == p.node
  {
    hide P.Track;
  }

  lemma NormalIsFlushed(s: S.Store, c: seq<BlockId>, b: Block)
    requires S.Inv(s, c) && (s.mode == S.Normal ==> s.batch == []) && S.InsertBlock(s, b).Ok?
    ensures var t := S.InsertBlock(s, b).value; t.mode == S.Normal ==> t.batch == []
  {
    hide S.DbInv, IsChain, S.PendingIs, S.Live, S.Settle, S.FirstDifferent, D.Reverts, D.MarkExtinct, D.AppendBlocks, S.CommitAll;
  }

  lemma FetchKeeps(s: System, base: seq<BlockId>, d: seq<BlockId>, f: P.Label)
    requires Inv(s, base, d) && Enabled(s, Fetch(f)) && (f.NodeMoves? ==> IsChain(f.chain))
    ensures Inv(Step(s, Fetch(f)), base, d)
  {
    hide P.Inv, S.Inv, P.Enabled, P.Step, S.Live, P.Folded, S.Visible, IsChain;
    PS.StepKeeps(s.fetch, base, f);
    OutGrows(s.fetch, f);
    assert P.Step(s.fetch, f).out[..s.done] == s.fetch.out[..s.done] by {
      assert P.Step(s.fetch, f).out[..|s.fetch.out|][..s.done] == P.Step(s.fetch, f).out[..s.done];
    }
  }

  lemma InsertNextKeeps(s: System, base: seq<BlockId>, d: seq<BlockId>)
    requires Inv(s, base, d) && Enabled(s, InsertNext)
    ensures Inv(Step(s, InsertNext), base, d)
  {
    hide S.Inv, S.Live, P.Folded, S.Visible, S.InsertBlock, Fits, P.Inv;
    var c := P.Folded(base, s.fetch.out[..s.done]);
    AllOutFits(s.fetch, base);
    FitsAt(base, s.fetch.out, s.done);
    OneMore(d, base, s.fetch.out, s.done);
    SP.InsertRefines(s.store.value, c, s.fetch.out[s.done]);
    NormalIsFlushed(s.store.value, c, s.fetch.out[s.done]);
  }

  lemma AllOutFits(p: P.Pre, base: seq<BlockId>)
    requires P.Inv(p, base)
    ensures P.AllFit(base, p.out)
  {
    hide IsChain, P.AllFit, P.RealItems, P.WindowOk, P.PhaseOk, P.Folded;
  }

  lemma CommitKeeps(s: System, base: seq<BlockId>, d: seq<BlockId>)
    requires Inv(s, base, d)
    ensures Inv(Step(s, Commit), base, d)
    ensures S.CommitOne(s.store.value).mode == s.store.value.mode
  {
    hide S.Inv, S.Live, P.Folded, S.Visible, P.Inv;
    SP.CommitOneKeeps(s.store.value, P.Folded(base, s.fetch.out[..s.done]));
  }

  lemma StepKeeps(s: System, base: seq<BlockId>, d: seq<BlockId>, l: Label)
    requires Inv(s, base, d) && Enabled(s, l) && (l.Fetch? && l.l.NodeMoves? ==> IsChain(l.l.chain))
    ensures Inv(Step(s, l), base, d)
  {
    hide Inv, Step, IsChain;
    match l
    case Fetch(f) => FetchKeeps(s, base, d, f);
    case InsertNext => InsertNextKeeps(s, base, d);
    case Commit => CommitKeeps(s, base, d);
  }

  /** A run; a label that is not enabled does nothing. */
  ghost function Run(s: System, ls: seq<Label>): System {
    if ls == [] then s
    else
      var t := Run(s, ls[..|ls| - 1]);
      if Enabled(t, ls[|ls| - 1]) then Step(t, ls[|ls| - 1]) else t
  }

  /** The node only ever has hash-linked chains. */
  ghost predicate NodeIsSane(ls: seq<Label>) {
    forall i | 0 <= i < |ls| && ls[i].Fetch? && ls[i].l.NodeMoves? :: IsChain(ls[i].l.chain)
  }

  lemma {:induction false} RunKeeps(s: System, base: seq<BlockId>, d: seq<BlockId>, ls: seq<Label>)
    requires Inv(s, base, d) && NodeIsSane(ls)
    ensures Inv(Run(s, ls), base, d)
  {
    hide Inv, Step, Enabled, IsChain;
    if ls != [] {
      RunKeeps(s, base, d, ls[..|ls| - 1]);
      if Enabled(Run(s, ls[..|ls| - 1]), ls[|ls| - 1]) {
        StepKeeps(Run(s, ls[..|ls| - 1]), base, d, ls[|ls| - 1]);
      }
    }
  }

  /** The main thread takes one block at a time: while the fetcher is at work everything
      delivered is inserted, and otherwise at most one block is not. */
  predicate OneAtATime(s: System) {
    && s.done <= |s.fetch.out| <= s.done + 1
    && (!s.fetch.phase.Entry? ==> s.done == |s.fetch.out|)
  }

  lemma StepOneAtATime(s: System, l: Label)
    requires OneAtATime(s) && Enabled(s, l)
    ensures OneAtATime(Step(s, l))
  {
    hide P.Track, S.InsertBlock, S.CommitOne;
  }

  /** In every run the fetcher is at most one block ahead of the store. */
  lemma {:induction false} NeverAhead(s: System, ls: seq<Label>)
    requires OneAtATime(s)
    ensures OneAtATime(Run(s, ls))
  {
    hide OneAtATime, Step, Enabled;
    if ls != [] {
      var t := Run(s, ls[..|ls| - 1]);
      NeverAhead(s, ls[..|ls| - 1]);
      if Enabled(t, ls[|ls| - 1]) {
        StepOneAtATime(t, ls[|ls| - 1]);
      }
    }
  }

  // ---------------------------------------------------------------- life after life

  /** One life of the program: what it finds at its start and all that happens until it dies. */
  datatype Life = Life(mode: S.Mode, head: nat, node: seq<BlockId>, threads: nat, fastEnd: nat, labels: seq<Label>)

  ghost predicate Sane(life: Life) {
    IsChain(life.node) && life.threads > 0 && NodeIsSane(life.labels)
  }

  /** The database a life leaves behind. */
  ghost function Outlived(db: D.Db, life: Life): Option<D.Db> {
    match Start(db, life.mode, life.head, life.node, life.threads, life.fastEnd)
    case None => Some(db)
    case Some(s) =>
      match Run(s, life.labels).store
      case Panicked(_) => None
      case Ok(store) => Some(store.db)
  }

  /** No life ends in a panic of the store; it leaves a database any later life can start on,
      in which the visible chain is not shorter than before. */
  lemma OneLife(db: D.Db, life: Life)
    requires S.DbInv(db) && Sane(life)
    ensures Outlived(db, life).Some?
    ensures var after := Outlived(db, life).value;
      S.DbInv(after) && |S.Visible(db)| <= |S.Visible(after)|
  {
    hide S.DbInv, IsChain, Start, Run, S.Visible, Inv;
    StartKeeps(db, life.mode, life.head, life.node, life.threads, life.fastEnd);
    match Start(db, life.mode, life.head, life.node, life.threads, life.fastEnd)
    case None =>
    case Some(s) =>
      var d := S.Visible(db);
      RunKeeps(s, StartBase(d), d, life.labels);
      CommittedInside(Run(s, life.labels), StartBase(d), d);
  }

  lemma CommittedInside(s: System, base: seq<BlockId>, d: seq<BlockId>)
    requires Inv(s, base, d)
    ensures s.store.Ok? && S.DbInv(s.store.value.db) && |d| <= |S.Visible(s.store.value.db)|
  {
    hide S.DbInv, IsChain, S.Visible, S.Live, S.PendingIs, P.Inv, P.Folded;
  }

  ghost function AfterLives(db: D.Db, lives: seq<Life>): Option<D.Db> {
    if lives == [] then Some(db)
    else
      match AfterLives(db, lives[..|lives| - 1])
      case None => None
      case Some(before) => Outlived(before, lives[|lives| - 1])
  }

  /** From the empty database through any number of crashes and restarts: every database is
      consistent, its event log replays to its non-extinct chain, and that chain never gets
      shorter. */
  lemma {:induction false} ManyLives(lives: seq<Life>, n: nat)
    requires (forall life | life in lives :: Sane(life)) && n <= |lives|
    ensures AfterLives(D.EMPTY, lives).Some? && S.DbInv(AfterLives(D.EMPTY, lives).value)
    ensures AfterLives(D.EMPTY, lives[..n]).Some?
    ensures |S.Visible(AfterLives(D.EMPTY, lives[..n]).value)| <= |S.Visible(AfterLives(D.EMPTY, lives).value)|
    decreases |lives|
  {
    hide S.DbInv, Sane, Outlived, S.Visible;
    if lives == [] {
      SR.EmptyDbCommitted();
      assert lives[..n] == lives;
    } else {
      var init, last := lives[..|lives| - 1], lives[|lives| - 1];
      ManyLives(init, if n < |lives| then n else 0);
      OneLife(AfterLives(D.EMPTY, init).value, last);
      if n < |lives| {
        assert init[..n] == lives[..n];
      } else {
        assert lives[..n] == lives;
      }
    }
  }
}
