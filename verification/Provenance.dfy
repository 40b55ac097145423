/** Where delivered blocks come from.  The fetcher invents nothing: right after each delivery
    the folded output is a prefix of a chain the node really had, and so everything the store
    ever keeps comes from the node. */
module Provenance {
  import opened Chain
  import D = Database
  import S = StoreSpec
  import SP = StoreProofs
  import SR = StoreRuns
  import P = PrefetchSpec
  import PS = PrefetchSafety
  import opened Indexer

  /** The chains the node has had so far. */
  type History = set<seq<BlockId>>

  ghost predicate Had(hist: History, h: nat, id: BlockId) {
    exists c :: c in hist && h < |c| && c[h] == id
  }

  ghost predicate PrefixOfSome(hist: History, f: seq<BlockId>) {
    exists c :: c in hist && f <= c
  }

  /** Everything on its way was read from the node. */
  ghost predicate ItemsFromNode(p: P.Pre, hist: History) {
    && p.node in hist
    && (forall h | h in p.early :: Had(hist, h, p.early[h]))
    && (forall b | b in p.chan :: Had(hist, b.height, b.id))
    && (forall x | x in p.workers && (x.HasId? || x.Ready?) :: Had(hist, x.h, x.id))
  }

  /** After each of the deliveries the folded output was a chain of the node, or the lower part
      of one. */
  ghost predicate OutFromNode(base: seq<BlockId>, out: seq<Block>, hist: History) {
    forall n | 0 < n <= |out| :: PrefixOfSome(hist, P.Folded(base, out[..n]))
  }

  ghost predicate FromNode(p: P.Pre, base: seq<BlockId>, hist: History) {
    && (forall c | c in hist :: IsChain(c))
    && ItemsFromNode(p, hist)
    && OutFromNode(base, p.out, hist)
  }

  function Later(hist: History, l: P.Label): History {
    if l.NodeMoves? then hist + {l.chain} else hist
  }

  lemma HistoryGrows(p: P.Pre, base: seq<BlockId>, hist: History, more: History)
    requires FromNode(p, base, hist) && hist <= more && forall c | c in more :: IsChain(c)
    ensures FromNode(p, base, more)
  {
    hide IsChain, P.Folded;
    forall h, id | Had(hist, h, id) ensures Had(more, h, id) {
    }
    forall f | PrefixOfSome(hist, f) ensures PrefixOfSome(more, f) {
    }
  }

  lemma WorkerFromNode(p: P.Pre, hist: History, l: P.Label)
    requires ItemsFromNode(p, hist) && P.Enabled(p, l) && PS.WorkerLabel(l)
    ensures ItemsFromNode(P.Step(p, l), hist) && P.Step(p, l).out == p.out
  {
    hide Had;
    var q := P.Step(p, l);
    PS.UpdateMembers(p.workers, l.w, q.workers[l.w]);
    assert p.workers[l.w] in p.workers;
    if l.AskId? && p.workers[l.w].h < |p.node| {
      ReadFromNode(hist, p.node, p.workers[l.w].h);
    }
  }

  lemma ReadFromNode(hist: History, node: seq<BlockId>, h: nat)
    requires node in hist && h < |node|
    ensures Had(hist, h, node[h])
  {
  }

  /** A linked chain whose top the node had is the lower part of a chain of the node. */
  lemma DeliveredFromNode(hist: History, f: seq<BlockId>, h: nat)
    requires (forall c | c in hist :: IsChain(c)) && IsChain(f) && |f| == h + 1 && Had(hist, h, f[h])
    ensures PrefixOfSome(hist, f)
  {
    hide IsChain;
    var c :| c in hist && h < |c| && c[h] == f[h];
    SharedBlock(f, c, h, h);
    assert f[..h + 1] == f;
  }

  lemma JudgeFromNode(q: P.Pre, base: seq<BlockId>, hist: History, id: BlockId)
    requires FromNode(q, base, hist) && Had(hist, q.cur, id)
    requires P.Inv(P.Judge(q, id), base)
    ensures FromNode(P.Judge(q, id), base, hist)
  {
    hide IsChain, Had, PrefixOfSome, ItemsFromNode, OutFromNode, P.Judge, P.Inv;
    var r := P.Judge(q, id);
    Judging(q, id);
    SameItemsFromNode(q, r, hist);
    if r.out != q.out {
      Delivery(q.out, base, hist, q.cur, id, r);
    }
  }

  lemma Judging(q: P.Pre, id: BlockId)
    ensures var r := P.Judge(q, id);
      && r.node == q.node && r.early == q.early && r.chan == q.chan && r.workers == q.workers
      && (r.out == q.out || r.out == q.out + [Block(q.cur, id)])
  {
    hide P.Track;
  }

  lemma SameItemsFromNode(q: P.Pre, r: P.Pre, hist: History)
    requires r.node == q.node && r.early == q.early && r.chan == q.chan && r.workers == q.workers
    ensures ItemsFromNode(q, hist) == ItemsFromNode(r, hist)
  {
    hide Had;
  }

  lemma Delivery(out: seq<Block>, base: seq<BlockId>, hist: History, cur: nat, id: BlockId, r: P.Pre)
    requires (forall c | c in hist :: IsChain(c)) && OutFromNode(base, out, hist) && Had(hist, cur, id)
    requires r.out == out + [Block(cur, id)] && P.Inv(r, base)
    ensures OutFromNode(base, r.out, hist)
  {
    hide IsChain, Had, PrefixOfSome, P.RealItems, P.WindowOk, P.PhaseOk;
    assert r.out[..|out|] == out && r.out[..|r.out|] == r.out;
    assert forall n | 0 <= n <= |out| :: r.out[..n] == out[..n];
    var f := P.Folded(base, r.out);
    assert f == Insert(P.Folded(base, out), Block(cur, id));
    DeliveredFromNode(hist, f, cur);
  }

  lemma TakenFromNode(p: P.Pre, hist: History)
    requires ItemsFromNode(p, hist)
    ensures p.cur in p.early ==> ItemsFromNode(p.(early := p.early - {p.cur}), hist) && Had(hist, p.cur, p.early[p.cur])
    ensures p.chan != [] ==> ItemsFromNode(p.(chan := p.chan[1..]), hist) && Had(hist, p.chan[0].height, p.chan[0].id)
  {
    hide Had;
    if p.chan != [] {
      assert p.chan[0] in p.chan;
      assert forall b | b in p.chan[1..] :: b in p.chan;
    }
  }

  /** One step: what the node moves to joins the history, and nothing else is ever delivered. */
  lemma StepFromNode(p: P.Pre, base: seq<BlockId>, hist: History, l: P.Label)
    requires P.Inv(p, base) && FromNode(p, base, hist) && P.Enabled(p, l) && (l.NodeMoves? ==> IsChain(l.chain))
    ensures FromNode(P.Step(p, l), base, Later(hist, l))
  {
    hide IsChain, P.Inv, Had, OutFromNode, P.Judge;
    PS.StepKeeps(p, base, l);
    if PS.WorkerLabel(l) {
      WorkerFromNode(p, hist, l);
    } else if l.NodeMoves? {
      HistoryGrows(p, base, hist, hist + {l.chain});
    } else {
      TakenFromNode(p, hist);
      if l.TakeEarly? {
        JudgeFromNode(p.(early := p.early - {p.cur}), base, hist, p.early[p.cur]);
      } else if l.Receive? && p.chan[0].height == p.cur {
        JudgeFromNode(p.(chan := p.chan[1..]), base, hist, p.chan[0].id);
      }
    }
  }

  function Shows(hist: History, ls: seq<P.Label>): History {
    if ls == [] then hist else Later(Shows(hist, ls[..|ls| - 1]), ls[|ls| - 1])
  }

  lemma NewFromNode(node: seq<BlockId>, last: Option<Block>, threads: nat, fastEnd: nat)
    requires IsChain(node)
    ensures FromNode(P.New(node, last, threads, fastEnd), P.Base(last), {node})
  {
    hide IsChain;
  }

  lemma {:induction false} RunFromNode(p: P.Pre, base: seq<BlockId>, hist: History, ls: seq<P.Label>)
    requires P.Inv(p, base) && FromNode(p, base, hist) && PS.NodeIsSane(ls)
    ensures P.Inv(PS.Run(p, ls), base) && FromNode(PS.Run(p, ls), base, Shows(hist, ls))
  {
    hide P.Inv, FromNode, P.Step, P.Enabled, IsChain;
    if ls != [] {
      var init, last := ls[..|ls| - 1], ls[|ls| - 1];
      RunFromNode(p, base, hist, init);
      var q, shown := PS.Run(p, init), Shows(hist, init);
      if P.Enabled(q, last) {
        PS.StepKeeps(q, base, last);
        StepFromNode(q, base, shown, last);
      } else {
        NodeAlwaysMoves(q, last);
      }
    }
  }

  lemma NodeAlwaysMoves(p: P.Pre, l: P.Label)
    requires !P.Enabled(p, l)
    ensures !l.NodeMoves?
  {
  }

  /** For every schedule of the node and every interleaving: right after each delivery the
      deliveries fold to a chain that the node had at some time, or to the lower part of one. */
  lemma DeliversTheNodesChains(node: seq<BlockId>, last: Option<Block>, threads: nat, fastEnd: nat, ls: seq<P.Label>, n: nat)
    requires IsChain(node) && threads > 0 && (last.Some? ==> Genuine(last.value)) && PS.NodeIsSane(ls)
    requires 0 < n <= |PS.Run(P.New(node, last, threads, fastEnd), ls).out|
    ensures var p := PS.Run(P.New(node, last, threads, fastEnd), ls);
      PrefixOfSome(Shows({node}, ls), P.Folded(P.Base(last), p.out[..n]))
  {
    hide IsChain, P.New, PS.Run, P.Inv, P.Folded, ItemsFromNode, PrefixOfSome;
    PS.NewInv(node, last, threads, fastEnd);
    NewFromNode(node, last, threads, fastEnd);
    RunFromNode(P.New(node, last, threads, fastEnd), P.Base(last), {node}, ls);
  }

  // ---------------------------------------------------------------- the whole program

  function SystemShows(hist: History, ls: seq<Label>): History {
    if ls == [] then hist
    else
      var before := SystemShows(hist, ls[..|ls| - 1]);
      if ls[|ls| - 1].Fetch? then Later(before, ls[|ls| - 1].l) else before
  }

  lemma {:induction false} SystemFromNode(s: System, base: seq<BlockId>, d: seq<BlockId>, hist: History, ls: seq<Label>)
    requires Inv(s, base, d) && FromNode(s.fetch, base, hist) && NodeIsSane(ls)
    ensures Inv(Run(s, ls), base, d) && FromNode(Run(s, ls).fetch, base, SystemShows(hist, ls))
  {
    hide Inv, FromNode, IsChain, P.Step, P.Enabled, S.InsertBlock, S.CommitOne;
    if ls != [] {
      var init, last := ls[..|ls| - 1], ls[|ls| - 1];
      SystemFromNode(s, base, d, hist, init);
      var q, shown := Run(s, init), SystemShows(hist, init);
      if Enabled(q, last) {
        StepKeeps(q, base, d, last);
      }
      if last.Fetch? {
        if Enabled(q, last) {
          FetchInv(q, base, d);
          StepFromNode(q.fetch, base, shown, last.l);
        } else if last.l.NodeMoves? {
          MovesAnyway(q.fetch, last.l);
        }
      }
    }
  }

  lemma FetchInv(s: System, base: seq<BlockId>, d: seq<BlockId>)
    requires Inv(s, base, d)
    ensures P.Inv(s.fetch, base)
  {
    hide P.Inv, S.Inv, Best, S.Live, S.Visible;
  }

  lemma MovesAnyway(p: P.Pre, l: P.Label)
    requires l.NodeMoves?
    ensures P.Enabled(p, l)
  {
  }

  lemma {:induction false} BestFromNode(d: seq<BlockId>, base: seq<BlockId>, out: seq<Block>, n: nat, hist: History)
    requires OutFromNode(base, out, hist) && n <= |out|
    ensures Best(d, base, out[..n]) == d || PrefixOfSome(hist, Best(d, base, out[..n]))
  {
    hide P.Folded, PrefixOfSome;
    if n > 0 {
      assert out[..n][..n - 1] == out[..n - 1];
      BestFromNode(d, base, out, n - 1, hist);
    }
  }

  lemma PrefixAgain(hist: History, f: seq<BlockId>, g: seq<BlockId>)
    requires f <= g && PrefixOfSome(hist, g)
    ensures PrefixOfSome(hist, f)
  {
  }

  /** At any moment of a run the live chain is the one found at the start, or a chain the node
      had, or the lower part of one; the visible chain is the lower part of the live one. */
  lemma LiveFromNode(s: System, base: seq<BlockId>, d: seq<BlockId>, hist: History)
    requires Inv(s, base, d) && FromNode(s.fetch, base, hist)
    ensures s.store.Ok?
    ensures var live := S.Live(s.store.value);
      && (live == d || PrefixOfSome(hist, live))
      && S.Visible(s.store.value.db) <= live
  {
    hide P.Inv, S.Inv, Best, S.Live, S.Visible, P.Folded, ItemsFromNode, PrefixOfSome, IsChain, OutFromNode;
    BestFromNode(d, base, s.fetch.out, s.done, hist);
    SP.VisibleGrows(s.store.value, P.Folded(base, s.fetch.out[..s.done]));
  }

  function LifeShows(life: Life): History {
    SystemShows({life.node}, life.labels)
  }

  function LivesShow(lives: seq<Life>): History {
    if lives == [] then {} else LivesShow(lives[..|lives| - 1]) + LifeShows(lives[|lives| - 1])
  }

  lemma StartFromNode(db: D.Db, life: Life)
    requires S.DbInv(db) && Sane(life)
    requires Start(db, life.mode, life.head, life.node, life.threads, life.fastEnd).Some?
    ensures var s, d := Start(db, life.mode, life.head, life.node, life.threads, life.fastEnd).value, S.Visible(db);
      Inv(s, StartBase(d), d) && FromNode(s.fetch, StartBase(d), {life.node})
  {
    hide S.DbInv, IsChain, Start, S.Visible, Inv, S.Live, FromNode, P.New;
    var d := S.Visible(db);
    StartKeeps(db, life.mode, life.head, life.node, life.threads, life.fastEnd);
    VisibleIsChain(db);
    if d == [] {
      NewFromNode(life.node, None, life.threads, life.fastEnd);
      assert P.Base(None) == StartBase(d);
    } else {
      var h := StartHeight(|d|);
      ChainPrefix(d, h + 1);
      NewFromNode(life.node, Some(Block(h, d[h])), life.threads, life.fastEnd);
    }
  }

  /** What a life leaves visible was visible before or is of a chain the node had meanwhile. */
  lemma LifeFromNode(db: D.Db, life: Life)
    requires S.DbInv(db) && Sane(life)
    ensures Outlived(db, life).Some?
    ensures var v := S.Visible(Outlived(db, life).value);
      v <= S.Visible(db) || PrefixOfSome(LifeShows(life), v)
  {
    hide S.DbInv, IsChain, Start, Run, S.Visible, Inv, FromNode, PrefixOfSome, S.Live, SystemShows;
    OneLife(db, life);
    match Start(db, life.mode, life.head, life.node, life.threads, life.fastEnd)
    case None =>
    case Some(s) =>
      var d := S.Visible(db);
      StartFromNode(db, life);
      SystemFromNode(s, StartBase(d), d, {life.node}, life.labels);
      var t := Run(s, life.labels);
      LiveFromNode(t, StartBase(d), d, LifeShows(life));
      if S.Live(t.store.value) != d {
        PrefixAgain(LifeShows(life), S.Visible(t.store.value.db), S.Live(t.store.value));
      }
  }

  /** From the empty database, through any crashes and restarts: the visible chain is empty, or
      a chain the node had in some life, or the lower part of one. */
  lemma {:induction false} DatabaseFromNode(lives: seq<Life>)
    requires forall life | life in lives :: Sane(life)
    ensures AfterLives(D.EMPTY, lives).Some?
    ensures var v := S.Visible(AfterLives(D.EMPTY, lives).value);
      v == [] || PrefixOfSome(LivesShow(lives), v)
  {
    hide S.DbInv, Sane, Outlived, S.Visible, PrefixOfSome, LifeShows;
    ManyLives(lives, 0);
    if lives == [] {
      SR.EmptyDbCommitted();
    } else {
      var init, last := lives[..|lives| - 1], lives[|lives| - 1];
      DatabaseFromNode(init);
      ManyLives(init, 0);
      var before := AfterLives(D.EMPTY, init).value;
      LifeFromNode(before, last);
      var v := S.Visible(AfterLives(D.EMPTY, lives).value);
      MoreChains(LivesShow(init), LifeShows(last), v);
      if v <= S.Visible(before) && S.Visible(before) != [] {
        PrefixAgain(LivesShow(init), v, S.Visible(before));
      }
    }
  }

  lemma MoreChains(a: History, b: History, f: seq<BlockId>)
    ensures PrefixOfSome(a, f) || PrefixOfSome(b, f) ==> PrefixOfSome(a + b, f)
  {
  }
}
