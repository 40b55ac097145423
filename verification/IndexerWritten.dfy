/** When a restart ends with everything written.  Followers of the event log see the committed
    chain only, so this is the question that matters to them; the answer is exact and can be
    read off the database, the node's chain, the mode and the head height before the start. */
module IndexerWritten {
  import opened Chain
  import D = Database
  import S = StoreSpec
  import SP = StoreProofs
  import SR = StoreRuns
  import P = PrefetchSpec
  import PS = PrefetchSafety
  import PL = PrefetchLive
  import opened Indexer
  import L = IndexerLive
  import B = Buffering

  // ---------------------------------------------------------------- the fetcher on its way

  /** The first height that will be delivered. */
  function FirstHeight(base: seq<BlockId>, t: seq<BlockId>): nat {
    if base <= t then |base| else 0
  }

  /** A fetcher that started on a node that stays on `t`: it delivers the blocks of `t` one
      after the other. */
  ghost predicate Straight(p: P.Pre, base: seq<BlockId>, t: seq<BlockId>) {
    var k := FirstHeight(base, t);
    && P.Inv(p, base) && p.node == t && !p.phase.Halted? && PL.AllFresh(p)
    && k + |p.out| <= |t|
    && p.out == Blocks(t, k, k + |p.out|)
    && if p.out == [] && !(base <= t) then OtherGenesis(p, base, t)
       else P.Folded(base, p.out) == t[..k + |p.out|] && p.cur == k + |p.out| && p.phase != P.Draining(true)
  }

  /** It has yet to find out that the genesis block is another one. */
  ghost predicate OtherGenesis(p: P.Pre, base: seq<BlockId>, t: seq<BlockId>) {
    && |base| == 1 && t != [] && base[0] != t[0] && p.prev == map[0 := base[0]]
    && (p.cur == 1 || (p.cur == 0 && p.phase != P.Draining(true)))
  }

  /** On the chain of the node the next block is always accepted. */
  lemma NextIsAccepted(q: P.Pre, t: seq<BlockId>, id: BlockId)
    requires IsChain(t) && q.cur < |t| && id == t[q.cur] && P.WindowOk(q, t[..q.cur])
    ensures P.Track(q.prev, q.cur, id).Accept?
  {
    hide IsChain, P.Track, P.WindowIs;
    var f := t[..q.cur];
    ChainHeight(t, q.cur);
    ChainPrefix(t, q.cur);
    if q.prev == map[] {
      PS.TrackFirst(id);
    } else {
      var lo, hi := P.Lowest(q.prev), P.Lowest(q.prev) + |q.prev|;
      PS.TrackExact(q.prev, q.cur, f, lo, hi, id);
      NotAtBottom(q.prev, q.cur, f, lo, hi);
      assert q.cur > 0 ==> f[q.cur - 1] == t[q.cur - 1] == Top(f);
    }
  }

  lemma NotAtBottom(prev: map<nat, BlockId>, cur: nat, f: seq<BlockId>, lo: nat, hi: nat)
    requires P.WindowIs(prev, cur, f, lo, hi) && |f| == cur
    ensures lo < cur
  {
  }

  lemma MoreBlocks(t: seq<BlockId>, k: nat, n: nat)
    requires k <= n < |t|
    ensures Blocks(t, k, n + 1) == Blocks(t, k, n) + [Block(n, t[n])] && t[..n] + [t[n]] == t[..n + 1]
  {
  }

  lemma JudgeStraight(p: P.Pre, q: P.Pre, base: seq<BlockId>, t: seq<BlockId>, id: BlockId)
    requires Straight(p, base, t) && q == p.(early := q.early, chan := q.chan) && PL.AllFresh(q)
    requires PL.OnChain(t, p.cur, id) && !p.phase.Draining? && P.Inv(P.Judge(q, id), base)
    ensures Straight(P.Judge(q, id), base, t)
  {
    hide IsChain, PL.AllFresh, P.Inv, P.Track, P.WindowOk, P.Folded;
    PL.JudgeFresh(q, id, 0);
    PL.PhaseFacts(p, base);
    var k := FirstHeight(base, t);
    MoreBlocks(t, k, k + |p.out|);
    if p.out == [] && !(base <= t) {
      JudgeGenesis(q, base, t, id);
    } else {
      SameWindow(p, q, t[..p.cur]);
      NextIsAccepted(q, t, id);
      FoldNext(base, p.out, t, p.cur);
    }
  }

  lemma SameWindow(p: P.Pre, q: P.Pre, f: seq<BlockId>)
    requires P.WindowOk(p, f) && q.prev == p.prev && q.cur == p.cur
    ensures P.WindowOk(q, f)
  {
  }

  lemma FoldNext(base: seq<BlockId>, out: seq<Block>, t: seq<BlockId>, n: nat)
    requires n < |t| && P.Folded(base, out) == t[..n]
    ensures P.Folded(base, out + [Block(n, t[n])]) == t[..n + 1]
  {
    assert (out + [Block(n, t[n])])[..|out|] == out;
  }

  lemma JudgeGenesis(q: P.Pre, base: seq<BlockId>, t: seq<BlockId>, id: BlockId)
    requires OtherGenesis(q, base, t) && IsChain(t) && PL.OnChain(t, q.cur, id) && q.out == []
    ensures q.cur == 1 ==> P.Judge(q, id) == q.(phase := P.Draining(true), finish := true)
    ensures q.cur == 0 ==> var r := P.Judge(q, id);
      r.cur == 1 && r.out == [Block(0, t[0])] && r.phase.Entry? && P.Folded(base, r.out) == t[..1]
  {
    hide IsChain, P.Lowest, P.Highest;
    ChainHeight(t, q.cur);
    if q.cur == 0 {
      assert P.Advance(q.prev, 0, id) == map[0 := id];
      assert [Block(0, id)][..0] == [];
      assert P.Folded(base, [Block(0, id)]) == [id] == t[..1];
    } else {
      assert Top(t[..1]) == t[0];
    }
  }

  /** A quiet step stays on track. */
  lemma StaysStraight(p: P.Pre, base: seq<BlockId>, t: seq<BlockId>, f: P.Label)
    requires Straight(p, base, t) && P.Enabled(p, f) && PL.Quiet(f)
    ensures Straight(P.Step(p, f), base, t)
  {
    hide IsChain, P.Inv, P.Judge, PL.AllFresh, PL.StaleBelow, PL.OnChain, P.Folded, Blocks;
    PS.StepKeeps(p, base, f);
    L.FreshItems(p);
    match f
    case Enter => PL.SameItemsFresh(p, P.Step(p, f), 0);
    case Restart => RestartStraight(p, base, t);
    case Discard => PL.TailFresh(p, P.Step(p, f), 0);
    case TakeEarly => JudgeStraight(p, p.(early := p.early - {p.cur}), base, t, p.early[p.cur]);
    case Receive =>
      var q := p.(chan := p.chan[1..]);
      PS.ReceiveKeeps(p, base);
      PL.TailFresh(p, q, 0);
      if p.chan[0].height == p.cur {
        JudgeStraight(p, q, base, t, p.chan[0].id);
      }
    case Claim(_) => PL.WorkerFresh(p, f, 0);
    case Check(_) => PL.WorkerFresh(p, f, 0);
    case AskId(_) => PL.WorkerFresh(p, f, 0);
    case AskBlock(_, _) => PL.WorkerFresh(p, f, 0);
    case Send(_) => PL.WorkerFresh(p, f, 0);
  }

  lemma RestartStraight(p: P.Pre, base: seq<BlockId>, t: seq<BlockId>)
    requires Straight(p, base, t) && P.Enabled(p, P.Restart) && P.Inv(P.Step(p, P.Restart), base)
    ensures Straight(P.Step(p, P.Restart), base, t)
  {
    hide IsChain, P.Folded, Blocks, P.Inv, PL.AllFresh;
    PL.RestartFresh(p, 0);
    PS.RestartKeeps(p, base);
  }

  // ---------------------------------------------------------------- the program on its way

  /** `db` is what the program found, `t` the chain the node stays on. */
  ghost predicate OnTrack(s: System, db: D.Db, t: seq<BlockId>, mode: S.Mode, head: nat)
    requires |S.Visible(db)| < |t|
  {
    var d := S.Visible(db);
    var base := StartBase(d);
    && Inv(s, base, d)
    && Straight(s.fetch, base, t)
    && s.done <= |s.fetch.out|
    && B.StoreAt(s.store.value, db, t, FirstHeight(base, t) + s.done, mode, head)
  }

  lemma OutAt(t: seq<BlockId>, k: nat, out: seq<Block>, j: nat)
    requires 0 < j <= |out| && k + |out| <= |t| && out == Blocks(t, k, k + |out|)
    ensures out[j - 1] == Block(k + j - 1, t[k + j - 1])
    ensures out[..j] == out[..j - 1] + [Block(k + j - 1, t[k + j - 1])]
  {
    BlocksMeaning(t, k, k + |out|);
  }

  lemma {:induction false} FoldedStraight(base: seq<BlockId>, t: seq<BlockId>, out: seq<Block>, j: nat)
    requires var k := FirstHeight(base, t);
      j <= |out| && k + |out| <= |t| && out == Blocks(t, k, k + |out|) && (base <= t || j > 0)
    ensures P.Folded(base, out[..j]) == t[..FirstHeight(base, t) + j]
  {
    hide P.Folded, Blocks;
    var k := FirstHeight(base, t);
    if j == 0 {
      NothingYet(base, base);
    } else {
      var n := k + j - 1;
      OutAt(t, k, out, j);
      if j == 1 && !(base <= t) {
        FirstFold(base, t);
      } else {
        FoldedStraight(base, t, out, j - 1);
        FoldNext(base, out[..j - 1], t, n);
      }
    }
  }

  lemma FirstFold(base: seq<BlockId>, t: seq<BlockId>)
    requires t != []
    ensures P.Folded(base, [] + [Block(0, t[0])]) == t[..1]
  {
    var out := [Block(0, t[0])];
    assert out[..|out| - 1] == [];
    assert P.Folded(base, out) == [t[0]];
  }

  lemma InsertOnTrack(s: System, db: D.Db, t: seq<BlockId>, mode: S.Mode, head: nat)
    requires |S.Visible(db)| < |t| && S.DbInv(db) && OnTrack(s, db, t, mode, head) && Enabled(s, InsertNext)
    ensures OnTrack(Step(s, InsertNext), db, t, mode, head)
  {
    hide S.DbInv, IsChain, Straight, S.Inv, B.StoreAt, P.Folded, S.Visible, S.Live, Fits, S.InsertBlock, Best, P.AllFit, P.Inv,
         Blocks;
    var d := S.Visible(db);
    var base, out := StartBase(d), s.fetch.out;
    var k := FirstHeight(base, t);
    StepKeeps(s, base, d, InsertNext);
    StraightFacts(s.fetch, base, t);
    FitsAt(base, out, s.done);
    OutAt(t, k, out, s.done + 1);
    var c := P.Folded(base, out[..s.done]);
    if base <= t || s.done > 0 {
      FoldedStraight(base, t, out, s.done);
    }
    B.NextBlock(s.store.value, c, db, t, k + s.done, mode, head);
  }

  lemma StraightFacts(p: P.Pre, base: seq<BlockId>, t: seq<BlockId>)
    requires Straight(p, base, t)
    ensures P.AllFit(base, p.out)
    ensures var k := FirstHeight(base, t); k + |p.out| <= |t| && p.out == Blocks(t, k, k + |p.out|)
  {
    hide P.Inv, P.AllFit, PL.AllFresh, OtherGenesis, P.Folded, Blocks;
    AllOutFits(p, base);
  }

  lemma StaysOnTrack(s: System, db: D.Db, t: seq<BlockId>, mode: S.Mode, head: nat, l: Label)
    requires |S.Visible(db)| < |t| && S.DbInv(db) && OnTrack(s, db, t, mode, head) && Enabled(s, l) && L.Quiet(l)
    ensures OnTrack(Step(s, l), db, t, mode, head)
  {
    hide S.DbInv, IsChain, P.Inv, S.Inv, B.StoreAt, P.Folded, S.Visible, S.Live, P.Step, P.Enabled, S.CommitOne, Best;
    match l
    case InsertNext => InsertOnTrack(s, db, t, mode, head);
    case Commit =>
      var d := S.Visible(db);
      StepKeeps(s, StartBase(d), d, Commit);
      B.CommitStays(s.store.value, P.Folded(StartBase(d), s.fetch.out[..s.done]), db, t,
                    FirstHeight(StartBase(d), t) + s.done, mode, head);
    case Fetch(f) =>
      StepKeeps(s, StartBase(S.Visible(db)), S.Visible(db), l);
      StaysStraight(s.fetch, StartBase(S.Visible(db)), t, f);
      OutGrows(s.fetch, f);
  }

  lemma {:induction false} AlwaysOnTrack(s: System, db: D.Db, t: seq<BlockId>, mode: S.Mode, head: nat,
                                         schedule: nat -> Label, n: nat)
    requires |S.Visible(db)| < |t| && S.DbInv(db) && OnTrack(s, db, t, mode, head) && L.QuietFrom(schedule, 0)
    ensures OnTrack(L.After(s, schedule, n), db, t, mode, head)
    decreases n
  {
    hide OnTrack, S.DbInv, S.Visible, Enabled, Step, L.After, L.Quiet;
    if n == 0 {
      AfterNothing(s, schedule);
    } else {
      AlwaysOnTrack(s, db, t, mode, head, schedule, n - 1);
      L.OneAfter(s, schedule, n - 1);
      var q := L.After(s, schedule, n - 1);
      if Enabled(q, schedule(n - 1)) {
        StaysOnTrack(q, db, t, mode, head, schedule(n - 1));
      }
    }
  }

  lemma AfterNothing(s: System, schedule: nat -> Label)
    ensures L.After(s, schedule, 0) == s
  {
  }

  // ---------------------------------------------------------------- the start

  lemma StartShape(db: D.Db, mode: S.Mode, head: nat, node: seq<BlockId>, threads: nat, fastEnd: nat)
    requires S.DbInv(db) && IsChain(node) && threads > 0 && |S.Visible(db)| <= head + 1
    ensures var s, d := Start(db, mode, head, node, threads, fastEnd), S.Visible(db);
      && s.Some? && s.value.done == 0
      && s.value.store == S.Ok(S.Store(db, [], [], 0, map[], |d|, true, mode, head))
      && s.value.fetch == P.New(node, L.LastOf(d), threads, fastEnd)
      && Inv(s.value, StartBase(d), d)
  {
    hide S.DbInv, IsChain, Inv, S.Visible, S.Live, S.GetHash, P.New;
    StartKeeps(db, mode, head, node, threads, fastEnd);
    OpenShape(db, mode, head);
    OpenFields(db, mode, head);
    if S.Visible(db) != [] {
      GetHashShape(SR.Open(db, mode, head).value, StartHeight(|S.Visible(db)|));
    }
  }

  lemma OpenFields(db: D.Db, mode: S.Mode, head: nat)
    requires SR.Open(db, mode, head).Some?
    ensures var s := SR.Open(db, mode, head).value;
      s == S.Store(db, [], [], 0, map[], s.count, true, mode, head)
  {
  }

  lemma StartsOnTrack(db: D.Db, mode: S.Mode, head: nat, node: seq<BlockId>, threads: nat, fastEnd: nat)
    requires S.DbInv(db) && IsChain(node) && threads > 0
    requires |S.Visible(db)| <= head + 1 && |S.Visible(db)| < |node| && L.WithinReach(S.Visible(db), node)
    ensures Start(db, mode, head, node, threads, fastEnd).Some?
    ensures OnTrack(Start(db, mode, head, node, threads, fastEnd).value, db, node, mode, head)
  {
    hide S.DbInv, IsChain, Inv, S.Visible, S.Live, Start, P.New, P.Inv;
    var d := S.Visible(db);
    StartShape(db, mode, head, node, threads, fastEnd);
    VisibleIsChain(db);
    StartsStraight(d, node, threads, fastEnd);
    NewHasNothing(node, L.LastOf(d), threads, fastEnd);
  }

  lemma StartsStraight(d: seq<BlockId>, node: seq<BlockId>, threads: nat, fastEnd: nat)
    requires IsChain(d) && IsChain(node) && threads > 0 && |d| < |node| && L.WithinReach(d, node)
    ensures Straight(P.New(node, L.LastOf(d), threads, fastEnd), StartBase(d), node)
  {
    hide IsChain, P.Inv;
    var p, base := P.New(node, L.LastOf(d), threads, fastEnd), StartBase(d);
    L.LastIsBase(d);
    PS.NewInv(node, L.LastOf(d), threads, fastEnd);
    var k := FirstHeight(base, node);
    assert Blocks(node, k, k) == [];
    if d != [] && StartHeight(|d|) > 0 {
      L.ReachedPrefix(d, node, StartHeight(|d|));
    }
    if !(base <= node) {
      assert base == [d[0]];
      OnePrefix(base, node);
    }
  }

  lemma OnePrefix(base: seq<BlockId>, node: seq<BlockId>)
    requires |base| == 1 && node != []
    ensures base <= node <==> base[0] == node[0]
  {
  }

  // ---------------------------------------------------------------- the theorem

  /** Every follower of the event log sees exactly `t`. */
  ghost predicate AllWritten(s: System, t: seq<BlockId>) {
    s.store.Ok? && S.Visible(s.store.value.db) == t
  }

  /** On track, a live chain of the node's length means that all of it was received. */
  lemma WholeChain(s: System, db: D.Db, t: seq<BlockId>, mode: S.Mode, head: nat)
    requires |S.Visible(db)| < |t| && OnTrack(s, db, t, mode, head) && |S.Live(s.store.value)| == |t|
    ensures s.store.value.batch == [] <==> B.WritesAll(db, t, mode, head)
  {
    hide P.Inv, S.Inv, S.Visible, Best, P.Folded, B.Waiting, B.TxsBefore, OtherGenesis, PL.AllFresh, Blocks;
    B.LiveAlongTheWay(s.store.value, db, t, FirstHeight(StartBase(S.Visible(db)), t) + s.done, mode, head);
  }

  lemma VisibleWithin(s: System, base: seq<BlockId>, d: seq<BlockId>)
    requires Inv(s, base, d)
    ensures s.store.Ok? && |S.Visible(s.store.value.db)| + |s.store.value.batch| <= |S.Live(s.store.value)|
    ensures S.Live(s.store.value) == Best(d, base, s.fetch.out[..s.done])
  {
    hide P.Inv, S.Inv, S.Visible, Best, P.Folded;
  }

  /** Best of what a straight fetcher delivers is never longer than the node's chain. */
  lemma LiveWithin(s: System, db: D.Db, t: seq<BlockId>, mode: S.Mode, head: nat)
    requires |S.Visible(db)| < |t| && OnTrack(s, db, t, mode, head)
    ensures |S.Live(s.store.value)| <= |t|
  {
    hide P.Inv, S.Inv, S.Visible, Best, P.Folded, B.Waiting, B.TxsBefore, OtherGenesis, PL.AllFresh, Blocks, B.TipStart;
    B.LiveAlongTheWay(s.store.value, db, t, FirstHeight(StartBase(S.Visible(db)), t) + s.done, mode, head);
  }

  lemma NotWrittenNow(s: System, db: D.Db, t: seq<BlockId>, mode: S.Mode, head: nat)
    requires |S.Visible(db)| < |t| && OnTrack(s, db, t, mode, head) && !B.WritesAll(db, t, mode, head)
    ensures !AllWritten(s, t)
  {
    hide Inv, Straight, B.StoreAt, B.WritesAll, S.Live, S.Visible;
    VisibleWithin(s, StartBase(S.Visible(db)), S.Visible(db));
    LiveWithin(s, db, t, mode, head);
    if |S.Live(s.store.value)| == |t| {
      WholeChain(s, db, t, mode, head);
    }
  }

  lemma WrittenNow(s: System, db: D.Db, t: seq<BlockId>, mode: S.Mode, head: nat)
    requires |S.Visible(db)| < |t| && OnTrack(s, db, t, mode, head) && B.WritesAll(db, t, mode, head)
    requires L.CaughtUp(s, t)
    ensures AllWritten(s, t)
  {
    hide Inv, Straight, B.StoreAt, B.WritesAll, S.Live, S.Visible;
    WholeChain(s, db, t, mode, head);
    assert S.Visible(s.store.value.db) + [] == S.Visible(s.store.value.db);
  }

  lemma StuckIsNotWritten(s: System, base: seq<BlockId>, d: seq<BlockId>, t: seq<BlockId>, h: nat, id: BlockId)
    requires Inv(s, base, d) && L.Stuck(s.fetch, t, h, id) && |d| < |t|
    ensures !AllWritten(s, t)
  {
    hide Inv, L.Stuck, S.Live, S.Visible, Best;
    VisibleWithin(s, base, d);
    L.NothingDelivered(s, base, d, t, h, id);
  }

  /** Restarting on a node whose chain is longer than the one in the database and stays: along
      every fair schedule the event log comes to show exactly the node's chain if and only if
      the block the program continues from is on that chain or is the genesis block, and the
      mode does not leave the last block waiting in memory. */
  lemma RestartIsWrittenExactlyWhen(db: D.Db, mode: S.Mode, head: nat, node: seq<BlockId>, threads: nat, fastEnd: nat,
                                    schedule: nat -> Label)
    requires S.DbInv(db) && IsChain(node) && threads > 0
    requires |S.Visible(db)| <= head + 1 && |S.Visible(db)| < |node|
    requires L.QuietFrom(schedule, 0)
    requires var start := Start(db, mode, head, node, threads, fastEnd);
      start.Some? ==> L.Fair(start.value, schedule, 0)
    ensures Start(db, mode, head, node, threads, fastEnd).Some?
    ensures var s := Start(db, mode, head, node, threads, fastEnd).value;
      (exists k: nat :: AllWritten(L.After(s, schedule, k), node))
      <==> L.WithinReach(S.Visible(db), node) && B.WritesAll(db, node, mode, head)
  {
    hide S.DbInv, IsChain, L.Settled, Start, L.Fair, L.CaughtUp, S.Visible, L.QuietFrom, L.WithinReach, Inv, L.Stuck, S.Live,
         OnTrack, AllWritten, B.WritesAll, L.After;
    L.RestartCatchesUpExactlyWhen(db, mode, head, node, threads, fastEnd, schedule);
    var s := Start(db, mode, head, node, threads, fastEnd).value;
    if L.WithinReach(S.Visible(db), node) {
      StartsOnTrack(db, mode, head, node, threads, fastEnd);
      if B.WritesAll(db, node, mode, head) {
        var k: nat :| L.CaughtUp(L.After(s, schedule, k), node);
        AlwaysOnTrack(s, db, node, mode, head, schedule, k);
        WrittenNow(L.After(s, schedule, k), db, node, mode, head);
      } else {
        forall k: nat ensures !AllWritten(L.After(s, schedule, k), node) {
          AlwaysOnTrack(s, db, node, mode, head, schedule, k);
          NotWrittenNow(L.After(s, schedule, k), db, node, mode, head);
        }
      }
    } else {
      L.StartStuck(db, mode, head, node, threads, fastEnd);
      forall k: nat ensures !AllWritten(L.After(s, schedule, k), node) {
        StuckAt(db, s, node, schedule, k);
      }
    }
  }

  lemma StuckAt(db: D.Db, s: System, node: seq<BlockId>, schedule: nat -> Label, k: nat)
    requires var d := S.Visible(db);
      && d != [] && |d| < |node| && Inv(s, StartBase(d), d)
      && L.Stuck(s.fetch, node, StartHeight(|d|), d[StartHeight(|d|)])
    requires L.QuietFrom(schedule, 0)
    ensures !AllWritten(L.After(s, schedule, k), node)
  {
    hide Inv, L.Stuck, S.Live, S.Visible, AllWritten, L.After;
    var d := S.Visible(db);
    var h := StartHeight(|d|);
    L.StuckForever(s, StartBase(d), d, node, h, d[h], schedule, k);
    StuckIsNotWritten(L.After(s, schedule, k), StartBase(d), d, node, h, d[h]);
  }

  /** With the head height read from that very node, everything is written in every mode. */
  lemma RestartAtHeadIsWritten(db: D.Db, mode: S.Mode, node: seq<BlockId>, threads: nat, fastEnd: nat, schedule: nat -> Label)
    requires S.DbInv(db) && IsChain(node) && threads > 0 && |S.Visible(db)| < |node|
    requires L.QuietFrom(schedule, 0)
    requires var start := Start(db, mode, |node| - 1, node, threads, fastEnd);
      start.Some? ==> L.Fair(start.value, schedule, 0)
    ensures Start(db, mode, |node| - 1, node, threads, fastEnd).Some?
    ensures var s := Start(db, mode, |node| - 1, node, threads, fastEnd).value;
      (exists k: nat :: AllWritten(L.After(s, schedule, k), node)) <==> L.WithinReach(S.Visible(db), node)
  {
    hide S.DbInv, IsChain, Start, L.Fair, S.Visible, L.QuietFrom, L.WithinReach, AllWritten, B.WritesAll, L.After;
    B.HeadIsEnough(db, node, mode, |node| - 1);
    RestartIsWrittenExactlyWhen(db, mode, |node| - 1, node, threads, fastEnd, schedule);
  }

  // ---------------------------------------------------------------- at any time

  lemma {:induction false} BestCovers(d: seq<BlockId>, base: seq<BlockId>, out: seq<Block>, j: nat)
    requires 0 < j <= |out|
    ensures |P.Folded(base, out[..j])| <= |Best(d, base, out)|
    decreases |out|
  {
    hide P.Folded;
    if j == |out| {
      assert out[..j] == out;
    } else {
      var init := out[..|out| - 1];
      BestCovers(d, base, init, j);
      assert init[..j] == out[..j];
    }
  }

  lemma InsertStaysBelow(s: System, base: seq<BlockId>, d: seq<BlockId>, stale: nat)
    requires L.Settled(s, base, d, stale) && s.store.value.head + 1 == |s.fetch.node| && Enabled(s, InsertNext)
    requires B.WaitsBelowHead(s.store.value)
    ensures Step(s, InsertNext).store.Ok?
    ensures var t := Step(s, InsertNext).store.value; B.WaitsBelowHead(t) && t.head == s.store.value.head
  {
    hide P.Inv, S.Inv, S.Live, S.Visible, P.Folded, Best, PL.Settled, Fits, S.InsertBlock, B.WaitsBelowHead;
    var out := s.fetch.out;
    AllOutFits(s.fetch, base);
    FitsAt(base, out, s.done);
    OneMore(d, base, out, s.done);
    BestCovers(d, base, out, s.done + 1);
    B.InsertBelowHead(s.store.value, P.Folded(base, out[..s.done]), out[s.done]);
  }

  lemma StaysBelow(s: System, base: seq<BlockId>, d: seq<BlockId>, stale: nat, l: Label)
    requires L.Settled(s, base, d, stale) && Enabled(s, l) && L.Quiet(l)
    requires s.store.Ok? && s.store.value.head + 1 == |s.fetch.node| && B.WaitsBelowHead(s.store.value)
    ensures L.Settled(Step(s, l), base, d, stale) && Step(s, l).fetch.node == s.fetch.node
    ensures Step(s, l).store.Ok?
    ensures var t := Step(s, l).store.value; B.WaitsBelowHead(t) && t.head == s.store.value.head
  {
    hide L.Settled, P.Step, P.Enabled, S.InsertBlock;
    L.StepProgress(s, base, d, stale, l);
    if l.InsertNext? {
      InsertStaysBelow(s, base, d, stale);
    }
  }

  lemma {:induction false} AlwaysBelow(s: System, base: seq<BlockId>, d: seq<BlockId>, stale: nat, schedule: nat -> Label,
                                       n: nat, m: nat)
    requires n <= m && L.QuietFrom(schedule, n)
    requires var t := L.After(s, schedule, n);
      && L.Settled(t, base, d, stale) && t.store.Ok? && t.store.value.head + 1 == |t.fetch.node|
      && B.WaitsBelowHead(t.store.value)
    ensures var t, r := L.After(s, schedule, n), L.After(s, schedule, m);
      && L.Settled(r, base, d, stale) && r.fetch.node == t.fetch.node && r.store.Ok?
      && r.store.value.head + 1 == |r.fetch.node| && B.WaitsBelowHead(r.store.value)
    decreases m - n
  {
    hide L.Settled, L.After, Enabled, Step, L.Quiet, B.WaitsBelowHead;
    if m > n {
      AlwaysBelow(s, base, d, stale, schedule, n, m - 1);
      L.OneAfter(s, schedule, m - 1);
      var q := L.After(s, schedule, m - 1);
      if Enabled(q, schedule(m - 1)) {
        StaysBelow(q, base, d, stale, schedule(m - 1));
      }
    }
  }

  /** At any time, in any mode: once the node stays on a chain that ends at the starting height,
      and nothing above that height is waiting, every fair schedule leads to everything being
      written. */
  lemma CatchesUpAtHead(s: System, base: seq<BlockId>, d: seq<BlockId>, stale: nat, schedule: nat -> Label, n: nat)
    requires L.QuietFrom(schedule, n) && L.Fair(s, schedule, n)
    requires var t := L.After(s, schedule, n);
      && L.Settled(t, base, d, stale) && t.store.Ok? && t.store.value.head + 1 == |t.fetch.node|
      && B.WaitsBelowHead(t.store.value)
    ensures exists k: nat :: k >= n && AllWritten(L.After(s, schedule, k), L.After(s, schedule, n).fetch.node)
  {
    hide L.Settled, L.After, L.Fair, L.QuietFrom, L.CaughtUp, AllWritten, B.WaitsBelowHead;
    var t := L.After(s, schedule, n).fetch.node;
    L.CatchesUp(s, base, d, stale, schedule, n);
    var k: nat :| k >= n && L.CaughtUp(L.After(s, schedule, k), t);
    AlwaysBelow(s, base, d, stale, schedule, n, k);
    NothingWaits(L.After(s, schedule, k), base, d, stale, t);
  }

  lemma NothingWaits(s: System, base: seq<BlockId>, d: seq<BlockId>, stale: nat, t: seq<BlockId>)
    requires L.Settled(s, base, d, stale) && L.CaughtUp(s, t)
    requires s.store.value.head + 1 == |t| && B.WaitsBelowHead(s.store.value)
    ensures AllWritten(s, t)
  {
    hide P.Inv, S.Inv, S.Live, S.Visible, P.Folded, Best, PL.Settled;
    B.CountIsLive(s.store.value, P.Folded(base, s.fetch.out[..s.done]));
    assert S.Visible(s.store.value.db) + [] == S.Visible(s.store.value.db);
  }

  // ---------------------------------------------------------------- inputs on the failing side

  /** A chain of empty blocks. */
  function Mined(nonce: nat, n: nat): (c: seq<BlockId>)
    ensures |c| == n
  {
    if n == 0 then [] else Mined(nonce, n - 1) + [Hash(Top(Mined(nonce, n - 1)), [], nonce)]
  }

  lemma {:induction false} MinedIsChain(nonce: nat, n: nat)
    ensures IsChain(Mined(nonce, n))
  {
    if n > 0 {
      MinedIsChain(nonce, n - 1);
      ChainExtend(Mined(nonce, n - 1), Hash(Top(Mined(nonce, n - 1)), [], nonce));
    }
  }

  lemma {:induction false} MinedAt(nonce: nat, n: nat, i: nat)
    requires i < n
    ensures Mined(nonce, n)[i].Hash? && Mined(nonce, n)[i].nonce == nonce && Mined(nonce, n)[i].txs == []
  {
    if i < n - 1 {
      MinedAt(nonce, n - 1, i);
    }
  }

  /** The database after indexing `n` empty blocks. */
  function Indexed(n: nat): D.Db {
    D.AppendBlocks(D.EMPTY, Blocks(Mined(0, n), 0, n))
  }

  lemma IndexedIsCommitted(n: nat)
    ensures S.DbInv(Indexed(n)) && S.Visible(Indexed(n)) == Mined(0, n)
  {
    hide S.DbInv, IsChain, S.Visible, D.AppendBlocks, Mined, Blocks;
    var c := Mined(0, n);
    SR.EmptyDbCommitted();
    MinedIsChain(0, n);
    BlocksMeaning(c, 0, n);
    assert [] + c[0..n] == c;
    SP.AppendCommitted(D.EMPTY, Blocks(c, 0, n));
  }

  /** A hundred blocks are not always enough: 102 stored blocks, and a node with 103 others. */
  lemma DeepReorgIsMissed(mode: S.Mode, threads: nat, fastEnd: nat, schedule: nat -> Label)
    requires threads > 0 && L.QuietFrom(schedule, 0)
    requires var start := Start(Indexed(102), mode, 102, Mined(1, 103), threads, fastEnd);
      start.Some? ==> L.Fair(start.value, schedule, 0)
    ensures S.DbInv(Indexed(102)) && IsChain(Mined(1, 103)) && !L.WithinReach(S.Visible(Indexed(102)), Mined(1, 103))
    ensures Start(Indexed(102), mode, 102, Mined(1, 103), threads, fastEnd).Some?
    ensures forall k: nat ::
      !L.CaughtUp(L.After(Start(Indexed(102), mode, 102, Mined(1, 103), threads, fastEnd).value, schedule, k), Mined(1, 103))
  {
    hide S.DbInv, IsChain, S.Visible, D.AppendBlocks, Mined, Start, L.Fair, L.QuietFrom, L.CaughtUp, L.After, Indexed;
    IndexedIsCommitted(102);
    MinedIsChain(1, 103);
    MinedAt(0, 102, 1);
    MinedAt(1, 103, 1);
    L.RestartCatchesUpExactlyWhen(Indexed(102), mode, 102, Mined(1, 103), threads, fastEnd, schedule);
  }

  /** One block too late for bulk mode to end: the database is at the height the node had at the
      start, and the node has one more block.  It stays in memory. */
  lemma BulkKeepsTheLastBlock(mode: S.Mode, n: nat, threads: nat, fastEnd: nat, schedule: nat -> Label)
    requires mode.IsBulk() && n > 0 && threads > 0 && L.QuietFrom(schedule, 0)
    requires var start := Start(Indexed(n), mode, n - 1, Mined(0, n + 1), threads, fastEnd);
      start.Some? ==> L.Fair(start.value, schedule, 0)
    ensures S.DbInv(Indexed(n)) && IsChain(Mined(0, n + 1)) && L.WithinReach(S.Visible(Indexed(n)), Mined(0, n + 1))
    ensures Start(Indexed(n), mode, n - 1, Mined(0, n + 1), threads, fastEnd).Some?
    ensures var s := Start(Indexed(n), mode, n - 1, Mined(0, n + 1), threads, fastEnd).value;
      && (exists k: nat :: L.CaughtUp(L.After(s, schedule, k), Mined(0, n + 1)))
      && (forall k: nat :: !AllWritten(L.After(s, schedule, k), Mined(0, n + 1)))
  {
    hide S.DbInv, IsChain, S.Visible, D.AppendBlocks, Mined, Start, L.Fair, L.QuietFrom, L.CaughtUp, L.After, Indexed,
         AllWritten, B.WritesAll;
    var t := Mined(0, n + 1);
    IndexedIsCommitted(n);
    MinedIsChain(0, n + 1);
    OneMore'(n);
    EmptyBlockWaits(mode, n);
    L.RestartCatchesUpExactlyWhen(Indexed(n), mode, n - 1, t, threads, fastEnd, schedule);
    RestartIsWrittenExactlyWhen(Indexed(n), mode, n - 1, t, threads, fastEnd, schedule);
  }

  lemma OneMore'(n: nat)
    ensures Mined(0, n + 1)[..n] == Mined(0, n) && Mined(0, n) <= Mined(0, n + 1)
    ensures forall i | 0 <= i < n :: Mined(0, n + 1)[i] == Mined(0, n)[i]
  {
  }

  lemma EmptyBlockWaits(mode: S.Mode, n: nat)
    requires mode.IsBulk() && n > 0 && S.Visible(Indexed(n)) == Mined(0, n)
    ensures !B.WritesAll(Indexed(n), Mined(0, n + 1), mode, n - 1)
  {
    hide S.Visible, Indexed;
    var t := Mined(0, n + 1);
    OneMore'(n);
    MinedAt(0, n + 1, n);
    hide Mined;
    assert [Block(n, t[n])][..0] == [];
    assert S.TxCount([Block(n, t[n])]) == 0;
  }
}
