/** Catching up, for the whole program: once the node stays on one chain that outgrows what
    the program has and forks off within reach, the store's live chain becomes the node's chain.
    Everything of it is then committed but for what a bulk mode keeps in the batch; when that is
    nothing is the subject of IndexerWritten. */
module IndexerLive {
  import opened Chain
  import D = Database
  import S = StoreSpec
  import SR = StoreRuns
  import P = PrefetchSpec
  import PS = PrefetchSafety
  import PL = PrefetchLive
  import opened Indexer

  /** The chain the store will have when everything delivered is inserted. */
  function Promised(s: System, base: seq<BlockId>, d: seq<BlockId>): seq<BlockId> {
    Best(d, base, s.fetch.out)
  }

  ghost predicate Settled(s: System, base: seq<BlockId>, d: seq<BlockId>, stale: nat) {
    && Inv(s, base, d)
    && PL.Settled(s.fetch, base, stale)
    && (|Promised(s, base, d)| < |s.fetch.node| || Promised(s, base, d) == s.fetch.node)
  }

  predicate Quiet(l: Label) {
    l.Fetch? ==> PL.Quiet(l.l)
  }

  predicate Productive(s: System, l: Label) {
    && Enabled(s, l)
    && (match l
        case Fetch(f) => PL.Productive(s.fetch, f)
        case InsertNext => true
        case Commit => s.store.value.flight != [])
  }

  /** Fetching first, then inserting, then writing. */
  datatype Measure = Measure(fetch: PL.Measure, todo: nat, flight: nat)

  ghost function Left(s: System, base: seq<BlockId>): Measure {
    Measure(PL.Rank(s.fetch, base),
            if s.done <= |s.fetch.out| then |s.fetch.out| - s.done else 0,
            if s.store.Ok? then |s.store.value.flight| else 0)
  }

  predicate Less(m: Measure, n: Measure) {
    PL.Less(m.fetch, n.fetch)
    || (m.fetch == n.fetch && (m.todo < n.todo || (m.todo == n.todo && m.flight < n.flight)))
  }

  ghost predicate NoMore(s: System, t: System, base: seq<BlockId>, moved: bool) {
    var m, n := Left(t, base), Left(s, base);
    Less(m, n) || (!moved && m == n)
  }

  /** A quiet step keeps the situation settled; a productive one brings the end nearer. */
  lemma StepProgress(s: System, base: seq<BlockId>, d: seq<BlockId>, stale: nat, l: Label)
    requires Settled(s, base, d, stale) && Enabled(s, l) && Quiet(l)
    ensures Settled(Step(s, l), base, d, stale) && Step(s, l).fetch.node == s.fetch.node
    ensures NoMore(s, Step(s, l), base, Productive(s, l))
  {
    hide Inv, PL.Settled, PL.Rank, Best, P.Step, P.Enabled, S.InsertBlock, PL.Polling;
    StepKeeps(s, base, d, l);
    match l
    case Fetch(f) =>
      FetchProgress(s.fetch, base, stale, f);
      FetchPromise(s, base, d, stale, f);
    case InsertNext => DoneWithin(s, base, d);
    case Commit => DoneWithin(s, base, d);
  }

  lemma DoneWithin(s: System, base: seq<BlockId>, d: seq<BlockId>)
    requires Inv(s, base, d)
    ensures s.done <= |s.fetch.out| && s.store.Ok?
  {
    hide P.Inv, S.Inv, Best, S.Live, S.Visible;
  }

  lemma FetchProgress(p: P.Pre, base: seq<BlockId>, stale: nat, f: P.Label)
    requires PL.Settled(p, base, stale) && P.Enabled(p, f) && PL.Quiet(f)
    ensures var q := P.Step(p, f);
      && PL.Settled(q, base, stale) && q.node == p.node
      && (PL.Less(PL.Rank(q, base), PL.Rank(p, base))
          || (PL.Polling(p, f) && PL.Rank(q, base) == PL.Rank(p, base) && q.out == p.out))
  {
    PL.StepProgress(p, base, stale, f);
    PL.PhaseFactsOf(p, base, stale);
    PL.PhaseFactsOf(P.Step(p, f), base, stale);
    OutGrows(p, f);
    hide PL.Settled, PL.MeasureOf, PL.Less, P.Step, PL.Polling, P.Folded, P.Inv;
  }

  lemma FetchPromise(s: System, base: seq<BlockId>, d: seq<BlockId>, stale: nat, f: P.Label)
    requires Settled(s, base, d, stale) && P.Enabled(s.fetch, f)
    requires PL.Settled(P.Step(s.fetch, f), base, stale) && P.Step(s.fetch, f).node == s.fetch.node
    ensures var t := s.(fetch := P.Step(s.fetch, f));
      |Promised(t, base, d)| < |t.fetch.node| || Promised(t, base, d) == t.fetch.node
  {
    hide Inv, PL.Settled, P.Step, P.Enabled, P.Folded, Best, PL.Polling;
    OutGrows(s.fetch, f);
    var q := P.Step(s.fetch, f);
    NotAhead(q, base, stale);
    PromiseGrows(d, base, s.fetch.out, q.out, s.fetch.node);
  }

  lemma PromiseGrows(d: seq<BlockId>, base: seq<BlockId>, out: seq<Block>, more: seq<Block>, t: seq<BlockId>)
    requires |out| <= |more| <= |out| + 1 && more[..|out|] == out
    requires |Best(d, base, out)| < |t| || Best(d, base, out) == t
    requires |P.Folded(base, more)| < |t| || P.Folded(base, more) == t
    ensures |Best(d, base, more)| < |t| || Best(d, base, more) == t
  {
    hide P.Folded;
    if |more| == |out| {
      assert more == out;
    } else {
      assert more[..|more| - 1] == out;
    }
  }

  /** What is delivered is shorter than the node's chain or is that chain. */
  lemma NotAhead(p: P.Pre, base: seq<BlockId>, stale: nat)
    requires PL.Settled(p, base, stale)
    ensures var f := P.Folded(base, p.out); |f| < |p.node| || f == p.node
  {
    hide P.Inv, P.Folded, PL.StaleBelow, PL.ForkInWindow;
    var f := P.Folded(base, p.out);
    if f <= p.node && |f| == |p.node| {
      assert p.node[..|f|] == p.node;
    }
  }

  // ---------------------------------------------------------------- the goal

  /** The live chain is `t` and the pipeline is empty: what followers of the event log do not
      see yet is exactly the batch, which the bulk modes keep in memory and normal mode does
      not. */
  ghost predicate CaughtUp(s: System, t: seq<BlockId>) {
    && s.store.Ok?
    && S.Live(s.store.value) == t
    && s.store.value.flight == []
    && S.Visible(s.store.value.db) + Ids(s.store.value.batch) == t
    && (s.store.value.mode == S.Normal ==> s.store.value.batch == [] && S.Visible(s.store.value.db) == t)
  }

  lemma ProgressPossible(s: System, base: seq<BlockId>, d: seq<BlockId>, stale: nat)
    requires Settled(s, base, d, stale)
    ensures CaughtUp(s, s.fetch.node) || exists l :: Productive(s, l)
  {
    hide PL.Settled, Inv, CaughtUp, Productive, PL.Productive;
    DoneWithin(s, base, d);
    if s.done < |s.fetch.out| {
      Moves(s, InsertNext);
    } else if s.store.value.flight != [] {
      Moves(s, Commit);
    } else if PL.Target(s.fetch) < |s.fetch.node| {
      PL.ProgressPossible(s.fetch, base, stale);
      var f :| PL.Productive(s.fetch, f);
      Moves(s, Fetch(f));
    } else {
      PL.TopMeansConverged(s.fetch, base, stale);
      AllInserted(s, base, d);
    }
  }

  lemma Moves(s: System, l: Label)
    requires match l
      case Fetch(f) => PL.Productive(s.fetch, f) && s.done == |s.fetch.out|
      case InsertNext => s.store.Ok? && s.done < |s.fetch.out|
      case Commit => s.store.Ok? && s.store.value.flight != []
    ensures exists l :: Productive(s, l)
  {
    hide P.Enabled, PL.Polling;
    assert Productive(s, l);
  }

  lemma AllInserted(s: System, base: seq<BlockId>, d: seq<BlockId>)
    requires Inv(s, base, d) && s.done == |s.fetch.out| && s.store.value.flight == []
    requires PL.Converged(s.fetch, base)
    requires |Promised(s, base, d)| < |s.fetch.node| || Promised(s, base, d) == s.fetch.node
    ensures CaughtUp(s, s.fetch.node)
  {
    hide P.Inv, S.Inv, Best, S.Visible, P.Folded;
    assert s.fetch.out[..s.done] == s.fetch.out;
    SR.ReceivedIsShort(s.store.value, s.fetch.node);
    assert S.Flat([]) == [] && Ids([]) == [];
    assert S.Visible(s.store.value.db) + [] == S.Visible(s.store.value.db);
  }

  // ---------------------------------------------------------------- the theorem

  ghost function After(s: System, schedule: nat -> Label, n: nat): System {
    if n == 0 then s
    else
      var t := After(s, schedule, n - 1);
      if Enabled(t, schedule(n - 1)) then Step(t, schedule(n - 1)) else t
  }

  ghost predicate QuietFrom(schedule: nat -> Label, start: nat) {
    forall n: nat | n >= start :: Quiet(schedule(n))
  }

  /** Whenever something productive is possible, something productive happens later. */
  ghost predicate Fair(s: System, schedule: nat -> Label, start: nat) {
    forall n: nat | n >= start && exists l :: Productive(After(s, schedule, n), l) ::
      exists m: nat :: m >= n && Productive(After(s, schedule, m), schedule(m))
  }

  lemma StayOrProgress(s: System, base: seq<BlockId>, d: seq<BlockId>, stale: nat, schedule: nat -> Label, n: nat)
    requires Settled(After(s, schedule, n), base, d, stale) && Quiet(schedule(n))
    ensures var t, r := After(s, schedule, n), After(s, schedule, n + 1);
      && Settled(r, base, d, stale) && r.fetch.node == t.fetch.node
      && NoMore(t, r, base, Productive(t, schedule(n)))
  {
    hide Settled, Left, Step;
    var t := After(s, schedule, n);
    if Enabled(t, schedule(n)) {
      StepProgress(t, base, d, stale, schedule(n));
    }
  }

  lemma {:induction false} StaySettled(s: System, base: seq<BlockId>, d: seq<BlockId>, stale: nat, schedule: nat -> Label,
                                       n: nat, m: nat)
    requires n <= m && Settled(After(s, schedule, n), base, d, stale) && QuietFrom(schedule, n)
    ensures var t, r := After(s, schedule, n), After(s, schedule, m);
      && Settled(r, base, d, stale) && r.fetch.node == t.fetch.node && NoMore(t, r, base, false)
    decreases m - n
  {
    hide Settled, NoMore, After, Productive;
    if m > n {
      StaySettled(s, base, d, stale, schedule, n, m - 1);
      StayOrProgress(s, base, d, stale, schedule, m - 1);
      NoMoreTwice(After(s, schedule, n), After(s, schedule, m - 1), After(s, schedule, m), base,
                  Productive(After(s, schedule, m - 1), schedule(m - 1)));
    } else {
      NoMoreSelf(After(s, schedule, n), base);
    }
  }

  lemma NoMoreTwice(a: System, b: System, c: System, base: seq<BlockId>, moved: bool)
    requires NoMore(a, b, base, false) && NoMore(b, c, base, moved)
    ensures NoMore(a, c, base, false)
  {
    hide Left;
  }

  lemma NoMoreSelf(a: System, base: seq<BlockId>)
    ensures NoMore(a, a, base, false)
  {
  }

  lemma NextProductive(s: System, schedule: nat -> Label, start: nat) returns (m: nat)
    requires Fair(s, schedule, start) && exists l :: Productive(After(s, schedule, start), l)
    ensures m >= start && Productive(After(s, schedule, m), schedule(m)) && Fair(s, schedule, m + 1)
  {
    hide After, Productive;
    m :| m >= start && Productive(After(s, schedule, m), schedule(m));
  }

  /** Along every quiet and fair schedule of fetching, inserting and writing, the live chain
      becomes the node's, and all of it but the batch is committed. */
  lemma {:induction false} CatchesUp(s: System, base: seq<BlockId>, d: seq<BlockId>, stale: nat, schedule: nat -> Label, n: nat)
    requires Settled(After(s, schedule, n), base, d, stale) && QuietFrom(schedule, n) && Fair(s, schedule, n)
    ensures exists k: nat :: k >= n && CaughtUp(After(s, schedule, k), After(s, schedule, n).fetch.node)
    decreases Left(After(s, schedule, n), base).fetch.stale, Left(After(s, schedule, n), base).fetch.back,
              Left(After(s, schedule, n), base).fetch.left, Left(After(s, schedule, n), base).fetch.control,
              Left(After(s, schedule, n), base).fetch.ids, Left(After(s, schedule, n), base).fetch.work,
              Left(After(s, schedule, n), base).todo, Left(After(s, schedule, n), base).flight
  {
    hide Settled, After, Productive, Left, Fair, CaughtUp;
    var t := After(s, schedule, n);
    ProgressPossible(t, base, d, stale);
    if !CaughtUp(t, t.fetch.node) {
      var m := NextProductive(s, schedule, n);
      StaySettled(s, base, d, stale, schedule, n, m);
      StayOrProgress(s, base, d, stale, schedule, m);
      CatchesUp(s, base, d, stale, schedule, m + 1);
    }
  }

  // ---------------------------------------------------------------- fairness of each party

  /** `Main` is the thread that takes blocks from the fetcher and inserts them. */
  datatype Party = OfWorker(w: nat) | Main | Writer

  predicate Owns(x: Party, l: Label) {
    match l
    case Fetch(f) => if x.OfWorker? then PL.Owns(PL.OfWorker(x.w), f) else x.Main? && PL.Owns(PL.Consumer, f)
    case InsertNext => x.Main?
    case Commit => x.Writer?
  }

  function PartyOf(l: Label): (x: Party)
    requires Quiet(l)
    ensures Owns(x, l)
  {
    match l
    case Fetch(f) => (match PL.PartyOf(f) case OfWorker(w) => OfWorker(w) case Consumer => Main)
    case InsertNext => Main
    case Commit => Writer
  }

  /** The writer has a step to take when there is a batch to commit. */
  predicate IsStep(s: System, l: Label) {
    Enabled(s, l) && (l.Commit? ==> s.store.value.flight != [])
  }

  ghost predicate CanMove(s: System, x: Party) {
    exists l :: Owns(x, l) && IsStep(s, l)
  }

  ghost predicate HasTurn(s: System, x: Party, l: Label) {
    (Owns(x, l) && IsStep(s, l)) || !CanMove(s, x)
  }

  ghost predicate TakesTurn(s: System, schedule: nat -> Label, x: Party, n: nat) {
    exists m: nat :: m >= n && HasTurn(After(s, schedule, m), x, schedule(m))
  }

  /** Weak fairness: again and again each worker, the main thread and the writer takes one of
      its steps or has none to take. */
  ghost predicate FairToAll(s: System, schedule: nat -> Label, start: nat) {
    forall x: Party, n: nat | n >= start :: TakesTurn(s, schedule, x, n)
  }

  lemma ProductiveStays(s: System, l: Label, f: Label)
    requires Productive(s, l) && Enabled(s, f) && Quiet(f) && !Productive(s, f)
    ensures Productive(Step(s, f), l)
  {
    hide P.Step, P.Enabled, PL.Polling, S.InsertBlock;
    match f
    case Commit => assert Step(s, f) == s;
    case InsertNext =>
    case Fetch(g) =>
      OutGrows(s.fetch, g);
      if l.Fetch? {
        PL.ProductiveStays(s.fetch, l.l, g);
      }
  }

  lemma MovesProductively(s: System, l: Label, f: Label)
    requires Productive(s, l) && Quiet(f) && HasTurn(s, PartyOf(l), f)
    ensures Productive(s, f)
  {
    hide P.Enabled, PL.Polling;
    assert CanMove(s, PartyOf(l)) by {
      assert Owns(PartyOf(l), l) && IsStep(s, l);
    }
    if l.Fetch? && f.Fetch? {
      PL.MovesProductively(s.fetch, l.l, f.l);
    } else if f.Fetch? {
      ConsumerIsProductive(s.fetch, f.l);
    }
  }

  lemma ConsumerIsProductive(p: P.Pre, f: P.Label)
    requires P.Enabled(p, f) && PL.Owns(PL.Consumer, f)
    ensures PL.Productive(p, f)
  {
  }

  lemma {:induction false} ProductiveMeanwhile(s: System, schedule: nat -> Label, l: Label, n: nat, m: nat)
    requires n <= m && QuietFrom(schedule, n) && Productive(After(s, schedule, n), l)
    ensures Productive(After(s, schedule, m), l) || exists k: nat :: k >= n && Productive(After(s, schedule, k), schedule(k))
    decreases m - n
  {
    hide Productive, Enabled, Step, After;
    if m > n {
      ProductiveMeanwhile(s, schedule, l, n, m - 1);
      var q := After(s, schedule, m - 1);
      OneAfter(s, schedule, m - 1);
      if Productive(q, l) && !Productive(q, schedule(m - 1)) && Enabled(q, schedule(m - 1)) {
        ProductiveStays(q, l, schedule(m - 1));
      }
    }
  }

  lemma OneAfter(s: System, schedule: nat -> Label, n: nat)
    ensures var t := After(s, schedule, n);
      After(s, schedule, n + 1) == if Enabled(t, schedule(n)) then Step(t, schedule(n)) else t
  {
    hide Enabled, Step;
  }

  lemma TurnIsTaken(s: System, schedule: nat -> Label, l: Label, n: nat)
    requires QuietFrom(schedule, n) && Productive(After(s, schedule, n), l) && Quiet(l)
    requires TakesTurn(s, schedule, PartyOf(l), n)
    ensures exists k: nat :: k >= n && Productive(After(s, schedule, k), schedule(k))
  {
    hide After, Productive, HasTurn;
    var m: nat :| m >= n && HasTurn(After(s, schedule, m), PartyOf(l), schedule(m));
    ProductiveMeanwhile(s, schedule, l, n, m);
    if Productive(After(s, schedule, m), l) {
      MovesProductively(After(s, schedule, m), l, schedule(m));
    }
  }

  /** If every worker, the main thread and the writer are treated fairly, the whole is fair. */
  lemma FairFromParties(s: System, schedule: nat -> Label, start: nat)
    requires QuietFrom(schedule, start) && FairToAll(s, schedule, start)
    ensures Fair(s, schedule, start)
  {
    hide After, Productive, TakesTurn;
    forall n: nat | n >= start && exists l :: Productive(After(s, schedule, n), l)
      ensures exists m: nat :: m >= n && Productive(After(s, schedule, m), schedule(m))
    {
      var l :| Productive(After(s, schedule, n), l);
      ProductiveIsQuiet(After(s, schedule, n), l);
      TurnIsTaken(s, schedule, l, n);
    }
  }

  lemma ProductiveIsQuiet(s: System, l: Label)
    requires Productive(s, l)
    ensures Quiet(l)
  {
    hide P.Enabled, PL.Polling;
  }

  // ---------------------------------------------------------------- schedules exist

  /** Something productive if there is anything. */
  ghost function Pick(s: System): Label {
    if exists l :: Productive(s, l) then
      var l :| Productive(s, l);
      l
    else Commit
  }

  ghost function Picked(s: System, n: nat): System {
    if n == 0 then s
    else
      var t := Picked(s, n - 1);
      if Enabled(t, Pick(t)) then Step(t, Pick(t)) else t
  }

  /** From every state there is a quiet and fair schedule, so the theorems below speak about
      something. */
  lemma FairScheduleExists(s: System) returns (schedule: nat -> Label)
    ensures QuietFrom(schedule, 0) && Fair(s, schedule, 0)
  {
    hide Productive, Enabled, Step, Quiet, Picked, After;
    schedule := ((t: System) => (n: nat) => Pick(Picked(t, n)))(s);
    assert Picks(s, schedule);
    forall n: nat ensures Quiet(schedule(n)) {
      PickIsQuiet(Picked(s, n));
    }
    forall n: nat ensures After(s, schedule, n) == Picked(s, n) {
      PickedIsAfter(s, schedule, n);
    }
  }

  ghost predicate Picks(s: System, schedule: nat -> Label) {
    forall n: nat {:trigger schedule(n)} :: schedule(n) == Pick(Picked(s, n))
  }

  lemma PickIsQuiet(s: System)
    ensures Quiet(Pick(s))
  {
    hide P.Enabled, PL.Polling;
  }

  lemma {:induction false} PickedIsAfter(s: System, schedule: nat -> Label, n: nat)
    requires Picks(s, schedule)
    ensures After(s, schedule, n) == Picked(s, n)
  {
    hide Enabled, Step, Pick, Picks;
    if n > 0 {
      PickedIsAfter(s, schedule, n - 1);
      PicksAt(s, schedule, n - 1);
    }
  }

  lemma PicksAt(s: System, schedule: nat -> Label, n: nat)
    requires Picks(s, schedule)
    ensures schedule(n) == Pick(Picked(s, n))
  {
    hide Pick, Picked;
  }

  // ---------------------------------------------------------------- restart

  /** The block the program continues from is on the node's chain; genesis can be replaced. */
  predicate WithinReach(d: seq<BlockId>, node: seq<BlockId>) {
    d != [] && StartHeight(|d|) > 0 ==> StartHeight(|d|) < |node| && node[StartHeight(|d|)] == d[StartHeight(|d|)]
  }

  /** In numbers: the two chains may differ in the last 100 blocks of `d`, or in all of it while
      it has no more than 101. */
  lemma WithinReachIs(d: seq<BlockId>, node: seq<BlockId>)
    requires IsChain(d) && IsChain(node)
    ensures WithinReach(d, node) <==> |d| <= 101 || d[..|d| - 100] <= node
  {
    if |d| > 101 {
      var h := |d| - 101;
      if h < |node| && node[h] == d[h] {
        SharedBlock(d, node, h, h);
      }
      if d[..|d| - 100] <= node {
        assert d[..|d| - 100][h] == node[h];
      }
    }
  }

  function LastOf(d: seq<BlockId>): Option<Block> {
    if d == [] then None else Some(Block(StartHeight(|d|), d[StartHeight(|d|)]))
  }

  lemma LastIsBase(d: seq<BlockId>)
    requires IsChain(d)
    ensures P.Base(LastOf(d)) == StartBase(d) && (d != [] ==> Genuine(LastOf(d).value))
  {
    if d != [] {
      ChainHeight(d, StartHeight(|d|));
      ChainPrefix(d, StartHeight(|d|) + 1);
    }
  }

  /** A fetcher that continues from a block of the node's chain is settled at once. */
  lemma NewSettled(node: seq<BlockId>, d: seq<BlockId>, threads: nat, fastEnd: nat)
    requires IsChain(node) && IsChain(d) && threads > 0 && |d| < |node| && WithinReach(d, node)
    ensures PL.Settled(P.New(node, LastOf(d), threads, fastEnd), StartBase(d), 0)
    ensures P.New(node, LastOf(d), threads, fastEnd).node == node
  {
    hide IsChain, P.Inv, PL.Agree;
    var p, b := P.New(node, LastOf(d), threads, fastEnd), StartBase(d);
    LastIsBase(d);
    PS.NewInv(node, LastOf(d), threads, fastEnd);
    assert PL.AllFresh(p) && PL.StaleBelow(p, 0);
    if d != [] {
      var h := StartHeight(|d|);
      PS.WindowBounds(p.prev, h, h + 1);
      assert b[..|b|] == b;
      if h > 0 {
        ReachedPrefix(d, node, h);
        PL.AgreeUnique(b, node, |b|);
      }
    }
  }

  lemma ReachedPrefix(d: seq<BlockId>, node: seq<BlockId>, h: nat)
    requires IsChain(d) && IsChain(node) && h < |d| && h < |node| && d[h] == node[h]
    ensures d[..h + 1] <= node && d[..h + 1] == node[..h + 1]
  {
    SharedBlock(d, node, h, h);
  }

  lemma StartSettled(db: D.Db, mode: S.Mode, head: nat, node: seq<BlockId>, threads: nat, fastEnd: nat)
    requires S.DbInv(db) && IsChain(node) && threads > 0
    requires |S.Visible(db)| <= head + 1 && |S.Visible(db)| < |node| && WithinReach(S.Visible(db), node)
    ensures Start(db, mode, head, node, threads, fastEnd).Some?
    ensures var s := Start(db, mode, head, node, threads, fastEnd).value;
      Settled(s, StartBase(S.Visible(db)), S.Visible(db), 0) && s.fetch.node == node
  {
    hide S.DbInv, IsChain, Inv, Start, P.New, PL.Settled, S.Visible, S.Live;
    var d := S.Visible(db);
    StartKeeps(db, mode, head, node, threads, fastEnd);
    VisibleIsChain(db);
    NewSettled(node, d, threads, fastEnd);
    NewHasNothing(node, LastOf(d), threads, fastEnd);
  }

  /** The fetcher continues from a block the node has abandoned. */
  ghost predicate Stuck(p: P.Pre, t: seq<BlockId>, h: nat, id: BlockId) {
    && p.node == t && IsChain(t) && 0 < h < |t| && t[h] != id
    && p.out == [] && p.prev == map[h := id] && PL.AllFresh(p)
    && (p.cur == h + 1 || (p.cur == h && p.phase != P.Draining(true)))
  }

  lemma JudgeStuck(p: P.Pre, q: P.Pre, t: seq<BlockId>, h: nat, id: BlockId, b: BlockId)
    requires Stuck(p, t, h, id) && q == p.(early := q.early, chan := q.chan) && PL.AllFresh(q)
    requires PL.OnChain(t, p.cur, b) && !p.phase.Draining?
    ensures Stuck(P.Judge(q, b), t, h, id)
  {
    hide IsChain, PL.AllFresh, PL.StaleBelow, P.Lowest, P.Highest, P.Advance, Genuine;
    PL.JudgeFresh(q, b, 0);
    PS.WindowBounds(p.prev, h, h + 1);
    ChainHeight(t, p.cur);
  }

  lemma FreshItems(p: P.Pre)
    requires PL.AllFresh(p)
    ensures PL.StaleBelow(p, 0)
    ensures p.cur in p.early ==>
      PL.OnChain(p.node, p.cur, p.early[p.cur]) && PL.AllFresh(p.(early := p.early - {p.cur}))
    ensures p.chan != [] ==>
      && PL.OnChain(p.node, p.chan[0].height, p.chan[0].id)
      && PL.AllFresh(p.(chan := p.chan[1..], early := p.early[p.chan[0].height := p.chan[0].id]))
  {
    assert p.chan != [] ==> p.chan[0] in p.chan;
    assert forall b | p.chan != [] && b in p.chan[1..] :: b in p.chan;
  }

  /** No step of a quiet time delivers anything. */
  lemma StaysStuck(p: P.Pre, t: seq<BlockId>, h: nat, id: BlockId, f: P.Label)
    requires Stuck(p, t, h, id) && P.Enabled(p, f) && PL.Quiet(f)
    ensures Stuck(P.Step(p, f), t, h, id)
  {
    hide IsChain, P.Judge, P.Track, PL.AllFresh, PL.StaleBelow, PL.OnChain;
    FreshItems(p);
    match f
    case Enter => PL.SameItemsFresh(p, P.Step(p, f), 0);
    case Restart => PL.RestartFresh(p, 0);
    case Discard => PL.TailFresh(p, P.Step(p, f), 0);
    case TakeEarly => JudgeStuck(p, p.(early := p.early - {p.cur}), t, h, id, p.early[p.cur]);
    case Receive =>
      var q := p.(chan := p.chan[1..]);
      PL.TailFresh(p, q, 0);
      if p.chan[0].height == p.cur {
        JudgeStuck(p, q, t, h, id, p.chan[0].id);
      } else if p.chan[0].height < p.cur {
        PL.SameItemsFresh(q, P.Step(p, f), 0);
      }
    case Claim(_) => PL.WorkerFresh(p, f, 0);
    case Check(_) => PL.WorkerFresh(p, f, 0);
    case AskId(_) => PL.WorkerFresh(p, f, 0);
    case AskBlock(_, _) => PL.WorkerFresh(p, f, 0);
    case Send(_) => PL.WorkerFresh(p, f, 0);
  }

  lemma {:induction false} StuckForever(s: System, base: seq<BlockId>, d: seq<BlockId>, t: seq<BlockId>, h: nat, id: BlockId,
                                        schedule: nat -> Label, n: nat)
    requires Inv(s, base, d) && Stuck(s.fetch, t, h, id) && QuietFrom(schedule, 0)
    ensures Inv(After(s, schedule, n), base, d) && Stuck(After(s, schedule, n).fetch, t, h, id)
    ensures After(s, schedule, n).store.Ok? && S.Live(After(s, schedule, n).store.value) == d
    decreases n
  {
    hide Inv, Stuck, S.Live, Step, P.Enabled, Best;
    if n > 0 {
      StuckForever(s, base, d, t, h, id, schedule, n - 1);
      var q, l := After(s, schedule, n - 1), schedule(n - 1);
      if Enabled(q, l) {
        StepKeeps(q, base, d, l);
        StuckStep(q, t, h, id, l);
      }
    }
    NothingDelivered(After(s, schedule, n), base, d, t, h, id);
  }

  lemma StuckStep(s: System, t: seq<BlockId>, h: nat, id: BlockId, l: Label)
    requires Stuck(s.fetch, t, h, id) && Enabled(s, l) && Quiet(l)
    ensures Stuck(Step(s, l).fetch, t, h, id)
  {
    hide Stuck, P.Step, P.Enabled, S.InsertBlock, S.CommitOne, PL.Quiet;
    if l.Fetch? {
      StaysStuck(s.fetch, t, h, id, l.l);
    }
  }

  lemma NothingDelivered(s: System, base: seq<BlockId>, d: seq<BlockId>, t: seq<BlockId>, h: nat, id: BlockId)
    requires Inv(s, base, d) && Stuck(s.fetch, t, h, id)
    ensures s.store.Ok? && S.Live(s.store.value) == d
  {
    hide P.Inv, S.Inv, S.Live, S.Visible, IsChain, P.Folded;
  }

  lemma StartStuck(db: D.Db, mode: S.Mode, head: nat, node: seq<BlockId>, threads: nat, fastEnd: nat)
    requires S.DbInv(db) && IsChain(node) && threads > 0
    requires |S.Visible(db)| <= head + 1 && |S.Visible(db)| < |node| && !WithinReach(S.Visible(db), node)
    ensures Start(db, mode, head, node, threads, fastEnd).Some?
    ensures var s, d := Start(db, mode, head, node, threads, fastEnd).value, S.Visible(db);
      d != [] && Inv(s, StartBase(d), d) && Stuck(s.fetch, node, StartHeight(|d|), d[StartHeight(|d|)])
  {
    hide S.DbInv, IsChain, Inv, Start, S.Visible, S.Live;
    StartKeeps(db, mode, head, node, threads, fastEnd);
  }

  /** Restarting after anything at all, on a node whose chain is longer than the one in the
      database and stays: along every fair schedule the live chain becomes the node's if and
      only if the block it continues from is on that chain or is the genesis block. */
  lemma RestartCatchesUpExactlyWhen(db: D.Db, mode: S.Mode, head: nat, node: seq<BlockId>, threads: nat, fastEnd: nat,
                                    schedule: nat -> Label)
    requires S.DbInv(db) && IsChain(node) && threads > 0
    requires |S.Visible(db)| <= head + 1 && |S.Visible(db)| < |node|
    requires QuietFrom(schedule, 0)
    requires var start := Start(db, mode, head, node, threads, fastEnd);
      start.Some? ==> Fair(start.value, schedule, 0)
    ensures Start(db, mode, head, node, threads, fastEnd).Some?
    ensures var s := Start(db, mode, head, node, threads, fastEnd).value;
      (exists k: nat :: CaughtUp(After(s, schedule, k), node)) <==> WithinReach(S.Visible(db), node)
  {
    hide S.DbInv, IsChain, Settled, Start, Fair, CaughtUp, S.Visible, QuietFrom, WithinReach, Inv, Stuck, S.Live;
    var d := S.Visible(db);
    if WithinReach(d, node) {
      StartSettled(db, mode, head, node, threads, fastEnd);
      var s := Start(db, mode, head, node, threads, fastEnd).value;
      assert After(s, schedule, 0) == s;
      CatchesUp(s, StartBase(d), d, 0, schedule, 0);
    } else {
      StartStuck(db, mode, head, node, threads, fastEnd);
      var s := Start(db, mode, head, node, threads, fastEnd).value;
      forall k: nat ensures !CaughtUp(After(s, schedule, k), node) {
        OutOfReach(db, s, node, schedule, k);
      }
    }
  }

  lemma OutOfReach(db: D.Db, s: System, node: seq<BlockId>, schedule: nat -> Label, k: nat)
    requires var d := S.Visible(db);
      && d != [] && |d| < |node| && Inv(s, StartBase(d), d)
      && Stuck(s.fetch, node, StartHeight(|d|), d[StartHeight(|d|)])
    requires QuietFrom(schedule, 0)
    ensures !CaughtUp(After(s, schedule, k), node)
  {
    hide Inv, Stuck, S.Live, S.Visible;
    var d := S.Visible(db);
    StuckForever(s, StartBase(d), d, node, StartHeight(|d|), d[StartHeight(|d|)], schedule, k);
  }

  /** A reorg that happened while the program was down is recovered if and only if it replaced
      no more than the last 100 blocks of the database's chain, or that chain has no more than
      101. */
  lemma RecoversAHundredBlocks(db: D.Db, mode: S.Mode, head: nat, node: seq<BlockId>, threads: nat, fastEnd: nat,
                               schedule: nat -> Label)
    requires S.DbInv(db) && IsChain(node) && threads > 0
    requires |S.Visible(db)| <= head + 1 && |S.Visible(db)| < |node|
    requires QuietFrom(schedule, 0)
    requires var start := Start(db, mode, head, node, threads, fastEnd);
      start.Some? ==> Fair(start.value, schedule, 0)
    ensures Start(db, mode, head, node, threads, fastEnd).Some?
    ensures var s, d := Start(db, mode, head, node, threads, fastEnd).value, S.Visible(db);
      (exists k: nat :: CaughtUp(After(s, schedule, k), node)) <==> |d| <= 101 || d[..|d| - 100] <= node
  {
    hide S.DbInv, IsChain, Start, Fair, CaughtUp, S.Visible, QuietFrom, WithinReach, After;
    RestartCatchesUpExactlyWhen(db, mode, head, node, threads, fastEnd, schedule);
    VisibleIsChain(db);
    WithinReachIs(S.Visible(db), node);
  }
}
