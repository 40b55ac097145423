/** Convergence of the fetcher.  Once the node stays on one chain that outgrows everything on
    its way, and the fork is inside the retained window, the folded output becomes the node's
    chain: every productive step decreases a lexicographic measure, some productive step is
    possible until the goal is reached, and nothing moves it afterwards.  Also: stopping the
    workers always terminates. */
module PrefetchLive {
  import opened Chain
  import opened PrefetchSpec
  import opened PrefetchSafety

  // ---------------------------------------------------------------- common prefix

  /** How many blocks two chains share from genesis on. */
  function Agree(f: seq<BlockId>, t: seq<BlockId>): (a: nat)
    ensures a <= |f| && a <= |t|
  {
    if f == [] || t == [] || f[0] != t[0] then 0 else 1 + Agree(f[1..], t[1..])
  }

  lemma {:induction false} AgreeMeaning(f: seq<BlockId>, t: seq<BlockId>)
    ensures var a := Agree(f, t);
      f[..a] == t[..a] && (a < |f| && a < |t| ==> f[a] != t[a])
  {
    if f != [] && t != [] && f[0] == t[0] {
      AgreeMeaning(f[1..], t[1..]);
      var a := Agree(f, t);
      assert f[..a] == [f[0]] + f[1..][..a - 1] && t[..a] == [t[0]] + t[1..][..a - 1];
    }
  }

  lemma {:induction false} AgreeUnique(f: seq<BlockId>, t: seq<BlockId>, a: nat)
    requires a <= |f| && a <= |t| && f[..a] == t[..a]
    requires a < |f| && a < |t| ==> f[a] != t[a]
    ensures Agree(f, t) == a
  {
    if a > 0 {
      assert f[..a][0] == t[..a][0];
      assert f[1..][..a - 1] == f[..a][1..] && t[1..][..a - 1] == t[..a][1..];
      AgreeUnique(f[1..], t[1..], a - 1);
    }
  }

  lemma AgreeShorter(f: seq<BlockId>, t: seq<BlockId>, n: nat)
    requires 0 < n <= |f|
    ensures Agree(f[..n - 1], t) == if Agree(f[..n], t) < n then Agree(f[..n], t) else n - 1
  {
    AgreeMeaning(f[..n], t);
    var a := Agree(f[..n], t);
    var b := if a < n then a else n - 1;
    assert f[..n][..a] == f[..a] && f[..n - 1][..b] == f[..b];
    assert f[..a][..b] == f[..b] && t[..a][..b] == t[..b];
    AgreeUnique(f[..n - 1], t, b);
  }

  /** Linked chains that agree at one height agree below it. */
  lemma AgreeLinked(f: seq<BlockId>, t: seq<BlockId>, n: nat)
    requires IsChain(f) && IsChain(t) && 0 < n <= |f| && n <= |t|
    ensures f[n - 1] == t[n - 1] <==> Agree(f[..n], t) == n
  {
    AgreeMeaning(f[..n], t);
    assert f[..n][..n] == f[..n];
    assert f[..n][n - 1] == f[n - 1] && t[..n][n - 1] == t[n - 1];
    if f[n - 1] == t[n - 1] {
      SharedBlock(f, t, n - 1, n - 1);
      AgreeUnique(f[..n], t, n);
    }
  }

  lemma AgreeSnoc(f: seq<BlockId>, t: seq<BlockId>, id: BlockId)
    requires |f| < |t|
    ensures Agree(f + [id], t) == if Agree(f, t) == |f| && t[|f|] == id then |f| + 1 else Agree(f, t)
  {
    AgreeMeaning(f, t);
    var a := Agree(f, t);
    var g := f + [id];
    assert g[..a] == f[..a];
    if a == |f| && t[a] == id {
      assert g == t[..a + 1];
      assert g[..a + 1] == g;
      AgreeUnique(g, t, a + 1);
    } else {
      AgreeUnique(g, t, a);
    }
  }

  // ---------------------------------------------------------------- sums over workers

  function Sum(ws: seq<Worker>, cost: Worker -> nat): nat {
    if ws == [] then 0 else cost(ws[0]) + Sum(ws[1..], cost)
  }

  lemma {:induction false} SumUpdate(ws: seq<Worker>, w: nat, x: Worker, cost: Worker -> nat)
    requires w < |ws|
    ensures Sum(ws[w := x], cost) + cost(ws[w]) == Sum(ws, cost) + cost(x)
  {
    if w == 0 {
      assert ws[w := x][1..] == ws[1..];
    } else {
      assert ws[w := x][1..] == ws[1..][w - 1 := x];
      SumUpdate(ws[1..], w - 1, x, cost);
    }
  }

  // ---------------------------------------------------------------- the measure

  predicate OnChain(node: seq<BlockId>, h: nat, id: BlockId) {
    h < |node| && node[h] == id
  }

  /** Nothing fetched from an earlier chain of the node is on its way. */
  predicate AllFresh(p: Pre) {
    && (forall h | h in p.early :: OnChain(p.node, h, p.early[h]))
    && (forall b | b in p.chan :: OnChain(p.node, b.height, b.id))
    && (forall x | x in p.workers && (x.HasId? || x.Ready?) :: OnChain(p.node, x.h, x.id))
  }

  /** Whatever is on its way and not on the node's chain is lower than `s`. */
  ghost predicate StaleBelow(p: Pre, s: nat) {
    && (forall h | h in p.early && !OnChain(p.node, h, p.early[h]) :: h < s)
    && (forall b | b in p.chan && !OnChain(p.node, b.height, b.id) :: b.height < s)
    && (forall x | x in p.workers && (x.HasId? || x.Ready?) && !OnChain(p.node, x.h, x.id) :: x.h < s)
  }

  /** The height the consumer is at, or will be at after the reset it is doing. */
  function Target(p: Pre): nat {
    if p.phase == Draining(true) && p.cur > 0 then p.cur - 1 else p.cur
  }

  function Shared(p: Pre, f: seq<BlockId>): nat
    requires p.cur <= |f|
  {
    Agree(f[..Target(p)], p.node)
  }

  function Oldest(p: Pre): nat {
    if p.prev == map[] then 0 else Lowest(p.prev)
  }

  /** The fork stays inside the window, also after everything stale has been delivered. */
  ghost predicate ForkInWindow(p: Pre, f: seq<BlockId>, s: nat)
    requires p.cur <= |f|
  {
    var oldest := Oldest(p);
    var later := if s > WINDOW && s - WINDOW > oldest then s - WINDOW else oldest;
    && (oldest == 0 || oldest < Shared(p, f))
    && (InGeneration(p) && !AllFresh(p) ==> later == 0 || later + 1 < Shared(p, f))
  }

  /** The node's chain outgrows everything delivered and everything stale on its way. */
  ghost predicate Settled(p: Pre, base: seq<BlockId>, s: nat) {
    var f := Folded(base, p.out);
    && Inv(p, base)
    && !p.phase.Halted?
    && p.cur <= |f|
    && (f <= p.node || |f| < |p.node|)
    && s < |p.node|
    && StaleBelow(p, s)
    && ForkInWindow(p, f, s)
  }

  function FetchCost(top: nat): Worker -> nat {
    (x: Worker) =>
      match x
      case Idle => 1
      case Claimed(h) => if h < top then 9 else 0
      case Asking(h) => if h < top then 8 else 0
      case HasId(_, _) => 7
      case Ready(_, _) => 6
      case Exited => 0
  }

  function ExitCost(): Worker -> nat {
    (x: Worker) =>
      match x
      case Idle => 2
      case Claimed(_) => 1
      case Asking(_) => 6
      case HasId(_, _) => 5
      case Ready(_, _) => 4
      case Exited => 0
  }

  function StaleCost(node: seq<BlockId>): Worker -> nat {
    (x: Worker) => if x.HasId? && !OnChain(node, x.h, x.id) then 1 else 0
  }

  /** Work left until the workers are gone. */
  function ExitWork(p: Pre): nat {
    Sum(p.workers, ExitCost()) + |p.chan|
  }

  /** Work left in this generation before every height below the top has been received. */
  function FetchWork(p: Pre): nat {
    var top := |p.node|;
    (if p.next < top then 9 * (top - p.next) else 0) + Sum(p.workers, FetchCost(top)) + 2 * |p.chan| + |p.early|
  }

  datatype Measure = Measure(stale: nat, back: nat, left: nat, control: nat, ids: nat, work: nat)

  predicate Less(m: Measure, n: Measure) {
    m.stale < n.stale || (m.stale == n.stale && (
    m.back < n.back || (m.back == n.back && (
    m.left < n.left || (m.left == n.left && (
    m.control < n.control || (m.control == n.control && (
    m.ids < n.ids || (m.ids == n.ids &&
    m.work < n.work)))))))))
  }

  function MeasureOf(p: Pre, f: seq<BlockId>): Measure
    requires p.cur <= |f| && p.cur <= |p.node|
  {
    Measure(
      if AllFresh(p) then 0 else if p.phase == Draining(true) then 1 else 2,
      if AllFresh(p) then Target(p) - Shared(p, f) else 0,
      |p.node| - Target(p),
      if p.phase.Entry? then 3 else if p.phase.Draining? then 2 else 1,
      Sum(p.workers, StaleCost(p.node)),
      if p.phase.Draining? then ExitWork(p) else FetchWork(p))
  }

  /** Steps of a quiet time: the node stays where it is and answers. */
  predicate Quiet(l: Label) {
    !l.NodeMoves? && !l.RpcError?
  }

  /** A worker polling for a height the node does not have yet. */
  predicate Polling(p: Pre, l: Label) {
    !p.finish && (l.Check? || l.AskId?) && l.w < |p.workers|
    && ((p.workers[l.w].Claimed? && p.workers[l.w].h >= |p.node|)
        || (p.workers[l.w].Asking? && p.workers[l.w].h >= |p.node|))
  }

  predicate Productive(p: Pre, l: Label) {
    Enabled(p, l) && Quiet(l) && !Polling(p, l)
  }

  // ---------------------------------------------------------------- shutdown

  /** Stopping the workers, whatever the node does: every step of a worker or of the draining
      consumer brings the end nearer. */
  lemma ExitDecreases(p: Pre, base: seq<BlockId>, l: Label)
    requires Inv(p, base) && p.phase.Draining? && Enabled(p, l) && !l.NodeMoves? && !l.Restart?
    ensures Step(p, l).phase == p.phase && ExitWork(Step(p, l)) < ExitWork(p)
  {
    hide Inv, RealItems, WindowOk, AllFit, Folded;
    assert p.finish by {
      FinishSet(p, base);
    }
    if WorkerLabel(l) {
      SumUpdate(p.workers, l.w, Step(p, l).workers[l.w], ExitCost());
    }
  }

  lemma FinishSet(p: Pre, base: seq<BlockId>)
    requires Inv(p, base) && p.phase.Draining?
    ensures p.finish && p.threads > 0
  {
    hide IsChain, RealItems, WindowOk, AllFit, Folded;
  }

  /** A worker's next own step. */
  function OwnStep(x: Worker, w: nat): Label {
    match x
    case Idle => Claim(w)
    case Claimed(_) => Check(w)
    case Asking(_) => AskId(w)
    case HasId(_, _) => AskBlock(w, true)
    case Ready(_, _) => Send(w)
    case Exited => Check(w)
  }

  /** Draining never gets stuck: with a full channel the consumer discards, with an empty one
      a worker that has not exited can move, and when all have exited the restart follows. */
  lemma ExitProgress(p: Pre, base: seq<BlockId>)
    requires Inv(p, base) && p.phase.Draining?
    ensures p.chan != [] ==> Enabled(p, Discard)
    ensures p.chan == [] && !Enabled(p, Restart) ==>
      exists w :: 0 <= w < |p.workers| && !p.workers[w].Exited? && Enabled(p, OwnStep(p.workers[w], w))
  {
    FinishSet(p, base);
    if p.chan == [] && !Enabled(p, Restart) {
      var x :| x in p.workers && !x.Exited?;
      var w :| 0 <= w < |p.workers| && p.workers[w] == x;
      assert Enabled(p, OwnStep(p.workers[w], w));
    }
  }

  /** How many blocks a worker may still send once the finish flag is set. */
  function SendsLeft(x: Worker): nat {
    if x.Asking? || x.HasId? || x.Ready? then 1 else 0
  }

  /** How often worker `w` really sends along a run. */
  function SentBy(p: Pre, ls: seq<Label>, w: nat): nat {
    if ls == [] then 0
    else
      var init, last := ls[..|ls| - 1], ls[|ls| - 1];
      SentBy(p, init, w) + (if last == Send(w) && Enabled(Run(p, init), last) then 1 else 0)
  }

  lemma DrainStep(p: Pre, l: Label, w: nat)
    requires p.phase.Draining? && p.finish && Enabled(p, l) && !l.Restart? && w < |p.workers|
    ensures var q := Step(p, l);
      && q.phase == p.phase && q.finish && |q.workers| == |p.workers|
      && SendsLeft(q.workers[w]) + (if l == Send(w) then 1 else 0) <= SendsLeft(p.workers[w])
  {
  }

  /** Between the finish flag and the restart a worker sends at most one block, and none if it
      was not asking for one already, whatever the node and the others do. */
  lemma {:induction false} OneSendAtMost(p: Pre, ls: seq<Label>, w: nat)
    requires p.phase.Draining? && p.finish && w < |p.workers|
    requires forall l | l in ls :: !l.Restart?
    ensures var q := Run(p, ls);
      && q.phase == p.phase && q.finish && |q.workers| == |p.workers|
      && SentBy(p, ls, w) + SendsLeft(q.workers[w]) <= SendsLeft(p.workers[w]) <= 1
  {
    hide Step, Enabled;
    if ls != [] {
      var init, last := ls[..|ls| - 1], ls[|ls| - 1];
      OneSendAtMost(p, init, w);
      if Enabled(Run(p, init), last) {
        DrainStep(Run(p, init), last, w);
      }
    }
  }

  // ---------------------------------------------------------------- one step

  /** Steps that leave the consumer where it is. */
  lemma FrameSettled(p: Pre, q: Pre, base: seq<BlockId>, s: nat)
    requires Settled(p, base, s) && Inv(q, base) && !q.phase.Halted?
    requires q.node == p.node && q.out == p.out && q.cur == p.cur && q.prev == p.prev && Target(q) == Target(p)
    requires AllFresh(p) ==> AllFresh(q)
    requires StaleBelow(q, s) && (InGeneration(q) ==> InGeneration(p))
    requires p.phase == Draining(true) ==> q.phase == Draining(true)
    ensures Settled(q, base, s) && p.cur <= |p.node|
    ensures var m, n := MeasureOf(q, Folded(base, q.out)), MeasureOf(p, Folded(base, p.out));
      m.stale < n.stale || (m.stale == n.stale && m.back == n.back && m.left == n.left)
  {
    hide Inv, AllFresh, StaleBelow, Folded, Agree, FetchWork, ExitWork, Sum;
  }

  /** A fixed node makes nothing stale: what a worker learns now is on the node's chain. */
  lemma WorkerFresh(p: Pre, l: Label, s: nat)
    requires Enabled(p, l) && WorkerLabel(l) && StaleBelow(p, s)
    ensures StaleBelow(Step(p, l), s) && (AllFresh(p) ==> AllFresh(Step(p, l)))
  {
    var q := Step(p, l);
    UpdateMembers(p.workers, l.w, q.workers[l.w]);
    assert p.workers[l.w] in p.workers;
  }

  /** A worker that holds a block holds one the node has, or had below `s`. */
  lemma HeldBelowTop(p: Pre, s: nat, x: Worker)
    requires StaleBelow(p, s) && s < |p.node| && x in p.workers && (x.HasId? || x.Ready?)
    ensures x.h < |p.node|
  {
  }

  lemma FetchDecreases(p: Pre, l: Label, s: nat)
    requires Enabled(p, l) && WorkerLabel(l) && Quiet(l) && StaleBelow(p, s) && s < |p.node|
    requires !p.finish && forall x | x in p.workers :: !x.Exited?
    ensures var q := Step(p, l);
      if Polling(p, l) then
        FetchWork(q) == FetchWork(p) && Sum(q.workers, StaleCost(p.node)) == Sum(p.workers, StaleCost(p.node))
      else
        Sum(q.workers, StaleCost(p.node)) < Sum(p.workers, StaleCost(p.node))
        || (Sum(q.workers, StaleCost(p.node)) == Sum(p.workers, StaleCost(p.node)) && FetchWork(q) < FetchWork(p))
  {
    hide StaleBelow, Sum;
    var q, x := Step(p, l), p.workers[l.w];
    var y := q.workers[l.w];
    SumUpdate(p.workers, l.w, y, FetchCost(|p.node|));
    SumUpdate(p.workers, l.w, y, StaleCost(p.node));
    if x.HasId? || x.Ready? {
      HeldBelowTop(p, s, x);
    }
  }

  lemma StaleCountShrinks(p: Pre, l: Label)
    requires Enabled(p, l) && WorkerLabel(l)
    ensures Sum(Step(p, l).workers, StaleCost(p.node)) <= Sum(p.workers, StaleCost(p.node))
  {
    SumUpdate(p.workers, l.w, Step(p, l).workers[l.w], StaleCost(p.node));
  }

  lemma PhaseFacts(p: Pre, base: seq<BlockId>)
    requires Inv(p, base)
    ensures InGeneration(p) ==> !p.finish && p.cur <= p.next && Partition(p) && forall x | x in p.workers :: !x.Exited?
    ensures p.phase == Draining(true) ==> p.prev != map[] && Lowest(p.prev) < p.cur
    ensures p.cur <= |Folded(base, p.out)| && p.threads > 0 && |p.workers| == p.threads
    ensures IsChain(p.node) && IsChain(Folded(base, p.out)) && RealItems(p) && WindowOk(p, Folded(base, p.out))
  {
    hide IsChain, RealItems, AllFit, Folded, Partition;
  }

  /** The conclusion for every step: still settled, and the measure goes down unless a worker
      polls above the top. */
  ghost predicate Progressed(p: Pre, q: Pre, base: seq<BlockId>, s: nat, polling: bool) {
    && Settled(q, base, s)
    && q.node == p.node
    && p.cur <= |Folded(base, p.out)| && p.cur <= |p.node| && q.cur <= |q.node|
    && var m, n := MeasureOf(q, Folded(base, q.out)), MeasureOf(p, Folded(base, p.out));
       Less(m, n) || (polling && (m == n || Less(m, n)))
  }

  lemma WorkerProgress(p: Pre, base: seq<BlockId>, s: nat, l: Label)
    requires Settled(p, base, s) && Enabled(p, l) && WorkerLabel(l) && Quiet(l)
    ensures Progressed(p, Step(p, l), base, s, Polling(p, l))
  {
    hide Inv, AllFresh, StaleBelow, Folded, Agree, FetchWork, ExitWork, Sum, Partition;
    var q := Step(p, l);
    StepKeeps(p, base, l);
    WorkerFresh(p, l, s);
    PhaseFacts(p, base);
    FrameSettled(p, q, base, s);
    if p.phase.Draining? {
      FinishSet(p, base);
      ExitDecreases(p, base, l);
      StaleCountShrinks(p, l);
    } else {
      FetchDecreases(p, l, s);
    }
  }

  lemma EnterProgress(p: Pre, base: seq<BlockId>, s: nat)
    requires Settled(p, base, s) && Enabled(p, Enter)
    ensures Progressed(p, Step(p, Enter), base, s, false)
  {
    hide Inv, AllFresh, StaleBelow, Folded, Agree, FetchWork, ExitWork, Sum;
    var q := Step(p, Enter);
    StepKeeps(p, base, Enter);
    SameItemsFresh(p, q, s);
    FrameSettled(p, q, base, s);
  }

  lemma SameItemsFresh(p: Pre, q: Pre, s: nat)
    requires q.node == p.node && q.early == p.early && q.chan == p.chan && q.workers == p.workers
    ensures AllFresh(q) == AllFresh(p)
    ensures StaleBelow(q, s) <==> StaleBelow(p, s)
  {
  }

  lemma DiscardProgress(p: Pre, base: seq<BlockId>, s: nat)
    requires Settled(p, base, s) && Enabled(p, Discard)
    ensures Progressed(p, Step(p, Discard), base, s, false)
  {
    hide Inv, AllFresh, StaleBelow, Folded, Agree, FetchWork, Sum;
    var q := Step(p, Discard);
    StepKeeps(p, base, Discard);
    TailFresh(p, q, s);
    FrameSettled(p, q, base, s);
  }

  lemma TailFresh(p: Pre, q: Pre, s: nat)
    requires p.chan != [] && q == p.(chan := p.chan[1..]) && StaleBelow(p, s)
    ensures StaleBelow(q, s) && (AllFresh(p) ==> AllFresh(q))
  {
    assert forall b | b in q.chan :: b in p.chan;
  }

  /** Putting an early block aside. */
  lemma AsideProgress(p: Pre, base: seq<BlockId>, s: nat)
    requires Settled(p, base, s) && Enabled(p, Receive) && p.chan[0].height != p.cur
    ensures Progressed(p, Step(p, Receive), base, s, false)
  {
    hide Inv, AllFresh, StaleBelow, Folded, Agree, Sum;
    var q, b := Step(p, Receive), p.chan[0];
    StepKeeps(p, base, Receive);
    ReceiveKeeps(p, base);
    AsideFresh(p, s);
    FrameSettled(p, q, base, s);
    assert q.early == p.early[b.height := b.id] && |q.early| == |p.early| + 1;
  }

  lemma AsideFresh(p: Pre, s: nat)
    requires Enabled(p, Receive) && StaleBelow(p, s) && p.chan[0].height > p.cur
    ensures StaleBelow(Step(p, Receive), s) && (AllFresh(p) ==> AllFresh(Step(p, Receive)))
  {
    assert p.chan[0] in p.chan;
    assert forall b | b in p.chan[1..] :: b in p.chan;
  }

  lemma RestartProgress(p: Pre, base: seq<BlockId>, s: nat)
    requires Settled(p, base, s) && Enabled(p, Restart)
    ensures Progressed(p, Step(p, Restart), base, s, false)
  {
    hide Inv, Folded, Agree, FetchWork, ExitWork, Sum, AllFresh, StaleBelow, WindowOk, RealItems, Partition, IsChain;
    StepKeeps(p, base, Restart);
    PhaseFacts(p, base);
    PhaseFacts(Step(p, Restart), base);
    RestartFresh(p, s);
    TargetBelowTop(p, base, s);
  }

  lemma RestartFresh(p: Pre, s: nat)
    requires Enabled(p, Restart)
    ensures Step(p, Restart).phase.Halted? || (AllFresh(Step(p, Restart)) && StaleBelow(Step(p, Restart), s))
  {
  }

  /** The consumer never waits above the node's top. */
  lemma TargetBelowTop(p: Pre, base: seq<BlockId>, s: nat)
    requires Settled(p, base, s)
    ensures p.cur <= |p.node| && Target(p) <= p.cur
  {
    hide Inv, Folded, AllFresh, StaleBelow, ForkInWindow;
  }

  // ---------------------------------------------------------------- judging the current block

  /** The block for the current height comes from the node's chain, or from below `s`. */
  ghost predicate Origin(p: Pre, id: BlockId, s: nat) {
    OnChain(p.node, p.cur, id) || (!AllFresh(p) && p.cur < s)
  }

  /** `q` is `p` with the current block taken out. */
  ghost predicate TakenOut(p: Pre, q: Pre, s: nat) {
    && q == p.(early := q.early, chan := q.chan)
    && (AllFresh(p) ==> AllFresh(q)) && StaleBelow(q, s)
  }

  lemma JudgeProgress(p: Pre, q: Pre, base: seq<BlockId>, s: nat, id: BlockId)
    requires Settled(p, base, s) && p.phase.Serving? && TakenOut(p, q, s) && Origin(p, id, s)
    requires RealId(p.cur, id) && Inv(Judge(q, id), base)
    ensures Progressed(p, Judge(q, id), base, s, false)
  {
    hide Inv, AllFresh, StaleBelow, Folded, Agree, FetchWork, ExitWork, Sum, Track, WindowOk, RealId;
    var r, f := Judge(q, id), Folded(base, p.out);
    PhaseFacts(p, base);
    TargetBelowTop(p, base, s);
    SameWindow(p, q, f);
    JudgeWindow(q, f, id);
    JudgeFresh(q, id, s);
    match r.phase
    case Entry => AcceptProgress(p, q, base, s, id);
    case Draining(_) => MismatchProgress(p, q, base, s, id);
    case Halted(_) =>
    case Serving =>
  }

  lemma JudgeFresh(q: Pre, id: BlockId, s: nat)
    ensures AllFresh(Judge(q, id)) == AllFresh(q)
    ensures StaleBelow(Judge(q, id), s) <==> StaleBelow(q, s)
  {
    SameItemsFresh(q, Judge(q, id), s);
  }

  lemma AcceptProgress(p: Pre, q: Pre, base: seq<BlockId>, s: nat, id: BlockId)
    requires Settled(p, base, s) && p.phase.Serving? && TakenOut(p, q, s) && Origin(p, id, s)
    requires RealId(p.cur, id) && Inv(Judge(q, id), base) && Judge(q, id).phase.Entry?
    ensures Progressed(p, Judge(q, id), base, s, false)
  {
    hide Inv, AllFresh, StaleBelow, Agree, FetchWork, ExitWork, Sum, WindowFor, WindowIs, RealId, Track, IsChain, Partition,
         RealItems, Lowest;
    var r, f := Judge(q, id), Folded(base, p.out);
    var b := Block(p.cur, id);
    PhaseFacts(p, base);
    SameWindow(p, q, f);
    JudgeWindow(q, f, id);
    JudgeFresh(q, id, s);
    AcceptChain(f, p.node, p.cur, id);
    AcceptOldest(p, q, f, id);
    TargetBelowTop(p, base, s);
    assert r.out[..|r.out| - 1] == p.out;
    assert Folded(base, r.out) == Insert(f, b);
    hide Folded, WindowOk;
    var f' := Insert(f, b);
    assert f'[..p.cur + 1] == f';
    assert Shared(r, f') == Agree(f', p.node);
  }

  /** The agreement with the node's chain after accepting a block. */
  lemma AcceptChain(f: seq<BlockId>, t: seq<BlockId>, cur: nat, id: BlockId)
    requires IsChain(f) && IsChain(t) && cur <= |f| && cur < |t| && Fits(f, Block(cur, id))
    ensures t[cur] == id ==> Agree(f[..cur], t) == cur && Agree(f[..cur] + [id], t) == cur + 1
                             && f[..cur] + [id] <= t
    ensures t[cur] != id ==> Agree(f[..cur] + [id], t) == Agree(f[..cur], t)
  {
    hide Agree;
    AgreeSnoc(f[..cur], t, id);
    if t[cur] == id {
      ChainHeight(t, cur);
      if cur > 0 {
        assert f[cur - 1] == t[cur - 1];
        AgreeLinked(f, t, cur);
      }
      AgreeMeaning(f[..cur] + [id], t);
    }
  }

  lemma AcceptOldest(p: Pre, q: Pre, f: seq<BlockId>, id: BlockId)
    requires WindowOk(p, f) && q == p.(early := q.early, chan := q.chan) && Judge(q, id).phase.Entry?
    requires IsChain(f) && RealId(p.cur, id)
    ensures Oldest(Judge(q, id)) == NextLo(Oldest(p), p.cur)
  {
    hide IsChain, RealId;
    if p.prev == map[] {
      TrackFirst(id);
      WindowBounds(map[0 := id], 0, 1);
    } else {
      var lo, hi := Lowest(p.prev), Lowest(p.prev) + |p.prev|;
      TrackExact(p.prev, p.cur, f, lo, hi, id);
      WindowBounds(Judge(q, id).prev, NextLo(lo, p.cur), NextHi(hi, p.cur));
    }
  }

  lemma MismatchProgress(p: Pre, q: Pre, base: seq<BlockId>, s: nat, id: BlockId)
    requires Settled(p, base, s) && p.phase.Serving? && TakenOut(p, q, s) && Origin(p, id, s)
    requires RealId(p.cur, id) && Inv(Judge(q, id), base) && Judge(q, id).phase.Draining?
    ensures Progressed(p, Judge(q, id), base, s, false)
  {
    hide Inv, AllFresh, StaleBelow, Agree, FetchWork, ExitWork, Sum, WindowFor, WindowIs, RealId, Folded, IsChain, Partition,
         RealItems;
    var r, f := Judge(q, id), Folded(base, p.out);
    PhaseFacts(p, base);
    PhaseFacts(r, base);
    JudgeFresh(q, id, s);
    TargetBelowTop(p, base, s);
    hide WindowOk;
    AgreeShorter(f, p.node, p.cur);
    if OnChain(p.node, p.cur, id) {
      ChainHeight(p.node, p.cur);
      MismatchParent(q, f, id);
      AgreeLinked(f, p.node, p.cur);
    }
  }

  lemma MismatchParent(q: Pre, f: seq<BlockId>, id: BlockId)
    requires WindowOk(q, f) && IsChain(f) && RealId(q.cur, id) && Judge(q, id).phase.Draining?
    ensures 0 < q.cur <= |f| && id.Hash? && f[q.cur - 1] != id.prev
  {
    hide IsChain;
    RealParent(q.cur, id);
    if q.prev != map[] {
      TrackExact(q.prev, q.cur, f, Lowest(q.prev), Lowest(q.prev) + |q.prev|, id);
    } else {
      TrackFirst(id);
    }
  }

  lemma EarlyFresh(p: Pre, s: nat)
    requires p.cur in p.early && StaleBelow(p, s)
    ensures TakenOut(p, p.(early := p.early - {p.cur}), s) && Origin(p, p.early[p.cur], s)
  {
  }

  lemma TakeEarlyProgress(p: Pre, base: seq<BlockId>, s: nat)
    requires Settled(p, base, s) && Enabled(p, TakeEarly)
    ensures Progressed(p, Step(p, TakeEarly), base, s, false)
  {
    hide Inv, Folded, Track, WindowOk, RealId, ForkInWindow, MeasureOf, Judge, AllFresh, StaleBelow, Less;
    StepKeeps(p, base, TakeEarly);
    PhaseFacts(p, base);
    EarlyFresh(p, s);
    JudgeProgress(p, p.(early := p.early - {p.cur}), base, s, p.early[p.cur]);
  }

  lemma ReceiveCurrentProgress(p: Pre, base: seq<BlockId>, s: nat)
    requires Settled(p, base, s) && Enabled(p, Receive) && p.chan[0].height == p.cur
    ensures Progressed(p, Step(p, Receive), base, s, false)
  {
    var q, id := p.(chan := p.chan[1..]), p.chan[0].id;
    hide Inv, Folded, Agree, FetchWork, ExitWork, Sum, Track, WindowOk, RealId, ForkInWindow, MeasureOf, Judge;
    StepKeeps(p, base, Receive);
    PhaseFacts(p, base);
    assert RealId(p.cur, id);
    TailFresh(p, q, s);
    assert Origin(p, id, s) by {
      assert p.chan[0] in p.chan;
    }
    JudgeProgress(p, q, base, s, id);
  }

  /** Every step of a quiet time keeps the situation settled and lowers the measure, unless it
      is a worker polling above the top of the chain, which changes nothing that counts. */
  lemma StepProgress(p: Pre, base: seq<BlockId>, s: nat, l: Label)
    requires Settled(p, base, s) && Enabled(p, l) && Quiet(l)
    ensures Progressed(p, Step(p, l), base, s, Polling(p, l))
  {
    hide Settled, Progressed, Step;
    match l
    case Enter => EnterProgress(p, base, s);
    case Discard => DiscardProgress(p, base, s);
    case Restart => RestartProgress(p, base, s);
    case TakeEarly => TakeEarlyProgress(p, base, s);
    case Receive =>
      if p.chan[0].height == p.cur {
        ReceiveCurrentProgress(p, base, s);
      } else {
        AsideProgress(p, base, s);
      }
    case Claim(_) => WorkerProgress(p, base, s, l);
    case Check(_) => WorkerProgress(p, base, s, l);
    case AskId(_) => WorkerProgress(p, base, s, l);
    case AskBlock(_, _) => WorkerProgress(p, base, s, l);
    case Send(_) => WorkerProgress(p, base, s, l);
  }

  // ---------------------------------------------------------------- no deadlock

  /** The output is the node's chain and the consumer waits for the block after it. */
  ghost predicate Converged(p: Pre, base: seq<BlockId>) {
    Folded(base, p.out) == p.node && p.cur == |p.node| && p.phase != Draining(true)
  }

  lemma {:induction false} SomeHand(ws: seq<Worker>, h: nat)
    requires InHands(ws, h) > 0
    ensures exists w :: 0 <= w < |ws| && HasHeight(ws[w], h) == 1
  {
    if HasHeight(ws[0], h) == 1 {
    } else {
      SomeHand(ws[1..], h);
      var w :| 0 <= w < |ws[1..]| && HasHeight(ws[1..][w], h) == 1;
      assert ws[w + 1] == ws[1..][w];
    }
  }

  lemma {:induction false} NoneBelow(ws: seq<Worker>, w: nat, cur: nat, next: nat)
    requires w < |ws| && next <= cur && !ws[w].Exited?
    requires forall h: nat :: InHands(ws, h) == 0
    ensures ws[w].Idle?
  {
    if !ws[w].Idle? {
      HandsAtLeast(ws, w, ws[w].h);
    }
  }

  lemma {:induction false} SomeInChan(chan: seq<Block>, h: nat)
    requires InChan(chan, h) > 0
    ensures exists i :: 0 <= i < |chan| && chan[i].height == h
  {
    if chan[0].height != h {
      SomeInChan(chan[1..], h);
      var i :| 0 <= i < |chan[1..]| && chan[1..][i].height == h;
      assert chan[i + 1].height == h;
    }
  }

  /** The awaited height is early, in the channel, in a worker's hand, or the very next one to
      be claimed, all workers being free to do so. */
  lemma AwaitedHeightIs(p: Pre)
    requires PhaseOk(p) && InGeneration(p)
    ensures p.cur < p.next ==>
      || p.cur in p.early
      || (exists i :: 0 <= i < |p.chan| && p.chan[i].height == p.cur)
      || (exists w :: 0 <= w < |p.workers| && HasHeight(p.workers[w], p.cur) == 1)
    ensures p.cur >= p.next ==> p.next == p.cur && forall w | 0 <= w < |p.workers| :: p.workers[w].Idle?
  {
    assert Places(p, p.cur) == if p.cur < p.next then 1 else 0;
    if p.cur < p.next {
      if InChan(p.chan, p.cur) > 0 {
        SomeInChan(p.chan, p.cur);
      } else if p.cur !in p.early {
        SomeHand(p.workers, p.cur);
      }
    } else {
      forall w | 0 <= w < |p.workers| ensures p.workers[w].Idle? {
        AllIdle(p, w);
      }
    }
  }

  lemma AllIdle(p: Pre, w: nat)
    requires PhaseOk(p) && InGeneration(p) && p.cur >= p.next && w < |p.workers|
    ensures p.workers[w].Idle?
  {
    forall h: nat ensures InHands(p.workers, h) == 0 {
      assert Places(p, h) == if p.cur <= h < p.next then 1 else 0;
    }
    assert p.workers[w] in p.workers;
    NoneBelow(p.workers, w, p.cur, p.next);
  }

  /** With nothing to receive, the worker that has the awaited height, or can claim it, can
      make progress. */
  lemma AwaitedHeightMoves(p: Pre) returns (w: nat)
    requires p.phase.Serving? && PhaseOk(p) && p.threads > 0 && |p.workers| == p.threads
    requires p.cur !in p.early && p.chan == [] && p.cur < |p.node|
    ensures w < |p.workers| && Productive(p, OwnStep(p.workers[w], w))
    ensures if p.cur < p.next then HasHeight(p.workers[w], p.cur) == 1
            else p.workers[w].Idle? && Step(p, Claim(w)).workers[w] == Claimed(p.cur)
  {
    AwaitedHeightIs(p);
    hide Partition;
    if p.cur < p.next {
      w :| 0 <= w < |p.workers| && HasHeight(p.workers[w], p.cur) == 1;
    } else {
      w := 0;
    }
  }

  /** While the consumer is heading for a height below the node's top, somebody can make
      progress. */
  lemma ProgressPossible(p: Pre, base: seq<BlockId>, s: nat)
    requires Settled(p, base, s) && Target(p) < |p.node|
    ensures exists l :: Productive(p, l)
  {
    PhaseFactsOf(p, base, s);
    PhaseFacts(p, base);
    hide Settled, Inv, Folded, RealItems, WindowOk, Partition;
    if p.phase.Draining? {
      DrainingMoves(p, base);
    } else if p.phase.Entry? {
      assert Productive(p, Enter);
    } else if p.cur in p.early {
      assert Productive(p, TakeEarly);
    } else if p.chan != [] {
      assert Productive(p, Receive);
    } else {
      ServingPhase(p, base, s);
      var _ := AwaitedHeightMoves(p);
    }
  }

  lemma ServingPhase(p: Pre, base: seq<BlockId>, s: nat)
    requires Settled(p, base, s) && !p.phase.Draining? && !p.phase.Entry?
    ensures p.phase.Serving? && PhaseOk(p)
  {
    hide Folded, RealItems, WindowOk, Partition, AllFresh, StaleBelow, ForkInWindow, IsChain, AllFit;
  }

  lemma DrainingMoves(p: Pre, base: seq<BlockId>)
    requires Inv(p, base) && p.phase.Draining?
    ensures exists l :: Productive(p, l)
  {
    hide Inv;
    ExitProgress(p, base);
    FinishSet(p, base);
    if p.chan != [] {
      assert Productive(p, Discard);
    } else if Enabled(p, Restart) {
      assert Productive(p, Restart);
    } else {
      var w :| 0 <= w < |p.workers| && !p.workers[w].Exited? && Enabled(p, OwnStep(p.workers[w], w));
      assert Productive(p, OwnStep(p.workers[w], w));
    }
  }

  lemma TopMeansConverged(p: Pre, base: seq<BlockId>, s: nat)
    requires Settled(p, base, s) && Target(p) >= |p.node|
    ensures Converged(p, base)
  {
    PhaseFactsOf(p, base, s);
    PhaseFacts(p, base);
    TargetBelowTop(p, base, s);
    hide Inv, Folded, AllFresh, StaleBelow, ForkInWindow, RealItems, WindowOk, Partition;
  }

  // ---------------------------------------------------------------- the theorem

  /** The state after `n` steps of a schedule; a label that is not enabled does nothing. */
  function After(p: Pre, schedule: nat -> Label, n: nat): Pre {
    if n == 0 then p
    else
      var q := After(p, schedule, n - 1);
      if Enabled(q, schedule(n - 1)) then Step(q, schedule(n - 1)) else q
  }

  ghost predicate QuietFrom(schedule: nat -> Label, start: nat) {
    forall n: nat | n >= start :: Quiet(schedule(n))
  }

  /** Whenever something productive is possible, something productive happens later. */
  ghost predicate Fair(p: Pre, schedule: nat -> Label, start: nat) {
    forall n: nat | n >= start && exists l :: Productive(After(p, schedule, n), l) ::
      exists m: nat :: m >= n && Productive(After(p, schedule, m), schedule(m))
  }

  ghost function Rank(p: Pre, base: seq<BlockId>): Measure {
    if p.cur <= |Folded(base, p.out)| && p.cur <= |p.node| then MeasureOf(p, Folded(base, p.out))
    else Measure(0, 0, 0, 0, 0, 0)
  }

  lemma StayOrProgress(p: Pre, base: seq<BlockId>, s: nat, schedule: nat -> Label, n: nat)
    requires Settled(After(p, schedule, n), base, s) && Quiet(schedule(n))
    ensures var q, r := After(p, schedule, n), After(p, schedule, n + 1);
      && Settled(r, base, s) && r.node == q.node
      && (Less(Rank(r, base), Rank(q, base)) || Rank(r, base) == Rank(q, base))
      && (Productive(q, schedule(n)) ==> Less(Rank(r, base), Rank(q, base)))
  {
    var q := After(p, schedule, n);
    TargetBelowTop(q, base, s);
    PhaseFactsOf(q, base, s);
    if Enabled(q, schedule(n)) {
      StepProgress(q, base, s, schedule(n));
      PhaseFactsOf(Step(q, schedule(n)), base, s);
    }
    hide Settled, MeasureOf, Less;
  }

  lemma PhaseFactsOf(p: Pre, base: seq<BlockId>, s: nat)
    requires Settled(p, base, s)
    ensures Inv(p, base) && p.cur <= |Folded(base, p.out)|
  {
    hide Inv, Folded, AllFresh, StaleBelow, ForkInWindow;
  }

  /** Between two points of a quiet run the measure never goes up. */
  lemma {:induction false} StaySettled(p: Pre, base: seq<BlockId>, s: nat, schedule: nat -> Label, n: nat, m: nat)
    requires n <= m && Settled(After(p, schedule, n), base, s) && QuietFrom(schedule, n)
    ensures var q, r := After(p, schedule, n), After(p, schedule, m);
      && Settled(r, base, s) && r.node == q.node
      && (Less(Rank(r, base), Rank(q, base)) || Rank(r, base) == Rank(q, base))
    decreases m - n
  {
    hide Settled, Rank;
    if m > n {
      StaySettled(p, base, s, schedule, n, m - 1);
      StayOrProgress(p, base, s, schedule, m - 1);
    }
  }

  lemma FairLater(p: Pre, schedule: nat -> Label, n: nat, m: nat)
    requires n <= m && Fair(p, schedule, n)
    ensures Fair(p, schedule, m)
  {
    hide After, Productive;
  }

  lemma NextProductive(p: Pre, schedule: nat -> Label, start: nat, n: nat) returns (m: nat)
    requires Fair(p, schedule, start) && n >= start && exists l :: Productive(After(p, schedule, n), l)
    ensures m >= n && Productive(After(p, schedule, m), schedule(m))
  {
    hide After, Productive;
    m :| m >= n && Productive(After(p, schedule, m), schedule(m));
  }

  /** Convergence: from a settled situation, along every quiet and fair schedule, the folded
      output becomes the node's chain after finitely many steps. */
  lemma {:induction false} Converges(p: Pre, base: seq<BlockId>, s: nat, schedule: nat -> Label, n: nat)
    requires Settled(After(p, schedule, n), base, s) && QuietFrom(schedule, n) && Fair(p, schedule, n)
    ensures exists k: nat :: k >= n && Converged(After(p, schedule, k), base)
              && After(p, schedule, k).node == After(p, schedule, n).node
    decreases Rank(After(p, schedule, n), base).stale, Rank(After(p, schedule, n), base).back,
              Rank(After(p, schedule, n), base).left, Rank(After(p, schedule, n), base).control,
              Rank(After(p, schedule, n), base).ids, Rank(After(p, schedule, n), base).work
  {
    hide Settled, MeasureOf, After, Productive, Folded, Target, Rank, Fair;
    var q := After(p, schedule, n);
    if Target(q) >= |q.node| {
      TopMeansConverged(q, base, s);
      assert Converged(After(p, schedule, n), base);
    } else {
      ProgressPossible(q, base, s);
      var m := NextProductive(p, schedule, n, n);
      FairLater(p, schedule, n, m + 1);
      StaySettled(p, base, s, schedule, n, m);
      StayOrProgress(p, base, s, schedule, m);
      Converges(p, base, s, schedule, m + 1);
    }
  }

  // ---------------------------------------------------------------- fairness of each party

  datatype Party = OfWorker(w: nat) | Consumer

  predicate Owns(x: Party, l: Label) {
    match l
    case NodeMoves(_) => false
    case Enter => x.Consumer?
    case TakeEarly => x.Consumer?
    case Receive => x.Consumer?
    case Discard => x.Consumer?
    case Restart => x.Consumer?
    case Claim(w) => x == OfWorker(w)
    case Check(w) => x == OfWorker(w)
    case AskId(w) => x == OfWorker(w)
    case AskBlock(w, _) => x == OfWorker(w)
    case RpcError(w) => x == OfWorker(w)
    case Send(w) => x == OfWorker(w)
  }

  function PartyOf(l: Label): (x: Party)
    requires !l.NodeMoves?
    ensures Owns(x, l)
  {
    match l
    case Claim(w) => OfWorker(w)
    case Check(w) => OfWorker(w)
    case AskId(w) => OfWorker(w)
    case AskBlock(w, _) => OfWorker(w)
    case RpcError(w) => OfWorker(w)
    case Send(w) => OfWorker(w)
    case _ => Consumer
  }

  ghost predicate CanMove(p: Pre, x: Party) {
    exists l :: Owns(x, l) && Enabled(p, l)
  }

  /** Weak fairness: again and again each party takes one of its steps or has none to take. */
  ghost predicate FairToAll(p: Pre, schedule: nat -> Label, start: nat) {
    forall x: Party, n: nat | n >= start :: TakesTurn(p, schedule, x, n)
  }

  ghost predicate TakesTurn(p: Pre, schedule: nat -> Label, x: Party, n: nat) {
    exists m: nat :: m >= n && HasTurn(After(p, schedule, m), x, schedule(m))
  }

  ghost predicate HasTurn(p: Pre, x: Party, l: Label) {
    (Owns(x, l) && Enabled(p, l)) || !CanMove(p, x)
  }

  /** A step that is not productive takes nobody else's productive step away. */
  lemma ProductiveStays(p: Pre, l: Label, f: Label)
    requires Productive(p, l) && Enabled(p, f) && Quiet(f) && !Productive(p, f)
    ensures Productive(Step(p, f), l)
  {
    assert Polling(p, f) && (f.Check? || f.AskId?);
    var q := Step(p, f);
    assert q == p.(workers := q.workers);
    UpdateMembers(p.workers, f.w, q.workers[f.w]);
    assert !l.Restart? by {
      assert p.workers[f.w] in p.workers;
    }
  }

  /** A party with something productive to do does something productive whenever it moves. */
  lemma MovesProductively(p: Pre, l: Label, f: Label)
    requires Productive(p, l) && Enabled(p, f) && Quiet(f) && Owns(PartyOf(l), f)
    ensures Productive(p, f)
  {
  }

  lemma {:induction false} ProductiveMeanwhile(p: Pre, schedule: nat -> Label, l: Label, n: nat, m: nat)
    requires n <= m && QuietFrom(schedule, n) && Productive(After(p, schedule, n), l)
    ensures Productive(After(p, schedule, m), l) || exists k: nat :: k >= n && Productive(After(p, schedule, k), schedule(k))
    decreases m - n
  {
    hide Productive, Enabled, Step;
    if m > n {
      ProductiveMeanwhile(p, schedule, l, n, m - 1);
      var q := After(p, schedule, m - 1);
      if Productive(q, l) && !Productive(q, schedule(m - 1)) && Enabled(q, schedule(m - 1)) {
        ProductiveStays(q, l, schedule(m - 1));
      }
    }
  }

  lemma TurnIsTaken(p: Pre, schedule: nat -> Label, l: Label, n: nat)
    requires QuietFrom(schedule, n) && Productive(After(p, schedule, n), l)
    requires TakesTurn(p, schedule, PartyOf(l), n)
    ensures exists k: nat :: k >= n && Productive(After(p, schedule, k), schedule(k))
  {
    hide After, Enabled, Polling;
    var m: nat :| m >= n && HasTurn(After(p, schedule, m), PartyOf(l), schedule(m));
    ProductiveMeanwhile(p, schedule, l, n, m);
    if Productive(After(p, schedule, m), l) {
      MovesProductively'(After(p, schedule, m), l, schedule(m));
    }
  }

  lemma MovesProductively'(p: Pre, l: Label, f: Label)
    requires Productive(p, l) && Quiet(f) && HasTurn(p, PartyOf(l), f)
    ensures Productive(p, f)
  {
    assert CanMove(p, PartyOf(l)) by {
      hide Enabled, Polling;
      assert Owns(PartyOf(l), l) && Enabled(p, l);
    }
    MovesProductively(p, l, f);
  }

  /** If every worker and the consumer are treated fairly, the whole is fair. */
  lemma FairFromParties(p: Pre, schedule: nat -> Label, start: nat)
    requires QuietFrom(schedule, start) && FairToAll(p, schedule, start)
    ensures Fair(p, schedule, start)
  {
    hide After, Productive, TakesTurn;
    forall n: nat | n >= start && exists l :: Productive(After(p, schedule, n), l)
      ensures exists m: nat :: m >= n && Productive(After(p, schedule, m), schedule(m))
    {
      var l :| Productive(After(p, schedule, n), l);
      ProductiveLabel(After(p, schedule, n), l);
      TurnIsTaken(p, schedule, l, n);
    }
  }

  lemma ProductiveLabel(p: Pre, l: Label)
    requires Productive(p, l)
    ensures Enabled(p, l) && Quiet(l) && !Polling(p, l) && !l.NodeMoves?
  {
  }

  lemma ItemBelowTop(p: Pre, s: nat)
    requires StaleBelow(p, s) && s < |p.node| && p.chan != []
    ensures p.chan[0].height < |p.node|
  {
    assert p.chan[0] in p.chan;
  }

  /** Once there, a quiet fetcher stays there: nothing more is delivered until the node's
      chain changes. */
  lemma StaysConverged(p: Pre, base: seq<BlockId>, s: nat, l: Label)
    requires Settled(p, base, s) && Converged(p, base) && Enabled(p, l) && Quiet(l)
    ensures Converged(Step(p, l), base) && Step(p, l).out == p.out && Step(p, l).node == p.node
  {
    PhaseFactsOf(p, base, s);
    PhaseFacts(p, base);
    hide Inv, Folded, RealItems, WindowOk, ForkInWindow, Judge, Partition;
    if l.Receive? {
      ReceiveKeeps(p, base);
      ItemBelowTop(p, s);
    }
  }
}
