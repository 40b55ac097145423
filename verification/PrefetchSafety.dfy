/** Safety of the fetcher for every node behaviour and every interleaving. */
module PrefetchSafety {
  import opened Chain
  import opened PrefetchSpec

  // ---------------------------------------------------------------- the window

  lemma {:induction false} RangeSize(s: set<nat>, lo: nat, hi: nat)
    requires lo <= hi && forall k :: k in s <==> lo <= k < hi
    ensures |s| == hi - lo
    decreases hi - lo
  {
    if lo == hi {
      assert s == {};
    } else {
      RangeSize(s - {lo}, lo + 1, hi);
    }
  }

  /** The bounds of a window can be read off its keys. */
  lemma WindowBounds(prev: map<nat, BlockId>, lo: nat, hi: nat)
    requires lo < hi && forall k :: k in prev <==> lo <= k < hi
    ensures prev != map[] && Lowest(prev) == lo && Highest(prev) == hi - 1 && |prev| == hi - lo
  {
    assert lo in prev && hi - 1 in prev;
    RangeSize(prev.Keys, lo, hi);
  }

  function NextLo(lo: nat, cur: nat): nat {
    if lo + WINDOW <= cur then cur + 1 - WINDOW else lo
  }

  function NextHi(hi: nat, cur: nat): nat {
    if cur < hi then hi else hi + 1
  }

  /** The window after accepting a block: still contiguous, still at most a window long, and
      overwritten from the current height on. */
  lemma AdvanceWindow(prev: map<nat, BlockId>, cur: nat, f: seq<BlockId>, lo: nat, hi: nat, id: BlockId)
    requires WindowIs(prev, cur, f, lo, hi)
    ensures WindowIs(Advance(prev, cur, id), cur + 1, f[..cur] + [id], NextLo(lo, cur), NextHi(hi, cur))
  {
    var kept, lo', hi' := Advance(prev, cur, id), NextLo(lo, cur), NextHi(hi, cur);
    var f' := f[..cur] + [id];
    assert forall k :: k in kept <==> lo' <= k < hi';
    forall k | lo' <= k < |f'| ensures kept[k] == f'[k] {
      assert k < cur ==> f'[k] == f[k];
    }
  }

  /** A block that passes the check fits the folded chain, and the window moves with it.  The
      only failure left is having to step below the oldest recorded hash. */
  lemma TrackExact(prev: map<nat, BlockId>, cur: nat, f: seq<BlockId>, lo: nat, hi: nat, id: BlockId)
    requires WindowIs(prev, cur, f, lo, hi) && RealId(cur, id)
    ensures match Track(prev, cur, id)
      case Accept(prev') =>
        && Fits(f, Block(cur, id))
        && WindowIs(prev', cur + 1, Insert(f, Block(cur, id)), NextLo(lo, cur), NextHi(hi, cur))
      case Mismatch => lo < cur && f[cur - 1] != id.prev
      case Fail(why) => why == NoPrevious
    ensures 0 < cur == lo <==> Track(prev, cur, id).Fail?
  {
    hide RealId, Lowest, Highest;
    WindowBounds(prev, lo, hi);
    RealParent(cur, id);
    AdvanceWindow(prev, cur, f, lo, hi, id);
    WindowBounds(Advance(prev, cur, id), NextLo(lo, cur), NextHi(hi, cur));
    TopBelow(f, cur);
  }

  lemma TopBelow(f: seq<BlockId>, cur: nat)
    requires cur <= |f|
    ensures Top(f[..cur]) == if cur == 0 then Null else f[cur - 1]
  {
  }

  /** The first block of a fetcher that starts with nothing recorded. */
  lemma TrackFirst(id: BlockId)
    requires RealId(0, id)
    ensures Track(map[], 0, id) == Accept(map[0 := id])
    ensures Fits([], Block(0, id)) && Insert([], Block(0, id)) == [id]
    ensures WindowIs(map[0 := id], 1, [id], 0, 1)
  {
    RealParent(0, id);
    assert map[][0 := id] == map[0 := id];
  }

  lemma RealParent(h: nat, id: BlockId)
    requires RealId(h, id)
    ensures id.Hash? && (h == 0 <==> id.prev == Null)
  {
    assert Ancestors(id) == Ancestors(id.prev) + [id];
    assert id.prev.Hash? ==> |Ancestors(id.prev)| > 0;
  }

  // ---------------------------------------------------------------- counting places

  lemma {:induction false} HandsUpdate(ws: seq<Worker>, w: nat, x: Worker, h: nat)
    requires w < |ws|
    ensures InHands(ws[w := x], h) == InHands(ws, h) - HasHeight(ws[w], h) + HasHeight(x, h)
  {
    if w == 0 {
      assert ws[w := x][1..] == ws[1..];
    } else {
      assert ws[w := x][1..] == ws[1..][w - 1 := x];
      HandsUpdate(ws[1..], w - 1, x, h);
    }
  }

  lemma {:induction false} HandsAtLeast(ws: seq<Worker>, w: nat, h: nat)
    requires w < |ws|
    ensures InHands(ws, h) >= HasHeight(ws[w], h)
  {
    if w > 0 {
      HandsAtLeast(ws[1..], w - 1, h);
    }
  }

  lemma {:induction false} ChanAppend(chan: seq<Block>, b: Block, h: nat)
    ensures InChan(chan + [b], h) == InChan(chan, h) + (if b.height == h then 1 else 0)
  {
    if chan == [] {
      assert [b][1..] == [] && chan + [b] == [b];
    } else {
      assert (chan + [b])[1..] == chan[1..] + [b];
      ChanAppend(chan[1..], b, h);
    }
  }

  lemma {:induction false} ChanMember(chan: seq<Block>, i: nat)
    requires i < |chan|
    ensures InChan(chan, chan[i].height) >= 1
  {
    if i > 0 {
      ChanMember(chan[1..], i - 1);
    }
  }

  lemma {:induction false} NothingInHands(ws: seq<Worker>, h: nat)
    requires forall x | x in ws :: x.Idle? || x.Exited?
    ensures InHands(ws, h) == 0
  {
    if ws != [] {
      assert ws[0] in ws;
      NothingInHands(ws[1..], h);
    }
  }

  /** Everything on its way is at or above the current height, each height once. */
  lemma Located(p: Pre, h: nat)
    requires Partition(p)
    ensures h in p.early ==> p.cur <= h < p.next && InChan(p.chan, h) == 0
    ensures InChan(p.chan, h) > 0 ==> p.cur <= h < p.next
    ensures Places(p, h) <= 1
  {
    assert Places(p, h) <= 1;
  }

  // ---------------------------------------------------------------- worker steps

  lemma MoveKeepsPlaces(p: Pre, w: nat, x: Worker)
    requires Partition(p) && w < |p.workers|
    requires forall h: nat :: HasHeight(x, h) == HasHeight(p.workers[w], h)
    ensures Partition(p.(workers := p.workers[w := x]))
  {
    var q := p.(workers := p.workers[w := x]);
    forall h: nat ensures Places(q, h) == if p.cur <= h < p.next then 1 else 0 {
      HandsUpdate(p.workers, w, x, h);
      assert Places(p, h) == if p.cur <= h < p.next then 1 else 0;
    }
  }

  lemma ClaimPlaces(p: Pre, w: nat)
    requires Partition(p) && w < |p.workers| && p.workers[w].Idle? && p.cur <= p.next
    ensures Partition(p.(workers := p.workers[w := Claimed(p.next)], next := p.next + 1))
  {
    var q := p.(workers := p.workers[w := Claimed(p.next)], next := p.next + 1);
    forall h: nat ensures Places(q, h) == if q.cur <= h < q.next then 1 else 0 {
      HandsUpdate(p.workers, w, Claimed(p.next), h);
      assert Places(p, h) == if p.cur <= h < p.next then 1 else 0;
    }
  }

  lemma SendPlaces(p: Pre, w: nat)
    requires Partition(p) && w < |p.workers| && p.workers[w].Ready?
    ensures Partition(p.(workers := p.workers[w := Idle],
                         chan := p.chan + [Block(p.workers[w].h, p.workers[w].id)]))
  {
    var b := Block(p.workers[w].h, p.workers[w].id);
    var q := p.(workers := p.workers[w := Idle], chan := p.chan + [b]);
    forall h: nat ensures Places(q, h) == if q.cur <= h < q.next then 1 else 0 {
      HandsUpdate(p.workers, w, Idle, h);
      ChanAppend(p.chan, b, h);
      assert Places(p, h) == if p.cur <= h < p.next then 1 else 0;
    }
  }

  lemma UpdateMembers(ws: seq<Worker>, w: nat, x: Worker)
    requires w < |ws|
    ensures forall y | y in ws[w := x] :: y in ws || y == x
  {
  }

  predicate WorkerLabel(l: Label) {
    l.Claim? || l.Check? || l.AskId? || l.AskBlock? || l.RpcError? || l.Send?
  }

  lemma WorkerRealItems(p: Pre, l: Label)
    requires IsChain(p.node) && RealItems(p) && Enabled(p, l) && WorkerLabel(l)
    ensures RealItems(Step(p, l))
  {
    hide IsChain, RealId;
    if l.AskId? && p.workers[l.w].h < |p.node| {
      RealOfNode(p.node, p.workers[l.w].h);
    }
  }

  lemma RealOfNode(c: seq<BlockId>, h: nat)
    requires IsChain(c) && h < |c|
    ensures RealId(h, c[h])
  {
    ChainHeight(c, h);
  }

  ghost predicate InGeneration(p: Pre) {
    p.phase.Entry? || p.phase.Serving?
  }

  lemma WorkerPartition(p: Pre, l: Label)
    requires InGeneration(p) && PhaseOk(p) && Enabled(p, l) && WorkerLabel(l) && p.cur <= p.next
    ensures PhaseOk(Step(p, l)) && Step(p, l).cur <= Step(p, l).next
  {
    hide Partition;
    var q := Step(p, l);
    UpdateMembers(p.workers, l.w, q.workers[l.w]);
    if l.Claim? {
      ClaimPlaces(p, l.w);
    } else if l.Send? {
      SendPlaces(p, l.w);
    } else {
      MoveKeepsPlaces(p, l.w, q.workers[l.w]);
    }
  }

  lemma WorkerStep(p: Pre, base: seq<BlockId>, l: Label)
    requires Inv(p, base) && Enabled(p, l) && WorkerLabel(l)
    ensures Inv(Step(p, l), base)
  {
    hide IsChain, RealItems, WindowOk, AllFit, Folded, Partition;
    WorkerRealItems(p, l);
    SameWindow(p, Step(p, l), Folded(base, p.out));
    if InGeneration(p) {
      WorkerPartition(p, l);
    }
  }

  // ---------------------------------------------------------------- consumer steps

  lemma JudgeKeeps(p: Pre, base: seq<BlockId>, id: BlockId)
    requires IsChain(p.node) && IsChain(Folded(base, p.out)) && AllFit(base, p.out)
    requires p.threads > 0 && |p.workers| == p.threads && RealItems(p) && WindowOk(p, Folded(base, p.out))
    requires RealId(p.cur, id) && !p.finish && p.cur < p.next && forall x | x in p.workers :: !x.Exited?
    // the judged height has just been taken out of its place
    requires forall h: nat :: Places(p, h) == if p.cur < h < p.next then 1 else 0
    ensures Inv(Judge(p, id), base)
    ensures Judge(p, id).phase.Halted? <==> p.prev != map[] && 0 < p.cur == Lowest(p.prev)
  {
    hide IsChain, RealItems, RealId, WindowIs, WindowOk, Folded, AllFit, Places, Fits, Track, Partition;
    var f, q := Folded(base, p.out), Judge(p, id);
    JudgeWindow(p, f, id);
    SameItems(p, q);
    if q.phase.Entry? {
      FoldMore(base, p.out, Block(p.cur, id));
      SamePlaces(p, q);
    }
  }

  lemma SamePlaces(p: Pre, q: Pre)
    requires q.early == p.early && q.chan == p.chan && q.workers == p.workers && q.next == p.next && q.cur == p.cur + 1
    requires forall h: nat :: Places(p, h) == if p.cur < h < p.next then 1 else 0
    ensures Partition(q)
  {
    forall h: nat ensures Places(q, h) == if q.cur <= h < q.next then 1 else 0 {
      assert Places(p, h) == if p.cur < h < p.next then 1 else 0;
    }
  }

  /** What judging does to the window and to the folded chain. */
  lemma JudgeWindow(p: Pre, f: seq<BlockId>, id: BlockId)
    requires IsChain(f) && WindowOk(p, f) && RealId(p.cur, id)
    ensures var q := Judge(p, id);
      match q.phase
      case Entry => Fits(f, Block(p.cur, id)) && p.cur <= |f| && WindowOk(q, Insert(f, Block(p.cur, id)))
      case Draining(_) => p.prev != map[] && Lowest(p.prev) < p.cur && WindowOk(q, f)
      case Halted(why) => why == NoPrevious && WindowOk(q, f)
      case Serving => false
    ensures Judge(p, id).phase.Halted? <==> p.prev != map[] && 0 < p.cur == Lowest(p.prev)
  {
    hide IsChain, RealId, Fits, WindowIs, Track, ChainInsert;
    var q := Judge(p, id);
    if p.prev == map[] {
      TrackFirst(id);
      WindowBounds(map[0 := id], 0, 1);
    } else {
      var lo, hi := Lowest(p.prev), Lowest(p.prev) + |p.prev|;
      TrackExact(p.prev, p.cur, f, lo, hi, id);
      WindowReach(p.prev, p.cur, f, lo, hi);
      if q.phase.Entry? {
        WindowReach(q.prev, q.cur, Insert(f, Block(p.cur, id)), NextLo(lo, p.cur), NextHi(hi, p.cur));
        WindowBounds(q.prev, NextLo(lo, p.cur), NextHi(hi, p.cur));
      }
    }
  }

  lemma WindowReach(prev: map<nat, BlockId>, cur: nat, f: seq<BlockId>, lo: nat, hi: nat)
    requires WindowIs(prev, cur, f, lo, hi)
    ensures lo < hi && cur <= |f| && forall k :: k in prev <==> lo <= k < hi
  {
  }

  lemma FoldMore(base: seq<BlockId>, out: seq<Block>, b: Block)
    requires AllFit(base, out) && IsChain(Folded(base, out)) && Fits(Folded(base, out), b)
    ensures AllFit(base, out + [b]) && Folded(base, out + [b]) == Insert(Folded(base, out), b)
    ensures IsChain(Folded(base, out + [b]))
  {
    hide IsChain;
    assert (out + [b])[..|out|] == out;
    InsertKeepsChain(Folded(base, out), b);
  }

  lemma SameItems(p: Pre, q: Pre)
    requires RealItems(p) && q.early == p.early && q.chan == p.chan && q.workers == p.workers
    ensures RealItems(q)
  {
  }

  lemma TakeEarlyKeeps(p: Pre, base: seq<BlockId>)
    requires Inv(p, base) && Enabled(p, TakeEarly)
    ensures Inv(Step(p, TakeEarly), base)
  {
    hide IsChain, WindowOk, AllFit, Folded, RealId, InChan, InHands;
    var q := p.(early := p.early - {p.cur});
    Located(p, p.cur);
    forall h: nat ensures Places(q, h) == if q.cur < h < q.next then 1 else 0 {
      assert Places(p, h) == if p.cur <= h < p.next then 1 else 0;
    }
    SameWindow(p, q, Folded(base, p.out));
    JudgeKeeps(q, base, p.early[p.cur]);
  }

  lemma SameWindow(p: Pre, q: Pre, f: seq<BlockId>)
    requires WindowOk(p, f) && q.prev == p.prev && q.cur == p.cur
    ensures WindowOk(q, f)
  {
  }

  lemma ReceiveKeeps(p: Pre, base: seq<BlockId>)
    requires Inv(p, base) && Enabled(p, Receive)
    ensures Inv(Step(p, Receive), base)
    ensures p.cur <= p.chan[0].height < p.next && p.chan[0].height !in p.early
  {
    hide IsChain, WindowOk, AllFit, Folded, RealId, InHands;
    var b, q := p.chan[0], p.(chan := p.chan[1..]);
    Located(p, b.height);
    assert p.cur <= b.height < p.next && b.height !in p.early;
    var r := Step(p, Receive);
    assert RealItems(q) by {
      assert forall i | 0 <= i < |q.chan| :: q.chan[i] == p.chan[i + 1];
    }
    SameWindow(p, q, Folded(base, p.out));
    if b.height == p.cur {
      forall h: nat ensures Places(q, h) == if q.cur < h < q.next then 1 else 0 {
        assert Places(p, h) == if p.cur <= h < p.next then 1 else 0;
      }
      JudgeKeeps(q, base, b.id);
    } else {
      assert Partition(r) by {
        forall h: nat ensures Places(r, h) == if r.cur <= h < r.next then 1 else 0 {
          assert Places(p, h) == if p.cur <= h < p.next then 1 else 0;
        }
      }
      SameWindow(p, r, Folded(base, p.out));
    }
  }

  lemma RestartKeeps(p: Pre, base: seq<BlockId>)
    requires Inv(p, base) && Enabled(p, Restart)
    ensures Inv(Step(p, Restart), base)
    ensures var q := Step(p, Restart);
      && q.phase.Serving? && q.out == p.out && q.prev == p.prev
      && q.cur == q.next == (if p.phase.reorg then p.cur - 1 else p.cur)
      && q.chan == [] && q.early == map[] && (forall x | x in q.workers :: x.Idle?)
      && |q.workers| == q.threads == (if p.phase.reorg then p.threads else 1)
  {
    hide IsChain, AllFit, Folded, RealId;
    var q := Step(p, Restart);
    forall h: nat ensures Places(q, h) == if q.cur <= h < q.next then 1 else 0 {
      NothingInHands(q.workers, h);
    }
  }

  lemma QuietKeeps(p: Pre, base: seq<BlockId>, l: Label)
    requires Inv(p, base) && Enabled(p, l) && (l.NodeMoves? || l.Enter? || l.Discard?)
    requires l.NodeMoves? ==> IsChain(l.chain)
    ensures Inv(Step(p, l), base)
  {
    hide IsChain, AllFit, Folded, RealId, WindowOk;
    var q := Step(p, l);
    SameWindow(p, q, Folded(base, p.out));
    if !l.Discard? && InGeneration(p) {
      forall h: nat ensures Places(q, h) == if q.cur <= h < q.next then 1 else 0 {
        assert Places(p, h) == if p.cur <= h < p.next then 1 else 0;
      }
    }
    assert l.Discard? ==> forall i | 0 <= i < |q.chan| :: q.chan[i] == p.chan[i + 1];
  }

  /** Every step of every party keeps the invariant; in particular every delivered block fits
      the chain delivered before it. */
  lemma StepKeeps(p: Pre, base: seq<BlockId>, l: Label)
    requires Inv(p, base) && Enabled(p, l) && (l.NodeMoves? ==> IsChain(l.chain))
    ensures Inv(Step(p, l), base)
  {
    hide Inv, Enabled, Step;
    match l
    case NodeMoves(_) => QuietKeeps(p, base, l);
    case Enter => QuietKeeps(p, base, l);
    case Discard => QuietKeeps(p, base, l);
    case TakeEarly => TakeEarlyKeeps(p, base);
    case Receive => ReceiveKeeps(p, base);
    case Restart => RestartKeeps(p, base);
    case Claim(_) => WorkerStep(p, base, l);
    case Check(_) => WorkerStep(p, base, l);
    case AskId(_) => WorkerStep(p, base, l);
    case AskBlock(_, _) => WorkerStep(p, base, l);
    case RpcError(_) => WorkerStep(p, base, l);
    case Send(_) => WorkerStep(p, base, l);
  }

  lemma NewInv(node: seq<BlockId>, last: Option<Block>, threads: nat, fastEnd: nat)
    requires IsChain(node) && threads > 0 && (last.Some? ==> Genuine(last.value))
    ensures Inv(New(node, last, threads, fastEnd), Base(last))
  {
    hide IsChain;
    var p, base := New(node, last, threads, fastEnd), Base(last);
    forall h: nat ensures Places(p, h) == if p.cur <= h < p.next then 1 else 0 {
      NothingInHands(p.workers, h);
    }
    if last.Some? {
      var h := last.value.height;
      AncestorsChain(last.value.id);
      WindowBounds(p.prev, h, h + 1);
    } else {
      assert IsChain(base) by {
        AncestorsChain(Null);
      }
    }
  }

  // ---------------------------------------------------------------- whole runs

  /** A sequence of labels; steps that are not enabled do not happen. */
  function Run(p: Pre, ls: seq<Label>): Pre {
    if ls == [] then p
    else
      var q := Run(p, ls[..|ls| - 1]);
      if Enabled(q, ls[|ls| - 1]) then Step(q, ls[|ls| - 1]) else q
  }

  /** The node always shows some hash-linked chain. */
  ghost predicate NodeIsSane(ls: seq<Label>) {
    forall i | 0 <= i < |ls| && ls[i].NodeMoves? :: IsChain(ls[i].chain)
  }

  lemma {:induction false} RunKeeps(p: Pre, base: seq<BlockId>, ls: seq<Label>)
    requires Inv(p, base) && NodeIsSane(ls)
    ensures Inv(Run(p, ls), base)
  {
    hide Inv, Step, Enabled, IsChain;
    if ls != [] {
      var init, last := ls[..|ls| - 1], ls[|ls| - 1];
      RunKeeps(p, base, init);
      if Enabled(Run(p, init), last) {
        StepKeeps(Run(p, init), base, last);
      }
    }
  }

  /** In numbers: of what was recorded, and the new height, everything less than 1000 below the
      new height is kept, and nothing else. */
  lemma KeepsAThousand(prev: map<nat, BlockId>, cur: nat, f: seq<BlockId>, lo: nat, hi: nat, id: BlockId)
    requires WindowIs(prev, cur, f, lo, hi)
    ensures forall k :: k in Advance(prev, cur, id) <==> (k in prev || k == cur) && cur < k + 1000
    ensures |Advance(prev, cur, id)| <= 1000
  {
    AdvanceWindow(prev, cur, f, lo, hi, id);
    WindowBounds(Advance(prev, cur, id), NextLo(lo, cur), NextHi(hi, cur));
  }

  /** The window reaches down to where the fetcher started, or holds a full 1000 heights. */
  ghost predicate Deep(p: Pre, first: nat) {
    p.prev == map[] || Lowest(p.prev) == first || |p.prev| == 1000
  }

  lemma JudgeDeep(p: Pre, f: seq<BlockId>, first: nat, id: BlockId)
    requires WindowOk(p, f) && RealId(p.cur, id) && Deep(p, first) && (p.prev == map[] ==> first == 0)
    ensures Deep(Judge(p, id), first)
  {
    hide RealId, Fits;
    if p.prev == map[] {
      TrackFirst(id);
      WindowBounds(map[0 := id], 0, 1);
    } else {
      var lo, hi := Lowest(p.prev), Lowest(p.prev) + |p.prev|;
      TrackExact(p.prev, p.cur, f, lo, hi, id);
      if Track(p.prev, p.cur, id).Accept? {
        WindowBounds(Track(p.prev, p.cur, id).prev, NextLo(lo, p.cur), NextHi(hi, p.cur));
      }
    }
  }

  lemma StepDeep(p: Pre, base: seq<BlockId>, first: nat, l: Label)
    requires Inv(p, base) && Enabled(p, l) && Deep(p, first) && (p.prev == map[] ==> first == 0)
    ensures Deep(Step(p, l), first) && (Step(p, l).prev == map[] ==> first == 0)
  {
    hide IsChain, AllFit, Folded, PhaseOk, Judge, WindowFor;
    if l.TakeEarly? {
      var q := p.(early := p.early - {p.cur});
      SameWindow(p, q, Folded(base, p.out));
      JudgeDeep(q, Folded(base, p.out), first, p.early[p.cur]);
      JudgeRecords(q, p.early[p.cur]);
    } else if l.Receive? && p.chan[0].height == p.cur {
      var q := p.(chan := p.chan[1..]);
      SameWindow(p, q, Folded(base, p.out));
      JudgeDeep(q, Folded(base, p.out), first, p.chan[0].id);
      JudgeRecords(q, p.chan[0].id);
    }
  }

  lemma JudgeRecords(p: Pre, id: BlockId)
    ensures Judge(p, id).prev == map[] ==> p.prev == map[]
  {
    hide Lowest, Highest;
    if Track(p.prev, p.cur, id).Accept? {
      assert p.cur in Advance(p.prev, p.cur, id);
    }
  }

  /** The first height a fetcher has a hash for. */
  function FirstRecorded(last: Option<Block>): nat {
    if last.Some? then last.value.height else 0
  }

  lemma {:induction false} RunDeep(p: Pre, base: seq<BlockId>, first: nat, ls: seq<Label>)
    requires Inv(p, base) && NodeIsSane(ls) && Deep(p, first) && (p.prev == map[] ==> first == 0)
    ensures Inv(Run(p, ls), base) && Deep(Run(p, ls), first) && (Run(p, ls).prev == map[] ==> first == 0)
  {
    hide Inv, Step, Enabled, IsChain, Deep;
    RunKeeps(p, base, ls);
    if ls != [] {
      var init, last := ls[..|ls| - 1], ls[|ls| - 1];
      RunDeep(p, base, first, init);
      if Enabled(Run(p, init), last) {
        StepDeep(Run(p, init), base, first, last);
      }
    }
  }

  /** The fetcher gives up only at the height it started from, or 999 below the highest height
      it has recorded. */
  lemma GivesUpAThousandBelow(node: seq<BlockId>, last: Option<Block>, threads: nat, fastEnd: nat, ls: seq<Label>)
    requires IsChain(node) && threads > 0 && (last.Some? ==> Genuine(last.value)) && NodeIsSane(ls)
    ensures var p := Run(New(node, last, threads, fastEnd), ls);
      p.phase.Halted? ==>
        && p.prev != map[] && 0 < p.cur
        && (p.cur == FirstRecorded(last) || Highest(p.prev) == p.cur + 999)
  {
    hide Folded, AllFit, IsChain, New, Run, RealItems, Partition;
    NewInv(node, last, threads, fastEnd);
    NewDeep(node, last, threads, fastEnd);
    RunDeep(New(node, last, threads, fastEnd), Base(last), FirstRecorded(last), ls);
    var p := Run(New(node, last, threads, fastEnd), ls);
    if p.phase.Halted? {
      WindowBounds(p.prev, Lowest(p.prev), Lowest(p.prev) + |p.prev|);
    }
  }

  lemma NewDeep(node: seq<BlockId>, last: Option<Block>, threads: nat, fastEnd: nat)
    ensures var p := New(node, last, threads, fastEnd);
      Deep(p, FirstRecorded(last)) && (p.prev == map[] ==> FirstRecorded(last) == 0)
  {
    if last.Some? {
      var h := last.value.height;
      WindowBounds(map[h := last.value.id], h, h + 1);
    }
  }

  // ---------------------------------------------------------------- workers and channel

  /** The channel never holds more than 64 blocks for each worker. */
  lemma {:induction false} ChannelIsBounded(p: Pre, ls: seq<Label>)
    requires |p.chan| <= 64 * p.threads
    ensures |Run(p, ls).chan| <= 64 * Run(p, ls).threads
  {
    hide Step, Enabled;
    if ls != [] {
      ChannelIsBounded(p, ls[..|ls| - 1]);
      if Enabled(Run(p, ls[..|ls| - 1]), ls[|ls| - 1]) {
        StepBounds(Run(p, ls[..|ls| - 1]), ls[|ls| - 1]);
      }
    }
  }

  /** The block the consumer is about to look at, if it is of the current height. */
  function Awaited(p: Pre, l: Label): Option<BlockId>
    requires Enabled(p, l)
  {
    if l.TakeEarly? then Some(p.early[p.cur])
    else if l.Receive? && p.chan[0].height == p.cur then Some(p.chan[0].id)
    else None
  }

  /** The workers are stopped for two reasons only: the consumer is at the end of fast sync when
      it is asked for the next block, or the awaited block does not continue the recorded one. */
  lemma StopsOnlyWhen(p: Pre, l: Label)
    requires Enabled(p, l) && !p.phase.Draining?
    ensures var q := Step(p, l);
      q.phase.Draining? <==>
        || (l.Enter? && p.cur == p.fastEnd)
        || (Awaited(p, l).Some? && p.cur > 0 && p.cur - 1 in p.prev
            && !(Awaited(p, l).value.Hash? && Awaited(p, l).value.prev == p.prev[p.cur - 1]))
  {
    hide Lowest, Highest, Advance;
  }

  /** A worker with a block waits exactly while the channel holds 64 blocks for each worker. */
  lemma SendsWhileThereIsRoom(p: Pre, w: nat)
    ensures Enabled(p, Send(w)) <==> w < |p.workers| && p.workers[w].Ready? && |p.chan| < 64 * p.threads
  {
  }

  lemma StepBounds(p: Pre, l: Label)
    requires Enabled(p, l)
    ensures |p.chan| <= 64 * p.threads ==> |Step(p, l).chan| <= 64 * Step(p, l).threads
    ensures Step(p, l).fastEnd == p.fastEnd
  {
    hide Track;
  }

  /** From the end of fast sync on there is one worker. */
  predicate OneAboveFastSync(p: Pre) {
    && (p.cur > p.fastEnd ==> p.threads == 1)
    && (p.cur == p.fastEnd && (p.phase.Serving? || p.phase == Draining(true)) ==> p.threads == 1)
  }

  lemma StepOneAbove(p: Pre, l: Label)
    requires OneAboveFastSync(p) && Enabled(p, l)
    ensures OneAboveFastSync(Step(p, l))
  {
    hide Track;
  }

  lemma {:induction false} RunOneAbove(p: Pre, ls: seq<Label>)
    requires OneAboveFastSync(p)
    ensures OneAboveFastSync(Run(p, ls))
  {
    hide OneAboveFastSync, Step, Enabled;
    if ls != [] {
      RunOneAbove(p, ls[..|ls| - 1]);
      if Enabled(Run(p, ls[..|ls| - 1]), ls[|ls| - 1]) {
        StepOneAbove(Run(p, ls[..|ls| - 1]), ls[|ls| - 1]);
      }
    }
  }

  /** A fetcher that starts no higher than the end of fast sync has one worker as soon as it is
      past it. */
  lemma OneWorkerAfterFastSync(node: seq<BlockId>, last: Option<Block>, threads: nat, fastEnd: nat, ls: seq<Label>)
    requires IsChain(node) && threads > 0 && (last.Some? ==> Genuine(last.value)) && NodeIsSane(ls)
    requires (if last.Some? then last.value.height + 1 else 0) <= fastEnd
    ensures var p := Run(New(node, last, threads, fastEnd), ls);
      p.cur > fastEnd ==> |p.workers| == 1
  {
    hide Folded, AllFit, IsChain, Run, RealItems, WindowOk, PhaseOk;
    var start := New(node, last, threads, fastEnd);
    NewInv(node, last, threads, fastEnd);
    RunKeeps(start, Base(last), ls);
    RunOneAbove(start, ls);
    SameEnd(start, ls);
  }

  lemma {:induction false} SameEnd(p: Pre, ls: seq<Label>)
    ensures Run(p, ls).fastEnd == p.fastEnd
  {
    hide Step, Enabled;
    if ls != [] {
      SameEnd(p, ls[..|ls| - 1]);
      if Enabled(Run(p, ls[..|ls| - 1]), ls[|ls| - 1]) {
        StepBounds(Run(p, ls[..|ls| - 1]), ls[|ls| - 1]);
      }
    }
  }

  /** For every node schedule and every interleaving: what is delivered, folded with the
      reference insertion, never leaves a gap and is a hash-linked chain; and the fetcher only
      ever gives up when it would have to go below its oldest hash. */
  lemma FetcherIsSafe(node: seq<BlockId>, last: Option<Block>, threads: nat, fastEnd: nat, ls: seq<Label>)
    requires IsChain(node) && threads > 0 && (last.Some? ==> Genuine(last.value)) && NodeIsSane(ls)
    ensures var p := Run(New(node, last, threads, fastEnd), ls);
      && AllFit(Base(last), p.out)
      && IsChain(Folded(Base(last), p.out))
      && (p.phase.Halted? ==> p.phase.why == NoPrevious && p.prev != map[] && 0 < p.cur == Lowest(p.prev))
  {
    hide Folded, AllFit, IsChain, New, Run, RealItems, WindowOk, Partition;
    NewInv(node, last, threads, fastEnd);
    RunKeeps(New(node, last, threads, fastEnd), Base(last), ls);
  }
}
