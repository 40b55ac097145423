/** The block fetcher: worker threads claim heights from a shared counter and fetch blocks from
    a node whose chain may change at any moment; a consumer puts the blocks in order, checks
    every parent against a sliding window of hashes, and on a mismatch throws all work away
    and steps back one height.  One label is one atomic step of one party, so a sequence of
    labels is an interleaving. */
module PrefetchSpec {
  import opened Chain
  import opened Bounds

  const WINDOW: nat := 1000

  /** Where a worker is in its loop; after `Claimed` it looks at the finish flag. */
  datatype Worker =
    | Idle
    | Claimed(h: nat)
    | Asking(h: nat)
    | HasId(h: nat, id: BlockId)
    | Ready(h: nat, id: BlockId)
    | Exited

  datatype Panic = TooDeep | NoPrevious | EmptyWindow | WindowOverflow | BelowCurrent | AtGenesis

  /** `Entry`: outside `next`.  `Draining`: stopping the workers, for a reorg or for the switch
      to one worker at the end of fast sync. */
  datatype Phase = Entry | Serving | Draining(reorg: bool) | Halted(why: Panic)

  datatype Pre = Pre(
    node: seq<BlockId>,
    cur: nat,
    prev: map<nat, BlockId>,
    early: map<nat, BlockId>,
    chan: seq<Block>,
    next: nat,
    finish: bool,
    workers: seq<Worker>,
    threads: nat,
    fastEnd: nat,
    phase: Phase,
    out: seq<Block>)

  datatype Label =
    | NodeMoves(chain: seq<BlockId>)
    | Claim(w: nat)
    | Check(w: nat)
    | AskId(w: nat)
    | AskBlock(w: nat, served: bool)
    | RpcError(w: nat)
    | Send(w: nat)
    | Enter
    | TakeEarly
    | Receive
    | Discard
    | Restart

  function Capacity(p: Pre): nat {
    p.threads * 64
  }

  // ---------------------------------------------------------------- reorg tracking

  datatype Verdict = Accept(prev: map<nat, BlockId>) | Mismatch | Fail(why: Panic)

  function Highest(prev: map<nat, BlockId>): nat
    requires prev != map[]
  {
    Max(prev.Keys)
  }

  function Lowest(prev: map<nat, BlockId>): nat
    requires prev != map[]
  {
    Min(prev.Keys)
  }

  /** Recording a hash and dropping the one a window below it. */
  function Advance(prev: map<nat, BlockId>, cur: nat, id: BlockId): map<nat, BlockId> {
    if cur >= WINDOW then prev[cur := id] - {cur - WINDOW} else prev[cur := id]
  }

  /** Comparing a block for height `cur` with the recorded hashes. */
  function Track(prev: map<nat, BlockId>, cur: nat, id: BlockId): Verdict {
    if cur > 0 && cur - 1 in prev && !(id.Hash? && prev[cur - 1] == id.prev) then Mismatch
    else if cur > 0 && cur - 1 !in prev && prev == map[] then Fail(EmptyWindow)
    else if cur > 0 && cur - 1 !in prev && cur < Lowest(prev) then Fail(TooDeep)
    else if cur > 0 && cur - 1 !in prev && cur != Highest(prev) + 1 then Fail(NoPrevious)
    else
      var kept := Advance(prev, cur, id);
      if |kept| <= WINDOW then Accept(kept) else Fail(WindowOverflow)
  }

  // ---------------------------------------------------------------- steps

  predicate IsAt(p: Pre, w: nat, want: Worker -> bool) {
    w < |p.workers| && want(p.workers[w])
  }

  predicate Enabled(p: Pre, l: Label) {
    match l
    case NodeMoves(_) => true
    case Claim(w) => IsAt(p, w, (x: Worker) => x.Idle?)
    case Check(w) => IsAt(p, w, (x: Worker) => x.Claimed?)
    case AskId(w) => IsAt(p, w, (x: Worker) => x.Asking?)
    case AskBlock(w, served) =>
      && IsAt(p, w, (x: Worker) => x.HasId?)
      // a block of its current chain the node always serves
      && (served || !(p.workers[w].h < |p.node| && p.node[p.workers[w].h] == p.workers[w].id))
    case RpcError(w) => IsAt(p, w, (x: Worker) => x.Asking? || x.HasId?)
    case Send(w) => IsAt(p, w, (x: Worker) => x.Ready?) && |p.chan| < Capacity(p)
    case Enter => p.phase.Entry?
    case TakeEarly => p.phase.Serving? && p.cur in p.early
    case Receive => p.phase.Serving? && p.cur !in p.early && p.chan != []
    case Discard => p.phase.Draining? && p.chan != []
    case Restart => p.phase.Draining? && p.chan == [] && forall x | x in p.workers :: x.Exited?
  }

  /** The consumer looks at the block for the current height. */
  function Judge(p: Pre, id: BlockId): Pre {
    match Track(p.prev, p.cur, id)
    case Accept(prev) => p.(prev := prev, cur := p.cur + 1, out := p.out + [Block(p.cur, id)], phase := Entry)
    case Mismatch => p.(phase := Draining(true), finish := true)
    case Fail(why) => p.(phase := Halted(why))
  }

  function StartWorkers(p: Pre): Pre {
    p.(chan := [], next := p.cur, finish := false, early := map[],
       workers := seq(p.threads, i requires 0 <= i < p.threads => Idle), phase := Serving)
  }

  function Step(p: Pre, l: Label): Pre
    requires Enabled(p, l)
  {
    match l
    case NodeMoves(chain) => p.(node := chain)
    case Claim(w) => p.(workers := p.workers[w := Claimed(p.next)], next := p.next + 1)
    case Check(w) =>
      p.(workers := p.workers[w := if p.finish then Exited else Asking(p.workers[w].h)])
    case AskId(w) =>
      var h := p.workers[w].h;
      p.(workers := p.workers[w := if h < |p.node| then HasId(h, p.node[h]) else Claimed(h)])
    case AskBlock(w, served) =>
      var x := p.workers[w];
      p.(workers := p.workers[w := if served then Ready(x.h, x.id) else Claimed(x.h)])
    case RpcError(w) => p.(workers := p.workers[w := Claimed(p.workers[w].h)])
    case Send(w) =>
      p.(workers := p.workers[w := Idle], chan := p.chan + [Block(p.workers[w].h, p.workers[w].id)])
    case Enter =>
      if p.fastEnd == p.cur then p.(phase := Draining(false), finish := true) else p.(phase := Serving)
    case TakeEarly => Judge(p.(early := p.early - {p.cur}), p.early[p.cur])
    case Receive =>
      var b, q := p.chan[0], p.(chan := p.chan[1..]);
      if b.height == p.cur then Judge(q, b.id)
      else if b.height < p.cur then q.(phase := Halted(BelowCurrent))
      else q.(early := q.early[b.height := b.id])
    case Discard => p.(chan := p.chan[1..])
    case Restart =>
      if !p.phase.reorg then StartWorkers(p.(threads := 1))
      else if p.cur == 0 then p.(phase := Halted(AtGenesis))
      else StartWorkers(p.(cur := p.cur - 1))
  }

  /** A new fetcher, continuing after `last` or starting at genesis. */
  function New(node: seq<BlockId>, last: Option<Block>, threads: nat, fastEnd: nat): Pre {
    var cur := if last.Some? then last.value.height + 1 else 0;
    var prev := if last.Some? then map[last.value.height := last.value.id] else map[];
    StartWorkers(Pre(node, cur, prev, map[], [], cur, false, [], threads, fastEnd, Entry, [])).(phase := Entry)
  }

  /** The chain a receiver has before the first block arrives. */
  function Base(last: Option<Block>): seq<BlockId> {
    if last.Some? then Ancestors(last.value.id) else []
  }

  /** Folding everything delivered with the reference insertion. */
  function Folded(base: seq<BlockId>, out: seq<Block>): seq<BlockId> {
    if out == [] then base
    else
      var c := Folded(base, out[..|out| - 1]);
      var b := out[|out| - 1];
      if b.height <= |c| then Insert(c, b) else c
  }

  /** Every delivered block fits what was delivered before it. */
  predicate AllFit(base: seq<BlockId>, out: seq<Block>) {
    out == [] || (AllFit(base, out[..|out| - 1]) && Fits(Folded(base, out[..|out| - 1]), out[|out| - 1]))
  }

  // ---------------------------------------------------------------- where a height is

  function HasHeight(x: Worker, h: nat): nat {
    if (x.Claimed? || x.Asking? || x.HasId? || x.Ready?) && x.h == h then 1 else 0
  }

  function InHands(ws: seq<Worker>, h: nat): nat {
    if ws == [] then 0 else HasHeight(ws[0], h) + InHands(ws[1..], h)
  }

  function InChan(chan: seq<Block>, h: nat): nat {
    if chan == [] then 0 else (if chan[0].height == h then 1 else 0) + InChan(chan[1..], h)
  }

  /** In how many places height `h` is right now. */
  function Places(p: Pre, h: nat): nat {
    (if h in p.early then 1 else 0) + InChan(p.chan, h) + InHands(p.workers, h)
  }

  /** Within a generation every claimed and not yet delivered height is in exactly one place. */
  ghost predicate Partition(p: Pre) {
    forall h: nat :: Places(p, h) == if p.cur <= h < p.next then 1 else 0
  }

  predicate RealId(h: nat, id: BlockId) {
    Genuine(Block(h, id))
  }

  /** Whatever travels is a real block of its height. */
  ghost predicate RealItems(p: Pre) {
    && (forall h | h in p.early :: RealId(h, p.early[h]))
    && (forall i | 0 <= i < |p.chan| :: RealId(p.chan[i].height, p.chan[i].id))
    && (forall i | 0 <= i < |p.workers| && (p.workers[i].HasId? || p.workers[i].Ready?) ::
          RealId(p.workers[i].h, p.workers[i].id))
  }

  /** The recorded heights are lo..hi-1, at most a window of them, around the current height,
      and below the end of the folded chain they are its hashes. */
  ghost predicate WindowIs(prev: map<nat, BlockId>, cur: nat, f: seq<BlockId>, lo: nat, hi: nat) {
    && lo < hi <= lo + WINDOW
    && (forall k :: k in prev <==> lo <= k < hi)
    && lo <= cur <= |f| <= hi
    && lo < |f|
    && (forall k | lo <= k < |f| :: prev[k] == f[k])
  }

  /** The window of a fetcher whose folded output is `f`. */
  ghost predicate WindowFor(prev: map<nat, BlockId>, cur: nat, f: seq<BlockId>) {
    if prev == map[] then cur == 0 && f == []
    else WindowIs(prev, cur, f, Lowest(prev), Lowest(prev) + |prev|)
  }

  ghost predicate WindowOk(p: Pre, f: seq<BlockId>) {
    WindowFor(p.prev, p.cur, f)
  }

  ghost predicate PhaseOk(p: Pre) {
    match p.phase
    case Draining(reorg) => p.finish && (reorg ==> p.prev != map[] && Lowest(p.prev) < p.cur)
    case Halted(why) => why == NoPrevious && p.prev != map[] && 0 < p.cur == Lowest(p.prev)
    case _ => !p.finish && p.cur <= p.next && Partition(p) && forall x | x in p.workers :: !x.Exited?
  }

  ghost predicate Inv(p: Pre, base: seq<BlockId>) {
    && IsChain(p.node)
    && IsChain(Folded(base, p.out))
    && AllFit(base, p.out)
    && p.threads > 0 && |p.workers| == p.threads
    && RealItems(p)
    && WindowOk(p, Folded(base, p.out))
    && PhaseOk(p)
  }
}
