/** The consumer side of the fetcher as an object: `next` with its two nested loops, the
    in-place reorg tracking and the reset.  What the workers of one generation push into the
    channel, and in which order, is arbitrary: `script(g, h)` is what generation `g`, started
    at height `h`, will push. */
module Prefetcher {
  import opened Chain
  import opened PrefetchSpec
  import opened PrefetchSafety

  datatype Outcome = Delivered(block: Block) | Waiting | GaveUp(why: Panic)

  /** One generation pushes real blocks, each height at most once, none below its start. */
  ghost predicate GoodGeneration(items: seq<Block>, start: nat) {
    && (forall i | 0 <= i < |items| :: items[i].height >= start && Genuine(items[i]))
    && (forall i, j | 0 <= i < j < |items| :: items[i].height != items[j].height)
  }

  lemma TrackWindow(prev: map<nat, BlockId>, cur: nat, f: seq<BlockId>, id: BlockId)
    requires IsChain(f) && WindowFor(prev, cur, f) && Genuine(Block(cur, id))
    ensures match Track(prev, cur, id)
      case Accept(prev') => Fits(f, Block(cur, id)) && WindowFor(prev', cur + 1, Insert(f, Block(cur, id)))
      case Mismatch => cur > 0 && WindowFor(prev, cur - 1, f)
      case Fail(why) => why == NoPrevious && prev != map[] && 0 < cur == Lowest(prev)
  {
    hide IsChain, Fits, ChainInsert, Track;
    if prev == map[] {
      TrackFirst(id);
      WindowBounds(map[0 := id], 0, 1);
    } else {
      var lo, hi := Lowest(prev), Lowest(prev) + |prev|;
      TrackExact(prev, cur, f, lo, hi, id);
      match Track(prev, cur, id) {
        case Accept(prev') => WindowBounds(prev', NextLo(lo, cur), NextHi(hi, cur));
        case Mismatch =>
        case Fail(_) =>
      }
    }
  }

  lemma {:induction false} OncePerChannel(chan: seq<Block>, i: nat, j: nat)
    requires i < j < |chan|
    ensures InChan(chan, chan[i].height) >= if chan[i].height == chan[j].height then 2 else 1
  {
    if i == 0 {
      assert chan[1..][j - 1] == chan[j];
      ChanMember(chan[1..], j - 1);
    } else {
      assert chan[1..][i - 1] == chan[i] && chan[1..][j - 1] == chan[j];
      OncePerChannel(chan[1..], i - 1, j - 1);
    }
  }

  /** In every reachable state of the worker threads, what is in the channel is what this
      object demands of a generation, and nothing in it was put aside before. */
  lemma ProtocolFeeds(p: Pre, base: seq<BlockId>)
    requires Inv(p, base) && (p.phase.Entry? || p.phase.Serving?)
    ensures GoodGeneration(p.chan, p.cur)
    ensures forall i | 0 <= i < |p.chan| :: p.chan[i].height !in p.early
    ensures forall h | h in p.early :: h >= p.cur
  {
    hide IsChain, WindowOk, AllFit, Folded;
    forall i | 0 <= i < |p.chan|
      ensures p.chan[i].height >= p.cur && Genuine(p.chan[i]) && p.chan[i].height !in p.early
    {
      ChanMember(p.chan, i);
      assert Places(p, p.chan[i].height) <= 1;
      assert RealId(p.chan[i].height, p.chan[i].id);
    }
    forall i, j | 0 <= i < j < |p.chan| ensures p.chan[i].height != p.chan[j].height {
      OncePerChannel(p.chan, i, j);
      Located(p, p.chan[i].height);
    }
    forall h | h in p.early ensures h >= p.cur {
      assert Places(p, h) >= 1;
    }
  }

  // ---------------------------------------------------------------- what `next` computes

  datatype State = State(cur: nat, prev: map<nat, BlockId>, early: map<nat, BlockId>, channel: seq<Block>, generation: nat)

  /** A new generation of workers, from `cur` on. */
  function Restarted(script: (nat, nat) -> seq<Block>, v: State, cur: nat): State {
    v.(cur := cur, early := map[], generation := v.generation + 1, channel := script(v.generation + 1, cur))
  }

  /** From one look at the channel or at the blocks put aside to the next outcome. */
  function Serve(script: (nat, nat) -> seq<Block>, v: State): (State, Outcome)
    decreases v.cur, |v.channel|, 1
  {
    if v.cur in v.early then
      Judged(script, v.(early := v.early - {v.cur}), v.early[v.cur])
    else if v.channel == [] then (v, Waiting)
    else
      var item, rest := v.channel[0], v.(channel := v.channel[1..]);
      if item.height != v.cur then Serve(script, rest.(early := v.early[item.height := item.id]))
      else Judged(script, rest, item.id)
  }

  function Judged(script: (nat, nat) -> seq<Block>, v: State, id: BlockId): (State, Outcome)
    decreases v.cur, |v.channel|, 0
  {
    match Track(v.prev, v.cur, id)
    case Accept(prev) => (v.(prev := prev, cur := v.cur + 1), Delivered(Block(v.cur, id)))
    case Mismatch => Serve(script, Restarted(script, v, v.cur - 1))
    case Fail(why) => (v, GaveUp(why))
  }

  // ---------------------------------------------------------------- what a generation pushed

  /** All blocks received or to be received: put aside, or in the channel. */
  ghost function Pool(v: State): set<Block> {
    (set h | h in v.early :: Block(h, v.early[h])) + (set b | b in v.channel)
  }

  lemma InPool(v: State, b: Block)
    ensures b in Pool(v) <==> b in v.channel || (b.height in v.early && v.early[b.height] == b.id)
  {
  }

  /** No height is there twice. */
  ghost predicate Separate(v: State) {
    && (forall i, j | 0 <= i < j < |v.channel| :: v.channel[i].height != v.channel[j].height)
    && (forall i | 0 <= i < |v.channel| :: v.channel[i].height !in v.early)
  }

  function Taken(v: State): State
    requires v.channel != []
  {
    v.(channel := v.channel[1..])
  }

  function PutAside(v: State): State
    requires v.channel != []
  {
    v.(channel := v.channel[1..], early := v.early[v.channel[0].height := v.channel[0].id])
  }

  lemma EarlyPool(v: State)
    requires Separate(v) && v.cur in v.early
    ensures var w := v.(early := v.early - {v.cur});
      Separate(w) && Pool(w) == Pool(v) - {Block(v.cur, v.early[v.cur])}
    ensures forall b | b in Pool(v) && b.height == v.cur :: b == Block(v.cur, v.early[v.cur])
    ensures Block(v.cur, v.early[v.cur]) in Pool(v)
  {
    hide Pool;
    var w := v.(early := v.early - {v.cur});
    forall b | b in v.channel ensures b.height !in v.early {
      var i :| 0 <= i < |v.channel| && v.channel[i] == b;
    }
    forall b ensures b in Pool(w) <==> b in Pool(v) && b != Block(v.cur, v.early[v.cur]) {
      InPool(w, b);
      InPool(v, b);
    }
    forall b ensures b in Pool(v) && b.height == v.cur <==> b == Block(v.cur, v.early[v.cur]) {
      InPool(v, b);
    }
  }

  lemma HeadPool(v: State)
    requires Separate(v) && v.channel != [] && v.cur !in v.early
    ensures v.channel[0] in Pool(v)
    ensures Separate(Taken(v)) && Pool(Taken(v)) == Pool(v) - {v.channel[0]}
    ensures v.channel[0].height != v.cur ==> Separate(PutAside(v)) && Pool(PutAside(v)) == Pool(v)
    ensures v.channel[0].height == v.cur ==> forall b | b in Pool(v) && b.height == v.cur :: b == v.channel[0]
  {
    hide Pool;
    var head, rest := v.channel[0], v.channel[1..];
    RestIsOther(v);
    forall b ensures b in Pool(Taken(v)) <==> b in Pool(v) && b != head {
      InPool(Taken(v), b);
      InPool(v, b);
    }
    InPool(v, head);
    if head.height != v.cur {
      forall b ensures b in Pool(PutAside(v)) <==> b in Pool(v) {
        InPool(PutAside(v), b);
        InPool(v, b);
      }
    } else {
      forall b | b in Pool(v) && b.height == v.cur ensures b == head {
        InPool(v, b);
      }
    }
  }

  lemma RestIsOther(v: State)
    requires Separate(v) && v.channel != []
    ensures forall b :: b in v.channel <==> b == v.channel[0] || b in v.channel[1..]
    ensures forall b | b in v.channel[1..] :: b.height != v.channel[0].height && b.height !in v.early
    ensures Separate(Taken(v)) && Separate(PutAside(v)) && v.channel[0].height !in v.early
  {
    var head, rest := v.channel[0], v.channel[1..];
    assert v.channel == [head] + rest;
    forall b | b in rest ensures b.height != head.height && b.height !in v.early {
      var i :| 0 <= i < |rest| && rest[i] == b;
      assert v.channel[i + 1] == b;
    }
    assert forall i | 0 <= i < |rest| :: rest[i] == v.channel[i + 1];
  }

  lemma EmptyPool(v: State)
    requires v.channel == [] && v.cur !in v.early
    ensures forall b | b in Pool(v) :: b.height != v.cur
  {
    forall b | b in Pool(v) ensures b.height != v.cur {
      InPool(v, b);
    }
  }

  /** What must come out when `b` is the block of the current height. */
  ghost predicate ComesOut(script: (nat, nat) -> seq<Block>, v: State, b: Block) {
    var (w, r) := Serve(script, v);
    match Track(v.prev, v.cur, b.id)
    case Accept(prev) =>
      && r == Delivered(b) && w == v.(cur := v.cur + 1, prev := prev, early := w.early, channel := w.channel)
      && Pool(w) == Pool(v) - {b} && Separate(w)
    case Mismatch => v.cur > 0 && Serve(script, v) == Serve(script, Restarted(script, v, v.cur - 1))
    case Fail(why) => r == GaveUp(why)
  }

  lemma JudgedComesOut(script: (nat, nat) -> seq<Block>, v: State, rest: State, b: Block)
    requires rest == v.(early := rest.early, channel := rest.channel) && b.height == v.cur
    requires Separate(rest) && Pool(rest) == Pool(v) - {b} && Serve(script, v) == Judged(script, rest, b.id)
    ensures ComesOut(script, v, b)
  {
    hide Pool, Separate, Serve, Track;
    MismatchIsAbove(v.prev, v.cur, b.id);
    if Track(v.prev, v.cur, b.id).Mismatch? {
      assert Restarted(script, rest, v.cur - 1) == Restarted(script, v, v.cur - 1);
    } else if Track(v.prev, v.cur, b.id).Accept? {
      var w := rest.(prev := Track(v.prev, v.cur, b.id).prev, cur := v.cur + 1);
      SamePool(rest, w);
    }
  }

  lemma MismatchIsAbove(prev: map<nat, BlockId>, cur: nat, id: BlockId)
    ensures Track(prev, cur, id).Mismatch? ==> cur > 0
  {
    hide Advance, Lowest, Highest;
  }

  lemma SamePool(v: State, w: State)
    requires w.early == v.early && w.channel == v.channel
    ensures Pool(w) == Pool(v) && Separate(w) == Separate(v)
  {
  }

  lemma AsideComesOut(script: (nat, nat) -> seq<Block>, v: State, w: State, b: Block)
    requires w == v.(early := w.early, channel := w.channel) && Pool(w) == Pool(v)
    requires Serve(script, v) == Serve(script, w) && ComesOut(script, w, b)
    ensures ComesOut(script, v, b)
  {
    hide Pool, Separate, Serve, Track;
    if v.cur > 0 {
      assert Restarted(script, w, v.cur - 1) == Restarted(script, v, v.cur - 1);
    }
  }

  /** What comes out does not depend on the order of arrival: only the block of the current
      height counts, wherever it is, and every other block is kept. */
  lemma {:induction false} ServeByPool(script: (nat, nat) -> seq<Block>, v: State)
    requires Separate(v)
    ensures (forall b | b in Pool(v) :: b.height != v.cur) ==>
      var (w, r) := Serve(script, v);
      r == Waiting && w == v.(early := w.early, channel := []) && Pool(w) == Pool(v)
    ensures forall b | b in Pool(v) && b.height == v.cur :: ComesOut(script, v, b)
    decreases |v.channel|
  {
    hide Pool, Separate, Judged, ComesOut;
    if v.cur in v.early {
      EarlyPool(v);
      JudgedComesOut(script, v, v.(early := v.early - {v.cur}), Block(v.cur, v.early[v.cur]));
    } else if v.channel == [] {
      EmptyPool(v);
    } else {
      HeadPool(v);
      if v.channel[0].height == v.cur {
        JudgedComesOut(script, v, Taken(v), v.channel[0]);
      } else {
        ServeByPool(script, PutAside(v));
        forall b | b in Pool(v) && b.height == v.cur ensures ComesOut(script, v, b) {
          AsideComesOut(script, v, PutAside(v), b);
        }
      }
    }
  }

  lemma {:induction false} GenerationGrows(script: (nat, nat) -> seq<Block>, v: State)
    ensures Serve(script, v).0.generation >= v.generation
    decreases v.cur, |v.channel|, 1
  {
    hide Track;
    if v.cur in v.early {
      JudgedGrows(script, v.(early := v.early - {v.cur}), v.early[v.cur]);
    } else if v.channel != [] {
      if v.channel[0].height != v.cur {
        GenerationGrows(script, PutAside(v));
      } else {
        JudgedGrows(script, Taken(v), v.channel[0].id);
      }
    }
  }

  lemma {:induction false} JudgedGrows(script: (nat, nat) -> seq<Block>, v: State, id: BlockId)
    ensures Judged(script, v, id).0.generation >= v.generation
    ensures Track(v.prev, v.cur, id).Mismatch? ==> Judged(script, v, id).0.generation > v.generation
    decreases v.cur, |v.channel|, 0
  {
    if Track(v.prev, v.cur, id).Mismatch? {
      GenerationGrows(script, Restarted(script, v, v.cur - 1));
    }
  }

  /** Within a generation nothing is lost: an outcome takes at most the delivered block out, and
      only the absence of the current height makes the caller wait. */
  lemma NothingIsLost(script: (nat, nat) -> seq<Block>, v: State)
    requires Separate(v)
    ensures var (w, r) := Serve(script, v);
      w.generation == v.generation ==>
        && (r.Waiting? ==> Pool(w) == Pool(v) && forall b | b in Pool(v) :: b.height != v.cur)
        && (r.Delivered? ==> r.block in Pool(v) && r.block.height == v.cur && Pool(w) == Pool(v) - {r.block})
  {
    hide Pool, Separate, Track, Serve;
    ServeByPool(script, v);
    if b :| b in Pool(v) && b.height == v.cur {
      if Track(v.prev, v.cur, b.id).Mismatch? {
        GenerationGrows(script, Restarted(script, v, v.cur - 1));
      }
    }
  }

  /** One call of `next`: at the end of fast sync the workers are replaced first. */
  function Called(script: (nat, nat) -> seq<Block>, fastEnd: nat, v: State): (State, Outcome) {
    Serve(script, if fastEnd == v.cur then Restarted(script, v, v.cur) else v)
  }

  /** At the end of fast sync nothing received before counts any more: a new generation of
      workers starts at the current height, and the first block comes from it. */
  lemma FastEndForgets(script: (nat, nat) -> seq<Block>, fastEnd: nat, v: State, w: State)
    requires w == v.(early := w.early, channel := w.channel)
    ensures v.cur == fastEnd ==>
      && Called(script, fastEnd, v) == Called(script, fastEnd, w)
      && Called(script, fastEnd, v).0.generation > v.generation
      && (script(v.generation + 1, fastEnd) == [] ==> Called(script, fastEnd, v).1 == Waiting)
  {
    GenerationGrows(script, Restarted(script, v, v.cur));
    assert Restarted(script, v, v.cur) == Restarted(script, w, v.cur);
  }

  /** The outcomes of `n` calls. */
  function Calls(script: (nat, nat) -> seq<Block>, fastEnd: nat, v: State, n: nat): (State, seq<Outcome>)
    decreases n
  {
    if n == 0 then (v, [])
    else
      var (w, r) := Called(script, fastEnd, v);
      var (last, more) := Calls(script, fastEnd, w, n - 1);
      (last, [r] + more)
  }

  function Ascending(from: nat, ids: seq<BlockId>): (r: seq<Outcome>)
    ensures |r| == |ids|
  {
    seq(|ids|, i requires 0 <= i < |ids| => Delivered(Block(from + i, ids[i])))
  }

  function Stretch(from: nat, ids: seq<BlockId>): set<Block> {
    set i | 0 <= i < |ids| :: Block(from + i, ids[i])
  }

  lemma NoBlocks(from: nat)
    ensures Stretch(from, []) == {}
  {
  }

  /** If the blocks of the next heights are all there and linked to what was delivered, then
      whatever the order in which they arrive, as many calls deliver exactly them, in ascending
      order, and keep the rest. */
  lemma {:induction false} DeliversInOrder(script: (nat, nat) -> seq<Block>, fastEnd: nat, v: State, f: seq<BlockId>, ids: seq<BlockId>)
    requires Separate(v) && WindowFor(v.prev, v.cur, f) && IsChain(f) && v.cur <= |f|
    requires v.cur == 0 || v.prev == map[] || Lowest(v.prev) < v.cur
    requires IsChain(f[..v.cur] + ids)
    requires forall i | 0 <= i < |ids| :: Block(v.cur + i, ids[i]) in Pool(v)
    requires !(v.cur <= fastEnd < v.cur + |ids|)
    ensures var (w, out) := Calls(script, fastEnd, v, |ids|);
      && out == Ascending(v.cur, ids)
      && w.cur == v.cur + |ids| && w.generation == v.generation && Separate(w)
      && Pool(w) == Pool(v) - Stretch(v.cur, ids)
    decreases |ids|
  {
    hide Pool, Separate, Track, Serve, WindowFor, IsChain, Stretch;
    if ids == [] {
      assert Stretch(v.cur, []) == {} by {
        NoBlocks(v.cur);
      }
    } else {
      var b := Block(v.cur, ids[0]);
      assert Block(v.cur + 0, ids[0]) in Pool(v);
      ServeByPool(script, v);
      NextLinked(v, f, ids);
      var w := Serve(script, v).0;
      var g := Insert(f, b);
      Regroup(f, v.cur, ids);
      forall i | 0 <= i < |ids| - 1 ensures Block(w.cur + i, ids[1..][i]) in Pool(w) {
        assert Block(v.cur + (i + 1), ids[i + 1]) in Pool(v);
      }
      DeliversInOrder(script, fastEnd, w, g, ids[1..]);
      Heights(v.cur, ids);
    }
  }

  lemma Regroup(f: seq<BlockId>, n: nat, ids: seq<BlockId>)
    requires n <= |f| && ids != []
    ensures (f[..n] + [ids[0]])[..n + 1] + ids[1..] == f[..n] + ids
  {
  }

  /** The next linked block passes the check, and the window moves with it. */
  lemma NextLinked(v: State, f: seq<BlockId>, ids: seq<BlockId>)
    requires WindowFor(v.prev, v.cur, f) && IsChain(f) && v.cur <= |f| && ids != []
    requires v.cur == 0 || v.prev == map[] || Lowest(v.prev) < v.cur
    requires IsChain(f[..v.cur] + ids)
    ensures var t, g := Track(v.prev, v.cur, ids[0]), Insert(f, Block(v.cur, ids[0]));
      && t.Accept? && WindowFor(t.prev, v.cur + 1, g) && IsChain(g) && |g| == v.cur + 1
      && t.prev != map[] && Lowest(t.prev) < v.cur + 1
  {
    hide IsChain, Track;
    var c := f[..v.cur] + ids;
    ChainHeight(c, v.cur);
    assert c[..v.cur] == f[..v.cur];
    TrackWindow(v.prev, v.cur, f, ids[0]);
    assert Top(f[..v.cur]) == ids[0].prev;
    InsertKeepsChain(f, Block(v.cur, ids[0]));
    TrackAccepts(v, f, ids[0]);
  }

  lemma TrackAccepts(v: State, f: seq<BlockId>, id: BlockId)
    requires WindowFor(v.prev, v.cur, f) && IsChain(f) && v.cur <= |f| && Genuine(Block(v.cur, id))
    requires v.cur == 0 || v.prev == map[] || Lowest(v.prev) < v.cur
    requires id.prev == Top(f[..v.cur])
    ensures var t := Track(v.prev, v.cur, id);
      t.Accept? && t.prev != map[] && Lowest(t.prev) < v.cur + 1
  {
    hide IsChain, Track;
    if v.prev == map[] {
      TrackFirst(id);
      WindowBounds(map[0 := id], 0, 1);
    } else {
      var lo, hi := Lowest(v.prev), Lowest(v.prev) + |v.prev|;
      TrackExact(v.prev, v.cur, f, lo, hi, id);
      WindowBounds(Track(v.prev, v.cur, id).prev, NextLo(lo, v.cur), NextHi(hi, v.cur));
    }
  }

  lemma Heights(from: nat, ids: seq<BlockId>)
    requires ids != []
    ensures Ascending(from, ids) == [Delivered(Block(from, ids[0]))] + Ascending(from + 1, ids[1..])
    ensures Stretch(from, ids) == {Block(from, ids[0])} + Stretch(from + 1, ids[1..])
  {
    var all, rest := Stretch(from, ids), Stretch(from + 1, ids[1..]);
    forall b | b in all ensures b in {Block(from, ids[0])} + rest {
      var i :| 0 <= i < |ids| && b == Block(from + i, ids[i]);
      if i > 0 {
        assert ids[1..][i - 1] == ids[i] && b == Block(from + 1 + (i - 1), ids[1..][i - 1]);
      }
    }
    forall b | b in {Block(from, ids[0])} + rest ensures b in all {
      if b in rest {
        var i :| 0 <= i < |ids[1..]| && b == Block(from + 1 + i, ids[1..][i]);
        assert b == Block(from + (i + 1), ids[i + 1]);
      } else {
        assert b == Block(from + 0, ids[0]);
      }
    }
  }

  class Prefetcher {
    const script: (nat, nat) -> seq<Block>
    var cur: nat
    var prev: map<nat, BlockId>
    var early: map<nat, BlockId>
    var channel: seq<Block>
    var generation: nat
    const fastEnd: nat

    /** everything delivered so far, folded with the reference insertion */
    ghost var folded: seq<BlockId>

    ghost predicate Valid()
      reads this
    {
      && (forall g: nat, h: nat :: GoodGeneration(script(g, h), h))
      && IsChain(folded)
      && WindowFor(prev, cur, folded)
      && GoodGeneration(channel, cur)
      && (forall h | h in early :: h >= cur && Genuine(Block(h, early[h])))
      && (forall i | 0 <= i < |channel| :: channel[i].height !in early)
    }

    ghost function View(): State
      reads this
    {
      State(cur, prev, early, channel, generation)
    }

    constructor (script: (nat, nat) -> seq<Block>, last: Option<Block>, fastEnd: nat)
      requires forall g: nat, h: nat :: GoodGeneration(script(g, h), h)
      requires last.Some? ==> Genuine(last.value)
      ensures Valid() && folded == Base(last) && this.script == script && this.fastEnd == fastEnd
      ensures var start := if last.Some? then last.value.height + 1 else 0;
        && View() == State(start, if last.Some? then map[last.value.height := last.value.id] else map[],
                           map[], script(0, start), 0)
    {
      hide IsChain, GoodGeneration;
      var start := if last.Some? then last.value.height + 1 else 0;
      this.script, this.fastEnd, cur := script, fastEnd, start;
      prev := if last.Some? then map[last.value.height := last.value.id] else map[];
      early, channel, generation := map[], script(0, start), 0;
      folded := Base(last);
      if last.Some? {
        AncestorsChain(last.value.id);
        WindowBounds(map[last.value.height := last.value.id], last.value.height, last.value.height + 1);
      } else {
        AncestorsChain(Null);
      }
    }

    /** True when the block's parent is not the hash recorded below it; otherwise the hash is
        recorded and the window slides. */
    method TrackReorgs(id: BlockId) returns (reorg: bool, failed: Option<Panic>)
      modifies this`prev
      ensures match Track(old(prev), cur, id)
        case Accept(p) => !reorg && failed.None? && prev == p
        case Mismatch => reorg && failed.None? && prev == old(prev)
        case Fail(why) => failed == Some(why) && (why != WindowOverflow ==> prev == old(prev))
    {
      hide Lowest, Highest, Advance;
      if cur > 0 {
        if cur - 1 in prev {
          if !(id.Hash? && prev[cur - 1] == id.prev) {
            return true, None;
          }
        } else if prev == map[] {
          return false, Some(EmptyWindow);
        } else if cur < Lowest(prev) {
          return false, Some(TooDeep);
        } else if cur != Highest(prev) + 1 {
          return false, Some(NoPrevious);
        }
      }
      RecordHash(id);
      return false, if |prev| <= WINDOW then None else Some(WindowOverflow);
    }

    method RecordHash(id: BlockId)
      modifies this`prev
      ensures prev == Advance(old(prev), cur, id)
    {
      prev := prev[cur := id];
      if cur >= WINDOW {
        prev := prev - {cur - WINDOW};
      }
    }

    /** Stop the workers, throwing their work away, and start a new generation. */
    method Restart()
      requires forall g: nat, h: nat :: GoodGeneration(script(g, h), h)
      requires IsChain(folded) && WindowFor(prev, cur, folded)
      modifies this`early, this`channel, this`generation
      ensures Valid() && View() == Restarted(script, old(View()), cur)
      ensures early == map[] && generation == old(generation) + 1 && channel == script(generation, cur)
    {
      hide IsChain, WindowFor, GoodGeneration;
      early := map[];
      generation := generation + 1;
      channel := script(generation, cur);
    }

    method ResetOnReorg()
      requires Valid() && cur > 0 && WindowFor(prev, cur - 1, folded)
      modifies this`cur, this`early, this`channel, this`generation
      ensures Valid() && View() == Restarted(script, old(View()), old(cur) - 1)
      ensures cur == old(cur) - 1 && early == map[] && generation == old(generation) + 1 && channel == script(generation, cur)
    {
      cur := cur - 1;
      Restart();
    }

    /** The next block in order.  Whatever the workers push, a delivered block fits the chain
        delivered so far; the only way to give up is having to go below the oldest recorded
        hash; `Waiting` means nothing more will arrive in this generation. */
    method Next() returns (r: Outcome)
      requires Valid()
      modifies this
      ensures match r
        case Delivered(b) =>
          Valid() && Fits(old(folded), b) && folded == Insert(old(folded), b) && cur == b.height + 1
        case Waiting => Valid() && folded == old(folded) && cur !in early && channel == []
        case GaveUp(why) => why == NoPrevious && prev != map[] && 0 < cur == Lowest(prev)
      ensures (View(), r) == Called(script, fastEnd, old(View()))
      ensures fastEnd == old(cur) ==> generation > old(generation)
      ensures fastEnd != old(cur) && generation == old(generation) ==>
        && (r.Waiting? ==> Pool(View()) == Pool(old(View())) && forall b | b in Pool(old(View())) :: b.height != old(cur))
        && (r.Delivered? ==> r.block in Pool(old(View())) && Pool(View()) == Pool(old(View())) - {r.block})
    {
      hide IsChain, WindowFor, GoodGeneration, Fits, Genuine, Track, ChainInsert, Judged, Pool, Separate;
      ValidIsSeparate();
      NothingIsLost(script, View());
      FastEndForgets(script, fastEnd, View(), View());
      if fastEnd == cur {
        Restart();
      }
      ghost var start := View();
      while true
        invariant Valid() && folded == old(folded)
        invariant Serve(script, View()) == Serve(script, start)
        decreases cur, |channel|
      {
        var id;
        if cur in early {
          id := early[cur];
          early := early - {cur};
        } else if channel == [] {
          return Waiting;
        } else {
          var item := channel[0];
          ChannelHead(channel, cur);
          channel := channel[1..];
          if item.height != cur {
            assert item.height > cur;
            early := early[item.height := item.id];
            continue;
          }
          id := item.id;
        }
        var done := Judge(id);
        if done.Some? {
          return done.value;
        }
      }
    }

    lemma ValidIsSeparate()
      requires Valid()
      ensures Separate(View())
    {
      hide IsChain, WindowFor, Genuine;
    }

    /** The block for the current height: deliver it, step back, or give up. */
    method Judge(id: BlockId) returns (r: Option<Outcome>)
      requires Valid() && Genuine(Block(cur, id))
      requires cur !in early && forall i | 0 <= i < |channel| :: channel[i].height != cur
      modifies this
      ensures match r
        case None => Valid() && folded == old(folded) && cur + 1 == old(cur)
        case Some(Delivered(b)) =>
          Valid() && Fits(old(folded), b) && folded == Insert(old(folded), b) && cur == b.height + 1
        case Some(GaveUp(why)) => why == NoPrevious && prev != map[] && 0 < cur == Lowest(prev)
        case Some(Waiting) => false
      ensures Judged(script, old(View()), id) == match r case None => Serve(script, View()) case Some(o) => (View(), o)
    {
      hide IsChain, WindowFor, GoodGeneration, Fits, Genuine, Track, ChainInsert, Serve;
      TrackWindow(prev, cur, folded, id);
      var reorg, failed := TrackReorgs(id);
      if failed.Some? {
        return Some(GaveUp(failed.value));
      }
      if reorg {
        ResetOnReorg();
        return None;
      }
      InsertKeepsChain(folded, Block(cur, id));
      Advanced(channel, cur);
      folded := Insert(folded, Block(cur, id));
      cur := cur + 1;
      return Some(Delivered(Block(cur - 1, id)));
    }
  }

  lemma ChannelHead(items: seq<Block>, start: nat)
    requires GoodGeneration(items, start) && items != []
    ensures items[0].height >= start && Genuine(items[0])
    ensures GoodGeneration(items[1..], start)
    ensures forall i | 0 <= i < |items[1..]| :: items[1..][i].height != items[0].height && items[1..][i] == items[i + 1]
  {
  }

  lemma Advanced(items: seq<Block>, cur: nat)
    requires GoodGeneration(items, cur)
    ensures (forall i | 0 <= i < |items| :: items[i].height != cur) ==> GoodGeneration(items, cur + 1)
  {
  }
}
