/** The three pipelined threads behind the store: the first resolves consumed outputs with its
    cache, the second formats the queries (and computes fees), the third writes one
    transaction per batch.  Hand-overs are rendezvous: a stage gives its batch away only to an
    idle successor.  Every interleaving of the threads, and mempool inserts, is a run. */
module Pipeline {
  import opened Chain
  import opened Ledger
  import opened Database
  import opened StoreSpec
  import opened StoreProofs
  import opened UtxoCache

  datatype Fetcher = FetchIdle | Got(bs: seq<Block>) | Resolved(bs: seq<Block>, values: Values)
  datatype Formatter = FormatIdle | Given(bs: seq<Block>, values: Values) | Formatted(bs: seq<Block>, fees: map<Tx, nat>)
  datatype Writer = WriteIdle | Taken(bs: seq<Block>, fees: map<Tx, nat>) | Written(bs: seq<Block>)

  /** `outbox` is the batch the store is about to hand over. */
  datatype Pipe = Pipe(
    db: Db,
    cache: Values,
    outbox: seq<Block>,
    fetcher: Fetcher,
    formatter: Formatter,
    writer: Writer,
    inFlight: set<BlockId>)

  datatype Label = Offer(bs: seq<Block>) | Take | Resolve | HandOver | Format | Queue | Write | Unmark | Mempool(t: Tx)

  // ---------------------------------------------------------------- the formatted queries

  function TxsOfBlocks(bs: seq<Block>): seq<Tx> {
    TxsOf(Ids(bs))
  }

  function FormatFees(values: Values, txs: seq<Tx>): Option<map<Tx, nat>> {
    if txs == [] then Some(map[])
    else
      var t := txs[|txs| - 1];
      match (FormatFees(values, txs[..|txs| - 1]), FeeFrom(values, t))
      case (Some(m), Some(fee)) => Some(m[t := fee])
      case _ => None
  }

  function InsertTxsWith(tables: Tables, id: BlockId, txs: seq<Tx>, fees: map<Tx, nat>): Tables {
    if txs == [] then tables
    else
      var t := txs[|txs| - 1];
      var before := InsertTxsWith(tables, id, txs[..|txs| - 1], fees);
      InsertTx(before, t, if t in fees then fees[t] else 0).(blockTx := before.blockTx + {(id, t)})
  }

  function ExecuteBlock(db: Db, b: Block, fees: map<Tx, nat>): Db {
    Db(
      if b.id in db.rows then db.rows else db.rows[b.id := Row(b.height, false)],
      db.events + [Event(b.id, false)],
      if b.id.Hash? then InsertTxsWith(db.tables, b.id, b.id.txs, fees) else db.tables)
  }

  /** What running the queries of a batch does to the database. */
  function Execute(db: Db, bs: seq<Block>, fees: map<Tx, nat>): Db {
    if bs == [] then db else ExecuteBlock(Execute(db, bs[..|bs| - 1], fees), bs[|bs| - 1], fees)
  }

  // ---------------------------------------------------------------- steps

  predicate Enabled(p: Pipe, l: Label) {
    match l
    case Offer(bs) => p.outbox == [] && bs != []
    case Take => p.outbox != [] && p.fetcher.FetchIdle?
    case Resolve => p.fetcher.Got?
    case HandOver => p.fetcher.Resolved? && p.formatter.FormatIdle?
    case Format => p.formatter.Given?
    case Queue => p.formatter.Formatted? && p.writer.WriteIdle?
    case Write => p.writer.Taken?
    case Unmark => p.writer.Written?
    case Mempool(_) => true
  }

  /** One step; None is a thread dying on a failed assertion. */
  function Step(p: Pipe, l: Label): Option<Pipe>
    requires Enabled(p, l)
  {
    match l
    case Offer(bs) => Some(p.(inFlight := p.inFlight + IdSet(bs), outbox := bs))
    case Take => Some(p.(fetcher := Got(p.outbox), outbox := []))
    case Resolve =>
      (match Process(p.cache, p.db.tables.outputs, TxsOfBlocks(p.fetcher.bs))
       case None => None
       case Some((cache, values)) => Some(p.(cache := cache, fetcher := Resolved(p.fetcher.bs, values))))
    case HandOver => Some(p.(formatter := Given(p.fetcher.bs, p.fetcher.values), fetcher := FetchIdle))
    case Format =>
      (match FormatFees(p.formatter.values, TxsOfBlocks(p.formatter.bs))
       case None => None
       case Some(fees) => Some(p.(formatter := Formatted(p.formatter.bs, fees))))
    case Queue => Some(p.(writer := Taken(p.formatter.bs, p.formatter.fees), formatter := FormatIdle))
    case Write => Some(p.(db := Execute(p.db, p.writer.bs, p.writer.fees), writer := Written(p.writer.bs)))
    case Unmark =>
      if IdSet(p.writer.bs) <= p.inFlight
      then Some(p.(inFlight := p.inFlight - IdSet(p.writer.bs), writer := WriteIdle))
      else None
    case Mempool(t) => Some(p.(db := MempoolInsert(p.db, t)))
  }

  // ---------------------------------------------------------------- contents

  /** Blocks not yet written, by stage. */
  function WriterHolds(p: Pipe): seq<Block> {
    if p.writer.Taken? then p.writer.bs else []
  }

  function FormatterHolds(p: Pipe): seq<Block> {
    if p.formatter.FormatIdle? then [] else p.formatter.bs
  }

  function FetcherHolds(p: Pipe): seq<Block> {
    if p.fetcher.FetchIdle? then [] else p.fetcher.bs
  }

  function ResolvedHolds(p: Pipe): seq<Block> {
    if p.fetcher.Resolved? then p.fetcher.bs else []
  }

  function GotHolds(p: Pipe): seq<Block> {
    if p.fetcher.Got? then p.fetcher.bs else []
  }

  /** Blocks the cache has already seen and the database may not have. */
  function Behind(p: Pipe): seq<Block> {
    WriterHolds(p) + FormatterHolds(p) + ResolvedHolds(p)
  }

  /** Blocks the cache has not seen. */
  function Ahead(p: Pipe): seq<Block> {
    GotHolds(p) + p.outbox
  }

  /** Everything between the store and the database, oldest first. */
  function Held(p: Pipe): seq<Block> {
    Behind(p) + Ahead(p)
  }

  /** The live chain: committed, then the stages in order. */
  function LiveChain(p: Pipe): seq<BlockId> {
    Visible(p.db) + Ids(Held(p))
  }

  /** Blocks whose ids may still be marked as in flight. */
  function Marked(p: Pipe): set<BlockId> {
    (if p.writer.Written? then IdSet(p.writer.bs) else {}) + IdSet(Held(p))
  }

  /** What went through the cache since the pipeline started on top of `base`. */
  function Seen(p: Pipe, base: seq<BlockId>): seq<BlockId>
    requires |base| <= |Visible(p.db)|
  {
    (Visible(p.db) + Ids(Behind(p)))[|base|..]
  }

  ghost predicate FeesRight(fees: map<Tx, nat>, txs: seq<Tx>) {
    forall t | t in txs :: t in fees && fees[t] == Fee(t)
  }

  ghost predicate StagesRight(p: Pipe) {
    && (p.fetcher.Resolved? ==> Resolves(p.fetcher.values, TxsOfBlocks(p.fetcher.bs)))
    && (p.formatter.Given? ==> Resolves(p.formatter.values, TxsOfBlocks(p.formatter.bs)))
    && (p.formatter.Formatted? ==> FeesRight(p.formatter.fees, TxsOfBlocks(p.formatter.bs)))
    && (p.writer.Taken? ==> FeesRight(p.writer.fees, TxsOfBlocks(p.writer.bs)))
    && (p.writer.Written? ==> forall b | b in p.writer.bs :: b.id in Visible(p.db))
    && (p.fetcher.FetchIdle? || p.fetcher.bs != [])
    && (p.formatter.FormatIdle? || p.formatter.bs != [])
    && (p.writer.WriteIdle? || p.writer.bs != [])
  }

  /** `bs` continues the chain `c`, and the result is a valid history. */
  ghost predicate Continues(c: seq<BlockId>, bs: seq<Block>) {
    IsChain(c + Ids(bs)) && Heights(bs, |c|) && Valid(TxsOf(c + Ids(bs)))
  }

  /** `base` is the committed chain at the time the pipeline was started. */
  ghost predicate PipeInv(p: Pipe, base: seq<BlockId>) {
    && DbInv(p.db)
    && Continues(Visible(p.db), Held(p))
    && base <= Visible(p.db)
    && CacheIs(p.cache, TxsOf(Seen(p, base)))
    && StagesRight(p)
    && p.inFlight == Marked(p)
  }

  function Start(db: Db): Pipe {
    Pipe(db, map[], [], FetchIdle, FormatIdle, WriteIdle, {})
  }

  lemma StartInv(db: Db)
    requires DbInv(db) && Valid(TxsOf(Visible(db)))
    ensures PipeInv(Start(db), Visible(db))
  {
    hide TablesFaithful, Holds, AncestorClosed, IsChain, FollowAll, Valid;
    var p := Start(db);
    assert Held(p) == [] && Behind(p) == [];
    assert Visible(db) + [] == Visible(db);
    assert Seen(p, Visible(db)) == [];
  }

  // ---------------------------------------------------------------- facts used by the steps

  lemma {:induction false} FormatFeesRight(values: Values, before: seq<Tx>, txs: seq<Tx>, n: nat)
    requires Valid(before + txs) && Resolves(values, txs) && n <= |txs|
    ensures FormatFees(values, txs[..n]).Some?
    ensures FeesRight(FormatFees(values, txs[..n]).value, txs[..n])
  {
    hide Valid, Resolves;
    if n > 0 {
      FormatFeesRight(values, before, txs, n - 1);
      FeesCorrect(values, before, txs, n - 1);
      assert txs[..n][..n - 1] == txs[..n - 1];
      assert forall t | t in txs[..n] :: t in txs[..n - 1] || t == txs[n - 1];
    }
  }

  lemma {:induction false} InsertTxsSame(tables: Tables, id: BlockId, txs: seq<Tx>, fees: map<Tx, nat>)
    requires FeesRight(fees, txs)
    ensures InsertTxsWith(tables, id, txs, fees) == InsertTxs(tables, id, txs)
  {
    if txs != [] {
      assert txs == txs[..|txs| - 1] + [txs[|txs| - 1]];
      InsertTxsSame(tables, id, txs[..|txs| - 1], fees);
    }
  }

  /** Executing the formatted queries is committing the batch. */
  lemma {:induction false} ExecuteCommits(db: Db, bs: seq<Block>, fees: map<Tx, nat>)
    requires FeesRight(fees, TxsOfBlocks(bs))
    ensures Execute(db, bs, fees) == AppendBlocks(db, bs)
  {
    if bs != [] {
      var init, last := bs[..|bs| - 1], bs[|bs| - 1];
      assert Ids(bs)[..|bs| - 1] == Ids(init);
      ExecuteCommits(db, init, fees);
      if last.id.Hash? {
        InsertTxsSame(AppendBlocks(db, init).tables, last.id, last.id.txs, fees);
      }
    }
  }

  /** The output table covers everything committed, extinct blocks and mempool included. */
  lemma CommittedCovered(db: Db, c: seq<BlockId>)
    requires DbInv(db) && c <= Visible(db)
    ensures TableCovers(db.tables.outputs, TxsOf(c))
  {
    hide FollowAll, IsChain, AncestorClosed;
    var v := Visible(db);
    forall p | Created(TxsOf(c), p) ensures p in db.tables.outputs {
      TxsOfMember(c, p.tx);
      var i :| 0 <= i < |c| && c[i].Hash? && p.tx in c[i].txs;
      assert LiveAt(db.rows, i, v[i]);
      assert (c[i], p.tx) in db.tables.blockTx;
    }
  }

  lemma TxsPrefixValid(c: seq<BlockId>, n: nat)
    requires Valid(TxsOf(c)) && n <= |c|
    ensures Valid(TxsOf(c[..n]))
  {
    hide Valid;
    assert c == c[..n] + c[n..];
    TxsOfConcat(c[..n], c[n..]);
    ValidPrefix(TxsOf(c[..n]), TxsOf(c[n..]));
  }

  /** A batch inside the pipeline continues the valid history below it. */
  lemma ValidBelow(v: seq<BlockId>, a: seq<Block>, bs: seq<Block>, rest: seq<Block>)
    requires Valid(TxsOf(v + Ids(a + bs + rest)))
    ensures Valid(TxsOf(v + Ids(a)) + TxsOfBlocks(bs))
  {
    hide Valid, TxsOf, Ids;
    IdsConcat(a + bs, rest);
    IdsConcat(a, bs);
    FrontOf(v, Ids(a), Ids(bs), Ids(rest));
    TxsPrefixValid(v + Ids(a + bs + rest), |v| + |Ids(a)| + |Ids(bs)|);
    TxsOfConcat(v + Ids(a), Ids(bs));
  }

  lemma FrontOf<T>(v: seq<T>, a: seq<T>, b: seq<T>, c: seq<T>)
    ensures (v + (a + b + c))[..|v| + |a| + |b|] == v + a + b
  {
  }

  // ---------------------------------------------------------------- each step

  lemma ContinuesMore(v: seq<BlockId>, held: seq<Block>, bs: seq<Block>)
    requires Continues(v, held) && Continues(v + Ids(held), bs)
    ensures Continues(v, held + bs) && v + Ids(held + bs) == v + Ids(held) + Ids(bs)
  {
    hide IsChain, Valid, TxsOf;
    IdsConcat(held, bs);
    assert v + Ids(held + bs) == v + Ids(held) + Ids(bs);
    HeightsSplit(held, bs, |v|);
  }

  lemma ContinuesLess(v: seq<BlockId>, bs: seq<Block>, held: seq<Block>)
    requires Continues(v, bs + held)
    ensures Continues(v + Ids(bs), held) && v + Ids(bs + held) == v + Ids(bs) + Ids(held)
    ensures IsChain(v + Ids(bs)) && Heights(bs, |v|)
  {
    hide IsChain, Valid, TxsOf;
    IdsConcat(bs, held);
    var c := v + Ids(bs + held);
    assert c == v + Ids(bs) + Ids(held);
    HeightsSplit(bs, held, |v|);
    assert c[..|v| + |bs|] == v + Ids(bs);
    ChainPrefix(c, |v| + |bs|);
  }

  /** Which stage's contents a step changes. */
  lemma StageMoves(p: Pipe, l: Label)
    requires Enabled(p, l) && Step(p, l).Some?
    ensures var p' := Step(p, l).value;
      && (l.Write? || l.Queue? || WriterHolds(p') == WriterHolds(p))
      && (l.HandOver? || l.Queue? || FormatterHolds(p') == FormatterHolds(p))
      && (l.Resolve? || l.HandOver? || ResolvedHolds(p') == ResolvedHolds(p))
      && (l.Take? || l.Resolve? || GotHolds(p') == GotHolds(p))
      && (l.Offer? || l.Take? || p'.outbox == p.outbox)
      && match l
         case Offer(bs) => p.outbox == [] && p'.outbox == bs
         case Take => GotHolds(p) == [] && GotHolds(p') == p.outbox && p'.outbox == []
         case Resolve => ResolvedHolds(p) == [] && ResolvedHolds(p') == GotHolds(p) == p.fetcher.bs && GotHolds(p') == []
         case HandOver => FormatterHolds(p) == [] && FormatterHolds(p') == ResolvedHolds(p) && ResolvedHolds(p') == []
         case Queue => WriterHolds(p) == [] && WriterHolds(p') == FormatterHolds(p) && FormatterHolds(p') == []
         case Write => WriterHolds(p) == p.writer.bs && WriterHolds(p') == []
         case _ => true
  {
    hide Process, FormatFees, Execute, MempoolInsert, IdSet;
  }

  lemma Regroup<T>(w: seq<T>, f: seq<T>, r: seq<T>, g: seq<T>, o: seq<T>)
    ensures w + f + r + (g + []) + o == w + f + r + (g + o)
    ensures w + f + r + (o + []) == w + f + r + ([] + o)
    ensures w + f + [] + g == w + f + g && w + f + g + ([] + o) == w + f + [] + (g + o)
    ensures w + r + [] == w + [] + r && f + [] + r == [] + f + r
    ensures w + ([] + f + r) == w + f + r && w + ([] + f + r + (g + o)) == w + f + r + (g + o)
  {
  }

  /** How each step rearranges the contents. */
  lemma Contents(p: Pipe, l: Label)
    requires Enabled(p, l) && Step(p, l).Some?
    ensures var p' := Step(p, l).value;
      match l
      case Offer(bs) => Behind(p') == Behind(p) && Held(p') == Held(p) + bs
      case Resolve => Behind(p') == Behind(p) + p.fetcher.bs && Held(p') == Held(p)
      case Write => Behind(p) == p.writer.bs + Behind(p') && Held(p) == p.writer.bs + Held(p')
      case _ => Behind(p') == Behind(p) && Held(p') == Held(p)
  {
    hide Step, WriterHolds, FormatterHolds, ResolvedHolds, GotHolds;
    StageMoves(p, l);
    Regroup(WriterHolds(p), FormatterHolds(p), ResolvedHolds(p), GotHolds(p),
            if l.Offer? then l.bs else p.outbox);
  }

  lemma Assoc<T>(a: seq<T>, b: seq<T>, c: seq<T>)
    ensures a + b + c == a + (b + c)
    ensures a + [] == a && [] + a == a
  {
  }

  lemma OfferKeeps(p: Pipe, base: seq<BlockId>, bs: seq<Block>)
    requires PipeInv(p, base) && Enabled(p, Offer(bs)) && Continues(LiveChain(p), bs)
    ensures PipeInv(Step(p, Offer(bs)).value, base)
    ensures LiveChain(Step(p, Offer(bs)).value) == LiveChain(p) + Ids(bs)
  {
    hide DbInv, Visible, Continues, CacheIs, Resolves, FeesRight, IdSet, TxsOf, Held, Behind;
    var p' := Step(p, Offer(bs)).value;
    Contents(p, Offer(bs));
    ContinuesMore(Visible(p.db), Held(p), bs);
    IdSetConcat(Held(p), bs);
  }

  /** Handing a batch on changes only where it is. */
  lemma HandOnKeeps(p: Pipe, base: seq<BlockId>, l: Label)
    requires PipeInv(p, base) && Enabled(p, l) && (l.Take? || l.HandOver? || l.Queue?)
    ensures PipeInv(Step(p, l).value, base) && LiveChain(Step(p, l).value) == LiveChain(p)
  {
    hide DbInv, Visible, Continues, CacheIs, Resolves, FeesRight, IdSet, TxsOf, Held, Behind;
    var p' := Step(p, l).value;
    Contents(p, l);
    assert p'.db == p.db;
  }

  lemma ResolveKeeps(p: Pipe, base: seq<BlockId>)
    requires PipeInv(p, base) && p.fetcher.Got?
    ensures Step(p, Resolve).Some?
    ensures PipeInv(Step(p, Resolve).value, base) && LiveChain(Step(p, Resolve).value) == LiveChain(p)
  {
    hide DbInv, Visible, Continues, Valid, CacheIs, TableCovers, Resolves, FeesRight, IdSet, TxsOf, Process, Held, Behind;
    var bs := p.fetcher.bs;
    ResolveFacts(p, base);
    ProcessCorrect(p.cache, p.db.tables.outputs, TxsOf(base), TxsOf(Seen(p, base)), TxsOfBlocks(bs));
    Contents(p, Resolve);
    var p' := Step(p, Resolve).value;
    assert Seen(p', base) == Seen(p, base) + Ids(bs) by {
      IdsConcat(Behind(p), bs);
    }
    TxsOfConcat(Seen(p, base), Ids(bs));
  }

  lemma ResolveFacts(p: Pipe, base: seq<BlockId>)
    requires PipeInv(p, base) && p.fetcher.Got?
    ensures Valid(TxsOf(base) + TxsOf(Seen(p, base)) + TxsOfBlocks(p.fetcher.bs))
    ensures TableCovers(p.db.tables.outputs, TxsOf(base))
  {
    hide DbInv, Visible, IsChain, Valid, CacheIs, TableCovers, StagesRight, IdSet, TxsOf, Behind;
    var v, bs := Visible(p.db), p.fetcher.bs;
    assert Held(p) == Behind(p) + bs + p.outbox by {
      Assoc(Behind(p), bs, p.outbox);
    }
    ValidBelow(v, Behind(p), bs, p.outbox);
    assert v + Ids(Behind(p)) == base + Seen(p, base);
    TxsOfConcat(base, Seen(p, base));
    CommittedCovered(p.db, base);
  }

  lemma FormatKeeps(p: Pipe, base: seq<BlockId>)
    requires PipeInv(p, base) && p.formatter.Given?
    ensures Step(p, Format).Some?
    ensures PipeInv(Step(p, Format).value, base) && LiveChain(Step(p, Format).value) == LiveChain(p)
  {
    hide DbInv, Visible, Continues, Valid, CacheIs, Resolves, FeesRight, IdSet, TxsOf, FormatFees, Held, Behind;
    FormatFacts(p, base);
    Contents(p, Format);
  }

  lemma FormatFacts(p: Pipe, base: seq<BlockId>)
    requires PipeInv(p, base) && p.formatter.Given?
    ensures FormatFees(p.formatter.values, TxsOfBlocks(p.formatter.bs)).Some?
    ensures FeesRight(FormatFees(p.formatter.values, TxsOfBlocks(p.formatter.bs)).value, TxsOfBlocks(p.formatter.bs))
  {
    hide DbInv, Visible, IsChain, Valid, CacheIs, Resolves, FeesRight, IdSet, TxsOf, FormatFees;
    var w, bs := WriterHolds(p), p.formatter.bs;
    var resolved := ResolvedHolds(p);
    Assoc(w + bs, resolved, Ahead(p));
    ValidBelow(Visible(p.db), w, bs, resolved + Ahead(p));
    var txs := TxsOfBlocks(bs);
    FormatFeesRight(p.formatter.values, TxsOf(Visible(p.db) + Ids(w)), txs, |txs|);
    assert txs[..|txs|] == txs;
  }

  lemma WriteKeeps(p: Pipe, base: seq<BlockId>)
    requires PipeInv(p, base) && p.writer.Taken?
    ensures PipeInv(Step(p, Write).value, base) && LiveChain(Step(p, Write).value) == LiveChain(p)
    ensures Step(p, Write).value.db == AppendBlocks(p.db, p.writer.bs)
    ensures Visible(Step(p, Write).value.db) == Visible(p.db) + Ids(p.writer.bs)
  {
    hide DbInv, Visible, Continues, CacheIs, Resolves, FeesRight, TxsOf, Execute, AppendBlocks, Held, Behind, IdSet;
    var v, bs := Visible(p.db), p.writer.bs;
    var p' := Step(p, Write).value;
    ExecuteCommits(p.db, bs, p.writer.fees);
    Contents(p, Write);
    IdSetConcat(bs, Held(p'));
    ContinuesLess(v, bs, Held(p'));
    AppendCommitted(p.db, bs);
    assert Seen(p', base) == Seen(p, base) by {
      IdsConcat(bs, Behind(p'));
      Assoc(v, Ids(bs), Ids(Behind(p')));
    }
    WrittenVisible(v, bs);
  }

  lemma WrittenVisible(v: seq<BlockId>, bs: seq<Block>)
    ensures forall b | b in bs :: b.id in v + Ids(bs)
  {
    forall b | b in bs ensures b.id in v + Ids(bs) {
      var i :| 0 <= i < |bs| && bs[i] == b;
      IdsAt(bs, i);
      assert (v + Ids(bs))[|v| + i] == b.id;
    }
  }

  lemma UnmarkKeeps(p: Pipe, p': Pipe, base: seq<BlockId>, bs: seq<Block>)
    requires p.writer == Written(bs) && p' == p.(inFlight := p.inFlight - IdSet(bs), writer := WriteIdle)
    requires PipeInv(p, base)
    ensures IdSet(bs) <= p.inFlight
    ensures PipeInv(p', base) && LiveChain(p') == LiveChain(p)
  {
    hide DbInv, Visible, Continues, CacheIs, StagesRight, Valid, TxsOf, Held, Behind, IdSet;
    UnmarkedStages(p, p');
    WrittenDisjoint(Visible(p.db), bs, Held(p));
    Contents(p, Unmark);
  }

  lemma UnmarkedStages(p: Pipe, p': Pipe)
    requires StagesRight(p) && p.writer.Written? && p' == p.(inFlight := p'.inFlight, writer := WriteIdle)
    ensures StagesRight(p') && forall b | b in p.writer.bs :: b.id in Visible(p.db)
  {
    hide Visible, Resolves, FeesRight;
  }

  /** What is written has left the stages. */
  lemma WrittenDisjoint(v: seq<BlockId>, written: seq<Block>, held: seq<Block>)
    requires Continues(v, held) && forall b | b in written :: b.id in v
    ensures IdSet(written) !! IdSet(held)
  {
    hide Valid, TxsOf, IsChain;
    var c := v + Ids(held);
    forall b, h | b in written && h in held ensures b.id != h.id {
      var i :| 0 <= i < |v| && v[i] == b.id;
      var j :| 0 <= j < |held| && held[j] == h;
      IdsAt(held, j);
      assert c[i] == b.id && c[|v| + j] == h.id;
      if b.id == h.id {
        SharedBlock(c, c, i, |v| + j);
      }
    }
  }

  lemma MempoolKeeps(p: Pipe, p': Pipe, base: seq<BlockId>, t: Tx)
    requires PipeInv(p, base) && Step(p, Mempool(t)) == Some(p')
    ensures PipeInv(p', base) && LiveChain(p') == LiveChain(p)
  {
    hide DbInv, Visible, MempoolInsert, Continues, CacheIs, Resolves, FeesRight, TxsOf, IdSet, Held, Behind;
    MempoolKeepsDb(p.db, t);
    MempoolInvisible(p.db, t);
    Contents(p, Mempool(t));
  }

  lemma MempoolKeepsDb(db: Db, t: Tx)
    requires DbInv(db)
    ensures DbInv(MempoolInsert(db, t))
  {
    hide TablesFaithful, Holds, AncestorClosed, FollowAll, IsChain;
    MempoolKeepsTables(db, t);
  }

  /** A batch offered by the store must continue the live chain. */
  ghost predicate Admissible(p: Pipe, l: Label) {
    Enabled(p, l) && (l.Offer? ==> Continues(LiveChain(p), l.bs))
  }

  /** No thread ever fails, nothing is lost, duplicated or reordered, and commits only extend
      the visible chain. */
  lemma StepKeeps(p: Pipe, base: seq<BlockId>, l: Label)
    requires PipeInv(p, base) && Admissible(p, l)
    ensures Step(p, l).Some?
    ensures var p' := Step(p, l).value;
      && PipeInv(p', base)
      && LiveChain(p') == (if l.Offer? then LiveChain(p) + Ids(l.bs) else LiveChain(p))
      && Visible(p.db) <= Visible(p'.db)
  {
    hide PipeInv, LiveChain, Visible, Continues;
    match l
    case Offer(bs) => OfferKeeps(p, base, bs);
    case Take => HandOnKeeps(p, base, l);
    case Resolve => ResolveKeeps(p, base);
    case HandOver => HandOnKeeps(p, base, l);
    case Format => FormatKeeps(p, base);
    case Queue => HandOnKeeps(p, base, l);
    case Write => WriteKeeps(p, base);
    case Unmark =>
      var bs := p.writer.bs;
      UnmarkKeeps(p, p.(inFlight := p.inFlight - IdSet(bs), writer := WriteIdle), base, bs);
    case Mempool(t) =>
      MempoolKeeps(p, Step(p, l).value, base, t);
      MempoolInvisible(p.db, t);
  }

  lemma MempoolInvisible(db: Db, t: Tx)
    ensures Visible(MempoolInsert(db, t)) == Visible(db)
  {
  }

  // ---------------------------------------------------------------- whole runs

  ghost function Run(p: Pipe, ls: seq<Label>): Option<Pipe> {
    if ls == [] then Some(p)
    else
      match Run(p, ls[..|ls| - 1])
      case None => None
      case Some(q) => if Enabled(q, ls[|ls| - 1]) then Step(q, ls[|ls| - 1]) else Some(q)
  }

  /** Everything offered along a run, in order. */
  function Offered(ls: seq<Label>): seq<BlockId> {
    if ls == [] then []
    else Offered(ls[..|ls| - 1]) + (if ls[|ls| - 1].Offer? then Ids(ls[|ls| - 1].bs) else [])
  }

  /** Each offer of the run is enabled and continues the live chain. */
  ghost predicate AdmissibleRun(p: Pipe, ls: seq<Label>) {
    ls == [] ||
    (AdmissibleRun(p, ls[..|ls| - 1]) &&
     var q := Run(p, ls[..|ls| - 1]);
     (q.Some? && ls[|ls| - 1].Offer? ==> Admissible(q.value, ls[|ls| - 1])))
  }

  /** For every interleaving: no failure, every committed state is consistent, and committed
      blocks followed by the stages are exactly the start plus everything offered. */
  lemma {:induction false} RunKeeps(db: Db, ls: seq<Label>)
    requires DbInv(db) && Valid(TxsOf(Visible(db))) && AdmissibleRun(Start(db), ls)
    ensures Run(Start(db), ls).Some?
    ensures var p := Run(Start(db), ls).value;
      && PipeInv(p, Visible(db))
      && LiveChain(p) == Visible(db) + Offered(ls)
  {
    hide PipeInv, LiveChain, Continues, DbInv, Valid, TxsOf, Visible, Step, Start;
    if ls == [] {
      StartInv(db);
      StartLive(db);
    } else {
      var init, last := ls[..|ls| - 1], ls[|ls| - 1];
      RunKeeps(db, init);
      var q := Run(Start(db), init).value;
      if Enabled(q, last) {
        StepKeeps(q, Visible(db), last);
      }
      assert Visible(db) + Offered(init) + (if last.Offer? then Ids(last.bs) else []) == Visible(db) + Offered(ls);
    }
  }

  lemma StartLive(db: Db)
    ensures LiveChain(Start(db)) == Visible(db)
  {
    hide Visible;
    assert Held(Start(db)) == [];
  }

  lemma SomeId(bs: seq<Block>)
    requires bs != []
    ensures IdSet(bs) != {}
  {
    assert bs[0].id in IdSet(bs);
  }

  /** When no id is marked as in flight, everything handed over can be read back. */
  lemma EmptyInFlightMeansWritten(p: Pipe, base: seq<BlockId>)
    requires PipeInv(p, base) && p.inFlight == {}
    ensures Visible(p.db) == LiveChain(p)
  {
    hide DbInv, Visible, Continues, CacheIs, StagesRight;
    if Held(p) != [] {
      SomeId(Held(p));
    }
  }

  /** A crash loses at most what was not committed: the database still opens. */
  lemma CrashAnywhere(db: Db, ls: seq<Label>)
    requires DbInv(db) && Valid(TxsOf(Visible(db))) && AdmissibleRun(Start(db), ls)
    ensures Run(Start(db), ls).Some?
    ensures var left := Run(Start(db), ls).value.db;
      DbInv(left) && Visible(db) <= Visible(left) <= Visible(db) + Offered(ls)
  {
    RunKeeps(db, ls);
    hide DbInv, Visible, Continues, CacheIs, StagesRight, Run, Valid, TxsOf;
    var p := Run(Start(db), ls).value;
    assert LiveChain(p) == Visible(p.db) + Ids(Held(p));
  }

  // ---------------------------------------------------------------- refinement and shutdown

  function NonEmpty(bs: seq<Block>): seq<seq<Block>> {
    if bs == [] then [] else [bs]
  }

  /** The pipeline as the store sees it: a queue of batches, oldest first. */
  function Batches(p: Pipe): seq<seq<Block>> {
    NonEmpty(WriterHolds(p)) + NonEmpty(FormatterHolds(p)) + NonEmpty(FetcherHolds(p)) + NonEmpty(p.outbox)
  }

  /** The three threads refine the queue: a step leaves queue and database alone, or commits
      exactly the oldest batch, or adds the offered one. */
  lemma StepRefinesQueue(p: Pipe, base: seq<BlockId>, l: Label)
    requires PipeInv(p, base) && Admissible(p, l) && !l.Mempool?
    ensures Step(p, l).Some?
    ensures var p' := Step(p, l).value;
      match l
      case Offer(bs) => p'.db == p.db && Batches(p') == Batches(p) + [bs]
      case Write => Batches(p) != [] && p'.db == AppendBlocks(p.db, Batches(p)[0]) && Batches(p') == Batches(p)[1..]
      case _ => p'.db == p.db && Batches(p') == Batches(p)
  {
    hide PipeInv, LiveChain, Visible, AppendBlocks, Step, Continues, Enabled, WriterHolds, FormatterHolds, FetcherHolds;
    StepKeeps(p, base, l);
    NonEmptyStages(p, base);
    QueueMoves(p, l);
    var w, f, r := NonEmpty(WriterHolds(p)), NonEmpty(FormatterHolds(p)), NonEmpty(FetcherHolds(p));
    Regroup4(w, f, r, NonEmpty(p.outbox));
    if l.Write? {
      WriteKeeps(p, base);
      Queue4(p.writer.bs, f, r, NonEmpty(p.outbox));
    }
    if l.Offer? {
      Assoc(w + f + r, [], [l.bs]);
    }
  }

  /** Which place in the queue a step changes. */
  lemma QueueMoves(p: Pipe, l: Label)
    requires Enabled(p, l) && Step(p, l).Some?
    requires p.writer.WriteIdle? || p.writer.bs != []
    ensures var p' := Step(p, l).value;
      && (l.Write? || l.Queue? || WriterHolds(p') == WriterHolds(p))
      && (l.HandOver? || l.Queue? || FormatterHolds(p') == FormatterHolds(p))
      && (l.Take? || l.HandOver? || FetcherHolds(p') == FetcherHolds(p))
      && (l.Offer? || l.Take? || p'.outbox == p.outbox)
      && (l.Write? || l.Mempool? || p'.db == p.db)
      && match l
         case Offer(bs) => bs != [] && p.outbox == [] && p'.outbox == bs
         case Take => FetcherHolds(p) == [] && FetcherHolds(p') == p.outbox && p'.outbox == []
         case HandOver => FormatterHolds(p) == [] && FormatterHolds(p') == FetcherHolds(p) && FetcherHolds(p') == []
         case Queue => WriterHolds(p) == [] && WriterHolds(p') == FormatterHolds(p) && FormatterHolds(p') == []
         case Write => p.writer.Taken? && WriterHolds(p) == p.writer.bs != [] && WriterHolds(p') == []
         case _ => true
  {
    hide Process, FormatFees, Execute, MempoolInsert, IdSet;
  }

  lemma Regroup4<T>(w: seq<T>, f: seq<T>, r: seq<T>, o: seq<T>)
    ensures w + f + [] + o == w + f + o + []
    ensures w + [] + r + o == w + r + [] + o
    ensures [] + f + r + o == f + [] + r + o
  {
  }

  lemma NonEmptyStages(p: Pipe, base: seq<BlockId>)
    requires PipeInv(p, base)
    ensures p.fetcher.FetchIdle? || p.fetcher.bs != []
    ensures p.formatter.FormatIdle? || p.formatter.bs != []
    ensures p.writer.WriteIdle? || p.writer.bs != []
  {
    hide DbInv, Visible, Continues, CacheIs, Resolves, FeesRight, TxsOf, Held, Behind, IdSet;
  }

  lemma Queue4<T>(head: T, a: seq<T>, b: seq<T>, c: seq<T>)
    ensures ([head] + a + b + c)[0] == head && ([head] + a + b + c)[1..] == [] + a + b + c
  {
  }

  /** How many thread steps remain until the pipeline is empty. */
  function Work(p: Pipe): nat {
    (if p.outbox == [] then 0 else 7)
    + (match p.fetcher case FetchIdle => 0 case Got(_) => 6 case Resolved(_, _) => 5)
    + (match p.formatter case FormatIdle => 0 case Given(_, _) => 4 case Formatted(_, _) => 3)
    + (match p.writer case WriteIdle => 0 case Taken(_, _) => 2 case Written(_) => 1)
  }

  /** The next thread step of a pipeline that is not empty: the furthest stage moves first. */
  function Drain(p: Pipe): Label {
    if p.writer.Taken? then Write
    else if p.writer.Written? then Unmark
    else if p.formatter.Given? then Format
    else if p.formatter.Formatted? then Queue
    else if p.fetcher.Got? then Resolve
    else if p.fetcher.Resolved? then HandOver
    else Take
  }

  /** Shutdown: every thread step brings the end nearer, one is always possible until nothing
      is left, and then everything is committed. */
  lemma DrainTerminates(p: Pipe, base: seq<BlockId>, l: Label)
    requires PipeInv(p, base)
    ensures Enabled(p, l) && !l.Offer? && !l.Mempool? ==> Step(p, l).Some? && Work(Step(p, l).value) < Work(p)
    ensures Work(p) > 0 ==> Enabled(p, Drain(p))
    ensures Work(p) == 0 ==> p.inFlight == {} && Visible(p.db) == LiveChain(p)
  {
    hide PipeInv, LiveChain, Visible, Process, FormatFees, Execute, IdSet, Continues, MempoolInsert;
    NonEmptyStages(p, base);
    if Enabled(p, l) && !l.Offer? && !l.Mempool? {
      StepKeeps(p, base, l);
    }
    if Work(p) == 0 {
      IdleIsWritten(p, base);
    }
  }

  lemma IdleIsWritten(p: Pipe, base: seq<BlockId>)
    requires PipeInv(p, base) && p.outbox == [] && p.fetcher.FetchIdle? && p.formatter.FormatIdle? && p.writer.WriteIdle?
    ensures p.inFlight == {} && Visible(p.db) == LiveChain(p)
  {
    hide DbInv, Visible, Continues, CacheIs, StagesRight, TxsOf;
    assert Held(p) == [];
    assert IdSet([]) == {};
  }

  // ---------------------------------------------------------------- finishing a reorg

  /** A reorg is written with a new, empty cache: below the blocks it stores everything is
      already in the tables, revived or not, so no lookup fails and the fees are right. */
  lemma ReorgResolves(db: Db, unseen: seq<Block>, c: seq<BlockId>, n: nat, m: nat)
    requires IsChain(c) && Settling(db, unseen, c, n, m, |c|) && Valid(TxsOf(c))
    ensures var r := Process(map[], db.tables.outputs, TxsOfBlocks(unseen));
      && r.Some? && Resolves(r.value.1, TxsOfBlocks(unseen))
      && FormatFees(r.value.1, TxsOfBlocks(unseen)).Some?
      && Execute(db, unseen, FormatFees(r.value.1, TxsOfBlocks(unseen)).value) == AppendBlocks(db, unseen)
  {
    hide TablesFaithful, Holds, IsChain, Followed, AncestorClosed, Valid, TxsOf, CacheIs, TableCovers, Resolves, Process,
         FormatFees, FeesRight, Execute, AppendBlocks, Blocks, Ids;
    BlocksMeaning(c, m, |c|);
    assert c == c[..m] + c[m..|c|];
    TxsOfConcat(c[..m], c[m..|c|]);
    var base, txs := TxsOf(c[..m]), TxsOfBlocks(unseen);
    LiveCovered(db, c[..m]);
    assert base + [] + txs == base + txs;
    assert CacheIs(map[], []) by {
      NothingCached();
    }
    ProcessCorrect(map[], db.tables.outputs, base, [], txs);
    var values := Process(map[], db.tables.outputs, txs).value.1;
    FormatFeesRight(values, base, txs, |txs|);
    assert txs[..|txs|] == txs;
    ExecuteCommits(db, unseen, FormatFees(values, txs).value);
  }

  lemma NothingCached()
    ensures CacheIs(map[], [])
  {
  }

  lemma LiveCovered(db: Db, c: seq<BlockId>)
    requires TablesFaithful(db) && Holds(db.rows, c)
    ensures TableCovers(db.tables.outputs, TxsOf(c))
  {
    forall p | Created(TxsOf(c), p) ensures p in db.tables.outputs {
      TxsOfMember(c, p.tx);
      var i :| 0 <= i < |c| && c[i].Hash? && p.tx in c[i].txs;
      assert LiveAt(db.rows, i, c[i]);
      assert (c[i], p.tx) in db.tables.blockTx;
    }
  }
}
