/** The store together with its three writing threads.  `Whole` is the state that really exists:
    no database or queue of its own, both are inside the pipeline.  Seen from outside it is the
    store of StoreSpec, step by step and over whole runs, whatever the threads do in between. */
module StorePipeline {
  import opened Chain
  import opened Ledger
  import opened Database
  import opened UtxoCache
  import S = StoreSpec
  import SP = StoreProofs
  import SR = StoreRuns
  import Pi = Pipeline

  datatype Whole = Whole(
    pipe: Pi.Pipe,
    batch: seq<Block>,
    batchTxs: nat,
    pending: map<nat, Block>,
    count: nat,
    running: bool,
    mode: S.Mode,
    head: nat)

  /** The store as its specification sees it. */
  function View(w: Whole): S.Store {
    S.Store(w.pipe.db, Pi.Batches(w.pipe), w.batch, w.batchTxs, w.pending, w.count, w.running, w.mode, w.head)
  }

  // ---------------------------------------------------------------- operations

  function FlushBatch(w: Whole): Whole
    requires w.batch != [] ==> w.pipe.outbox == []
  {
    if w.batch == [] then w
    else w.(pipe := Pi.Step(w.pipe, Pi.Offer(w.batch)).value, batch := [], batchTxs := 0)
  }

  /** Closing the channel and joining the threads; None when one of them died. */
  function Drained(p: Pi.Pipe): Option<Pi.Pipe>
    decreases Pi.Work(p)
  {
    if Pi.Work(p) == 0 then Some(p)
    else if !Pi.Enabled(p, Pi.Drain(p)) then None
    else
      var q := Pi.Step(p, Pi.Drain(p));
      if q.Some? && Pi.Work(q.value) < Pi.Work(p) then Drained(q.value) else None
  }

  function StopWorkers(w: Whole): Option<Whole> {
    match Drained(w.pipe)
    case None => None
    case Some(p) => Some(w.(pipe := p, running := false))
  }

  /** New threads with a new cache. */
  function StartWorkers(w: Whole): Whole {
    w.(pipe := Pi.Start(w.pipe.db), running := true)
  }

  function FlushWorkers(w: Whole): Option<Whole>
    requires w.batch != [] ==> w.pipe.outbox == []
  {
    if !w.running then Some(w)
    else
      var f := FlushBatch(w);
      if f.pipe.inFlight == {} then Some(f)
      else
        match StopWorkers(f)
        case None => None
        case Some(t) => Some(StartWorkers(t))
  }

  function SetMode(w: Whole, mode: S.Mode): Option<Whole>
    requires w.batch != [] ==> w.pipe.outbox == []
  {
    if w.mode == mode then Some(w) else FlushWorkers(w.(mode := mode))
  }

  function Added(w: Whole, b: Block): Whole {
    w.(batch := w.batch + [b], count := w.count + 1, batchTxs := w.batchTxs + S.TxCount([b]))
  }

  ghost function InsertAtTip(w: Whole, b: Block): Option<Whole>
    requires w.pipe.outbox == []
  {
    if b.height > w.count then None
    else if b.height != w.count then
      match StopWorkers(FlushBatch(w))
      case None => None
      case Some(stopped) =>
        match HashByHeight(stopped.pipe.db.rows, b.height)
        case None => None
        case Some(id) =>
          if id == b.id then Some(StartWorkers(stopped))
          else Some(stopped.(pending := stopped.pending[b.height := b]))
    else
      var added := Added(w, b);
      var sent := if added.mode.IsBulk() && added.batchTxs <= 100_000 then added else FlushBatch(added);
      if w.head == b.height then SetMode(sent, S.Normal) else Some(sent)
  }

  /** The reorg's transaction runs in the main thread, with a cache of its own. */
  ghost function FinishReorg(w: Whole): Option<Whole> {
    var first := SP.ForkOf(View(w));
    var cut := SP.Cut(w.pipe.db, first, S.CountOf(w.pipe.db.rows));
    var branch := S.From(w.pending, first);
    match S.Settle(cut, [], branch, S.KeysOf(branch), None)
    case Panicked(_) => None
    case Ok((settled, unseen)) =>
      var batch := w.batch + unseen;
      if batch == [] then None
      else
        match Process(map[], settled.tables.outputs, Pi.TxsOfBlocks(batch))
        case None => None
        case Some((_, values)) =>
          match Pi.FormatFees(values, Pi.TxsOfBlocks(batch))
          case None => None
          case Some(fees) =>
            Some(w.(pipe := Pi.Start(Pi.Execute(settled, batch, fees)), batch := [],
                    batchTxs := w.batchTxs + S.TxCount(unseen), pending := map[], count := w.count + 1, running := true))
  }

  ghost function InsertInReorg(w: Whole, b: Block): Option<Whole> {
    if b.height > w.count then None
    else
      var t := w.(pending := S.Below(w.pending, b.height)[b.height := b]);
      if b.height == w.count then FinishReorg(t) else Some(t)
  }

  /** Inserting waits until the first thread has taken the batch handed over before. */
  ghost function InsertBlock(w: Whole, b: Block): Option<Whole>
    requires w.pipe.outbox == []
  {
    if w.pending != map[] then InsertInReorg(w, b) else InsertAtTip(w, b)
  }

  // ---------------------------------------------------------------- invariant

  /** `base` is what was committed when the present threads started. */
  ghost predicate Sound(w: Whole, base: seq<BlockId>, c: seq<BlockId>) {
    && S.Inv(View(w), c)
    && Pi.PipeInv(w.pipe, base)
    && Valid(TxsOf(S.Live(View(w))))
  }

  lemma HeldIsFlat(p: Pi.Pipe)
    ensures S.Flat(Pi.Batches(p)) == Pi.Held(p)
  {
    hide Pi.WriterHolds, Pi.FormatterHolds;
    var w, f, r, o := Pi.WriterHolds(p), Pi.FormatterHolds(p), Pi.FetcherHolds(p), p.outbox;
    FlatFour(w, f, r, o);
    FetcherParts(p);
    Regroup(w, f, Pi.ResolvedHolds(p), Pi.GotHolds(p), o);
  }

  lemma FetcherParts(p: Pi.Pipe)
    ensures Pi.FetcherHolds(p) == Pi.ResolvedHolds(p) + Pi.GotHolds(p)
  {
  }

  lemma Regroup<T>(w: seq<T>, f: seq<T>, r: seq<T>, g: seq<T>, o: seq<T>)
    ensures w + f + (r + g) + o == w + f + r + (g + o)
  {
  }

  lemma FlatFour(w: seq<Block>, f: seq<Block>, r: seq<Block>, o: seq<Block>)
    ensures S.Flat(Pi.NonEmpty(w) + Pi.NonEmpty(f) + Pi.NonEmpty(r) + Pi.NonEmpty(o)) == w + f + r + o
  {
    FlatMore(Pi.NonEmpty(w) + Pi.NonEmpty(f) + Pi.NonEmpty(r), o);
    FlatMore(Pi.NonEmpty(w) + Pi.NonEmpty(f), r);
    FlatMore(Pi.NonEmpty(w), f);
    FlatMore([], w);
    assert [] + Pi.NonEmpty(w) == Pi.NonEmpty(w) && [] + w == w;
  }

  lemma FlatMore(bs: seq<seq<Block>>, b: seq<Block>)
    ensures S.Flat(bs + Pi.NonEmpty(b)) == S.Flat(bs) + b
  {
    if b == [] {
      assert bs + [] == bs && S.Flat(bs) + [] == S.Flat(bs);
    } else {
      SP.FlatSnoc(bs, b);
    }
  }

  lemma LiveSplits(w: Whole)
    ensures S.Live(View(w)) == Pi.LiveChain(w.pipe) + Ids(w.batch)
  {
    hide S.Visible;
    HeldIsFlat(w.pipe);
  }

  // ---------------------------------------------------------------- flushing

  /** What the store hands over continues what the pipeline holds, in a valid history. */
  lemma OfferIsAdmissible(w: Whole, base: seq<BlockId>, c: seq<BlockId>)
    requires Sound(w, base, c) && w.batch != [] && w.pipe.outbox == []
    ensures Pi.Admissible(w.pipe, Pi.Offer(w.batch))
  {
    hide Pi.PipeInv, S.DbInv, IsChain, Valid, TxsOf, S.Live, S.Visible, Pi.LiveChain, Pi.Held, Pi.Batches;
    LiveSplits(w);
    HeldIsFlat(w.pipe);
    InvParts(View(w), c);
    SP.HeightsSplit(S.Flat(Pi.Batches(w.pipe)), w.batch, |S.Visible(w.pipe.db)|);
    LiveChainLength(w.pipe);
  }

  lemma InvParts(s: S.Store, c: seq<BlockId>)
    requires S.Inv(s, c)
    ensures IsChain(S.Live(s)) && S.Heights(S.Flat(s.flight) + s.batch, |S.Visible(s.db)|) && S.DbInv(s.db)
    ensures S.InReorg(s) ==> s.flight == [] && s.batch == [] && !s.running
    ensures !S.InReorg(s) ==> s.running
  {
    hide S.DbInv, IsChain, S.Live, S.PendingIs, S.Visible;
  }

  lemma LiveChainLength(p: Pi.Pipe)
    ensures |Pi.LiveChain(p)| == |S.Visible(p.db)| + |Pi.Held(p)|
  {
    hide S.Visible, Pi.Held;
  }

  predicate CanHandOver(w: Whole) {
    w.batch != [] ==> w.pipe.outbox == []
  }

  lemma FlushRefines(w: Whole, base: seq<BlockId>, c: seq<BlockId>)
    requires Sound(w, base, c) && CanHandOver(w)
    ensures View(FlushBatch(w)) == S.FlushBatch(View(w)) && Sound(FlushBatch(w), base, c) && FlushBatch(w).batch == []
  {
    hide Pi.PipeInv, S.Inv, Valid, TxsOf, S.Live, Pi.Batches, Pi.Step, Pi.Admissible, Pi.Enabled;
    if w.batch != [] {
      OfferIsAdmissible(w, base, c);
      OfferSteps(w.pipe, base, w.batch);
      SP.FlushKeeps(View(w), c);
    }
  }

  lemma OfferSteps(p: Pi.Pipe, base: seq<BlockId>, bs: seq<Block>)
    requires Pi.PipeInv(p, base) && Pi.Admissible(p, Pi.Offer(bs))
    ensures Pi.Enabled(p, Pi.Offer(bs)) && Pi.Step(p, Pi.Offer(bs)).Some?
    ensures var q := Pi.Step(p, Pi.Offer(bs)).value;
      Pi.PipeInv(q, base) && q.db == p.db && Pi.Batches(q) == Pi.Batches(p) + [bs]
  {
    hide Pi.PipeInv, Pi.Batches, Pi.Continues, Pi.LiveChain;
    Pi.StepRefinesQueue(p, base, Pi.Offer(bs));
    Pi.StepKeeps(p, base, Pi.Offer(bs));
  }

  // ---------------------------------------------------------------- stopping

  lemma DrainLabel(p: Pi.Pipe)
    ensures !Pi.Drain(p).Offer? && !Pi.Drain(p).Mempool?
  {
  }

  lemma NothingLeft(p: Pi.Pipe)
    requires Pi.Work(p) == 0
    ensures Pi.Batches(p) == []
  {
  }

  /** The threads, run until nothing is left, commit every batch in order. */
  lemma {:induction false} DrainedIsCommitted(p: Pi.Pipe, base: seq<BlockId>)
    requires Pi.PipeInv(p, base)
    ensures Drained(p).Some?
    ensures var q := Drained(p).value;
      && Pi.PipeInv(q, base) && Pi.Work(q) == 0 && q.inFlight == {}
      && q.db == S.CommitAll(p.db, Pi.Batches(p)) && Pi.Batches(q) == []
    decreases Pi.Work(p)
  {
    hide Pi.PipeInv, Pi.Batches, Pi.Step, Pi.Enabled, Pi.Drain, Pi.Work, AppendBlocks, S.Visible, Pi.LiveChain;
    Pi.DrainTerminates(p, base, Pi.Drain(p));
    if Pi.Work(p) == 0 {
      NothingLeft(p);
    } else {
      DrainLabel(p);
      DrainStep(p, base);
      DrainedIsCommitted(Pi.Step(p, Pi.Drain(p)).value, base);
    }
  }

  lemma DrainStep(p: Pi.Pipe, base: seq<BlockId>)
    requires Pi.PipeInv(p, base) && Pi.Work(p) > 0 && Pi.Enabled(p, Pi.Drain(p))
    ensures Pi.Step(p, Pi.Drain(p)).Some?
    ensures var q := Pi.Step(p, Pi.Drain(p)).value;
      Pi.PipeInv(q, base) && S.CommitAll(q.db, Pi.Batches(q)) == S.CommitAll(p.db, Pi.Batches(p))
  {
    hide Pi.PipeInv, Pi.Batches, Pi.Step, Pi.Enabled, Pi.Drain, Pi.Work, AppendBlocks, Pi.Continues, Pi.LiveChain, S.Visible;
    DrainLabel(p);
    Pi.StepRefinesQueue(p, base, Pi.Drain(p));
    Pi.StepKeeps(p, base, Pi.Drain(p));
  }

  lemma StopRefines(w: Whole, base: seq<BlockId>, c: seq<BlockId>)
    requires Sound(w, base, c) && w.running && w.batch == []
    ensures StopWorkers(w).Some?
    ensures var t := StopWorkers(w).value;
      && View(t) == S.StopWorkers(View(w)) && Pi.PipeInv(t.pipe, base)
      && Sound(StartWorkers(t), S.Visible(t.pipe.db), c)
      && View(StartWorkers(t)) == View(t).(running := true)
      && t.pipe.outbox == []
  {
    hide Pi.PipeInv, S.Inv, Valid, TxsOf, S.Live, S.CommitAll, Drained, S.Visible, S.DbInv, Pi.Start, Pi.Batches;
    DrainedIsCommitted(w.pipe, base);
    SP.StopKeeps(View(w), c);
    var t := StopWorkers(w).value;
    Restarted(t, c);
    InvParts(View(t).(running := true), c);
    Pi.StartInv(t.pipe.db);
    WorkZero(t.pipe);
  }

  lemma WorkZero(p: Pi.Pipe)
    requires Pi.Work(p) == 0
    ensures p.outbox == []
  {
  }

  lemma Restarted(w: Whole, c: seq<BlockId>)
    requires Pi.Batches(w.pipe) == []
    ensures View(StartWorkers(w)) == View(w).(running := true)
  {
  }

  lemma IdleHoldsNothing(p: Pi.Pipe, base: seq<BlockId>)
    requires Pi.PipeInv(p, base) && p.inFlight == {}
    ensures Pi.Batches(p) == []
  {
    hide S.DbInv, S.Visible, Pi.Continues, CacheIs, Pi.StagesRight, Pi.Seen;
    HeldIsFlat(p);
    if Pi.Held(p) != [] {
      Pi.SomeId(Pi.Held(p));
    }
    FlatEmpty(p);
  }

  lemma FlatEmpty(p: Pi.Pipe)
    ensures Pi.Batches(p) != [] ==> S.Flat(Pi.Batches(p)) != []
  {
    var bs := Pi.Batches(p);
    if bs != [] {
      SP.FlatCons(bs);
      assert bs[0] != [];
    }
  }

  lemma FlushWorkersRefines(w: Whole, base: seq<BlockId>, c: seq<BlockId>) returns (base': seq<BlockId>)
    requires Sound(w, base, c) && CanHandOver(w)
    ensures FlushWorkers(w).Some?
    ensures View(FlushWorkers(w).value) == S.FlushWorkers(View(w)) && Sound(FlushWorkers(w).value, base', c)
    ensures CanHandOver(FlushWorkers(w).value)
    ensures w.running ==> FlushWorkers(w).value.pipe.inFlight == {}
  {
    hide Sound, FlushBatch, StopWorkers, StartWorkers, S.StopWorkers, Pi.Batches, S.FlushBatch;
    base' := base;
    if w.running {
      FlushRefines(w, base, c);
      var f := FlushBatch(w);
      FlushRunning(w);
      if f.pipe.inFlight == {} {
        SoundParts(f, base, c);
        IdleHoldsNothing(f.pipe, base);
      } else {
        StopRefines(f, base, c);
        base' := S.Visible(StopWorkers(f).value.pipe.db);
        StopAgain(f);
        NewThreads(StopWorkers(f).value);
      }
    }
  }

  lemma NewThreads(w: Whole)
    ensures StartWorkers(w).pipe.inFlight == {}
  {
  }

  lemma FlushRunning(w: Whole)
    requires CanHandOver(w)
    ensures FlushBatch(w).running == w.running && FlushBatch(w).mode == w.mode
  {
  }

  /** Stopping threads that hold nothing more is no step of the specification. */
  lemma StopAgain(f: Whole)
    requires StopWorkers(f).Some? && f.running && f.batch == []
    requires View(StopWorkers(f).value) == S.StopWorkers(View(f))
    requires View(StartWorkers(StopWorkers(f).value)) == View(StopWorkers(f).value).(running := true)
    ensures Pi.Batches(f.pipe) == [] ==> View(StartWorkers(StopWorkers(f).value)) == View(f)
    ensures StartWorkers(StopWorkers(f).value).batch == []
  {
    hide StopWorkers, Pi.Batches;
    StopKeepsBatch(f);
  }

  lemma StopKeepsBatch(f: Whole)
    requires StopWorkers(f).Some?
    ensures StopWorkers(f).value.batch == f.batch && StartWorkers(StopWorkers(f).value).batch == f.batch
  {
  }

  lemma SoundParts(w: Whole, base: seq<BlockId>, c: seq<BlockId>)
    requires Sound(w, base, c)
    ensures S.Inv(View(w), c) && Pi.PipeInv(w.pipe, base) && Valid(TxsOf(S.Live(View(w))))
  {
    hide S.Inv, Pi.PipeInv, Valid, TxsOf, S.Live;
  }

  lemma SetModeRefines(w: Whole, base: seq<BlockId>, c: seq<BlockId>, mode: S.Mode) returns (base': seq<BlockId>)
    requires Sound(w, base, c) && CanHandOver(w)
    ensures SetMode(w, mode).Some?
    ensures View(SetMode(w, mode).value) == S.SetMode(View(w), mode) && Sound(SetMode(w, mode).value, base', c)
    ensures w.running && w.mode != mode ==> SetMode(w, mode).value.pipe.inFlight == {}
  {
    hide S.Inv, Pi.PipeInv, Valid, TxsOf, S.Live, FlushWorkers, S.FlushWorkers;
    base' := base;
    if w.mode != mode {
      SP.ModeIsFree(View(w), c, mode);
      assert View(w.(mode := mode)) == View(w).(mode := mode);
      base' := FlushWorkersRefines(w.(mode := mode), base, c);
    }
  }

  // ---------------------------------------------------------------- inserting

  lemma AddedIsSound(w: Whole, base: seq<BlockId>, c: seq<BlockId>, b: Block)
    requires Sound(w, base, c) && w.pending == map[] && Fits(c, b) && b.height == w.count
    requires Valid(TxsOf(Insert(c, b)))
    ensures View(Added(w, b)) == SP.Added(View(w), b) && Sound(Added(w, b), base, Insert(c, b))
  {
    hide S.Inv, Pi.PipeInv, Valid, TxsOf, S.Live, Fits;
    SP.AddedKeeps(View(w), c, b);
  }

  lemma OnTopRefines(w: Whole, base: seq<BlockId>, c: seq<BlockId>, b: Block) returns (base': seq<BlockId>)
    requires Sound(w, base, c) && w.pipe.outbox == [] && w.pending == map[] && Fits(c, b) && b.height == w.count
    requires Valid(TxsOf(Insert(c, b)))
    ensures InsertAtTip(w, b).Some?
    ensures S.InsertAtTip(View(w), b) == S.Ok(View(InsertAtTip(w, b).value))
    ensures Sound(InsertAtTip(w, b).value, base', Insert(c, b))
  {
    hide Sound, Valid, TxsOf, FlushBatch, SetMode, S.SetMode, S.FlushBatch, Fits;
    var added := Added(w, b);
    AddedIsSound(w, base, c, b);
    var sent := if added.mode.IsBulk() && added.batchTxs <= 100_000 then added else FlushBatch(added);
    FlushRefines(added, base, Insert(c, b));
    base' := base;
    if w.head == b.height {
      base' := SetModeRefines(sent, base, Insert(c, b), S.Normal);
    }
  }

  lemma BelowTipRefines(w: Whole, base: seq<BlockId>, c: seq<BlockId>, b: Block) returns (base': seq<BlockId>)
    requires Sound(w, base, c) && w.pipe.outbox == [] && w.pending == map[] && Fits(c, b) && b.height < w.count
    ensures InsertAtTip(w, b).Some?
    ensures S.InsertAtTip(View(w), b) == S.Ok(View(InsertAtTip(w, b).value))
    ensures Sound(InsertAtTip(w, b).value, base', Insert(c, b))
  {
    hide Sound, Valid, TxsOf, FlushBatch, StopWorkers, StartWorkers, S.StopWorkers, S.FlushBatch, Fits, S.Live, S.Inv,
         HashByHeight, InsertAtTip, S.InsertAtTip, S.Visible, Pi.Batches;
    SoundParts(w, base, c);
    InvParts(View(w), c);
    SP.InsertBelowTip(View(w), c, b);
    FlushRefines(w, base, c);
    FlushRunning(w);
    StopRefines(FlushBatch(w), base, c);
    var stopped := StopWorkers(FlushBatch(w)).value;
    BelowTipShape(w, b);
    if InsertAtTip(w, b).value == StartWorkers(stopped) {
      base' := S.Visible(stopped.pipe.db);
      SoundParts(StartWorkers(stopped), base', c);
    } else {
      base' := base;
    }
    MakeSound(InsertAtTip(w, b).value, base', Insert(c, b), S.Live(View(w)));
  }

  /** Both sides look at the same database and branch the same way. */
  lemma BelowTipShape(w: Whole, b: Block)
    requires w.pipe.outbox == [] && b.height < w.count && StopWorkers(FlushBatch(w)).Some?
    requires S.InsertAtTip(View(w), b).Ok?
    requires View(FlushBatch(w)) == S.FlushBatch(View(w))
    requires var stopped := StopWorkers(FlushBatch(w)).value;
      && View(stopped) == S.StopWorkers(View(FlushBatch(w)))
      && View(StartWorkers(stopped)) == View(stopped).(running := true)
    ensures InsertAtTip(w, b).Some? && S.InsertAtTip(View(w), b) == S.Ok(View(InsertAtTip(w, b).value))
    ensures var stopped, t := StopWorkers(FlushBatch(w)).value, InsertAtTip(w, b).value;
      t == StartWorkers(stopped) || t.pipe == stopped.pipe
  {
    hide FlushBatch, StopWorkers, StartWorkers, S.StopWorkers, S.FlushBatch, HashByHeight, Pi.Batches;
    assert View(StopWorkers(FlushBatch(w)).value).db == StopWorkers(FlushBatch(w)).value.pipe.db;
  }

  lemma MakeSound(w: Whole, base: seq<BlockId>, c: seq<BlockId>, live: seq<BlockId>)
    requires S.Inv(View(w), c) && Pi.PipeInv(w.pipe, base) && S.Live(View(w)) == live && Valid(TxsOf(live))
    ensures Sound(w, base, c)
  {
    hide S.Inv, Pi.PipeInv, Valid, TxsOf, S.Live;
  }

  /** The reorg's transaction, with its own cache and the fees computed from it, does what the
      specification says. */
  lemma FinishExecutes(w: Whole, c: seq<BlockId>, lo: nat)
    requires S.DbInv(w.pipe.db) && Pi.Batches(w.pipe) == [] && w.batch == [] && w.count == |S.Visible(w.pipe.db)|
    requires IsChain(c) && |c| == w.count + 1 && S.PendingIs(View(w), c, lo) && Valid(TxsOf(c))
    ensures FinishReorg(w).Some?
    ensures var t := FinishReorg(w).value;
      S.FinishReorg(View(w)) == S.Ok(View(t)) && t.pipe == Pi.Start(t.pipe.db) && t.batch == []
  {
    hide S.DbInv, IsChain, Valid, TxsOf, S.PendingIs, S.Visible, S.Settle, Process, Pi.FormatFees, Pi.Execute, AppendBlocks,
         S.KeysOf, S.From, MarkExtinct, Reverts, S.FirstDifferent, SP.Settling, SP.Mid, Pi.TxsOfBlocks, S.Inv, Pi.Start,
         Pi.Batches, S.TxCount;
    var s := View(w);
    var f, d := SP.ForkOf(s), S.Visible(w.pipe.db);
    assert S.Live(s) == d + [] + [];
    CountIs'(w.pipe.db);
    SP.ForkOfMeaning(s, c, lo);
    SP.CutAt(w.pipe.db, f);
    var cut, branch := SP.Cut(w.pipe.db, f, |d|), S.From(w.pending, f);
    var m := SP.WalkAll(cut, c, f, branch);
    var (settled, unseen) := S.Settle(cut, [], branch, S.KeysOf(branch), None).value;
    assert [] + unseen == unseen;
    Pi.ReorgResolves(settled, unseen, c, |c| - 1, m);
    SP.SettleAll(cut, c, f, branch);
    StartIsEmpty(AppendBlocks(settled, unseen));
  }

  lemma FinishRefines(w: Whole, c: seq<BlockId>, lo: nat)
    requires S.DbInv(w.pipe.db) && Pi.Batches(w.pipe) == [] && w.batch == [] && w.count == |S.Visible(w.pipe.db)|
    requires IsChain(c) && |c| == w.count + 1 && S.PendingIs(View(w), c, lo) && Valid(TxsOf(c))
    ensures FinishReorg(w).Some?
    ensures S.FinishReorg(View(w)) == S.Ok(View(FinishReorg(w).value)) && Sound(FinishReorg(w).value, c, c)
  {
    hide S.DbInv, IsChain, Valid, TxsOf, S.PendingIs, S.Visible, S.Inv, FinishReorg, S.FinishReorg, Pi.Start, Pi.PipeInv,
         Pi.Batches, S.Live;
    FinishExecutes(w, c, lo);
    SP.FinishSwitches(View(w), c, lo);
    var t := FinishReorg(w).value;
    InvParts(View(t), c);
    Pi.StartInv(t.pipe.db);
    StartIsEmpty(t.pipe.db);
    StartLive(t, c);
  }

  lemma CountIs'(db: Db)
    requires S.DbInv(db)
    ensures S.CountOf(db.rows) == |S.Visible(db)|
  {
    SP.CountIs(db.rows, S.Visible(db));
  }

  lemma StartIsEmpty(db: Db)
    ensures Pi.Batches(Pi.Start(db)) == [] && Pi.Start(db).db == db && Pi.Start(db).outbox == []
  {
  }

  lemma StartLive(w: Whole, c: seq<BlockId>)
    requires Pi.Batches(w.pipe) == [] && w.batch == [] && S.Visible(w.pipe.db) == c
    ensures S.Live(View(w)) == c
  {
    hide S.Visible;
  }

  lemma InReorgRefines(w: Whole, base: seq<BlockId>, c: seq<BlockId>, b: Block) returns (base': seq<BlockId>)
    requires Sound(w, base, c) && w.pending != map[] && Fits(c, b) && Valid(TxsOf(Insert(c, b)))
    ensures InsertInReorg(w, b).Some?
    ensures S.InsertInReorg(View(w), b) == S.Ok(View(InsertInReorg(w, b).value))
    ensures Sound(InsertInReorg(w, b).value, base', Insert(c, b))
  {
    hide Sound, Valid, TxsOf, Fits, S.Live, S.Inv, S.PendingIs, FinishReorg, S.FinishReorg, S.Below, S.DbInv, S.Visible, IsChain;
    SoundParts(w, base, c);
    InvParts(View(w), c);
    SP.InsertRefines(View(w), c, b);
    InsertKeepsChain'(View(w), c, b);
    var lo: nat := SomeFork(View(w), c);
    SP.CutPending(View(w), c, b, lo);
    var t := w.(pending := S.Below(w.pending, b.height)[b.height := b]);
    assert View(t) == View(w).(pending := t.pending);
    base' := base;
    if b.height == w.count {
      FinishRefines(t, Insert(c, b), if b.height < lo then b.height else lo);
      base' := Insert(c, b);
    } else {
      StillShort(View(w), c, b);
      MakeSound(t, base, Insert(c, b), S.Live(View(w)));
    }
  }

  lemma InsertKeepsChain'(s: S.Store, c: seq<BlockId>, b: Block)
    requires S.Inv(s, c) && S.InReorg(s) && Fits(c, b)
    ensures IsChain(Insert(c, b)) && b.height <= |c| <= s.count && s.count == |S.Live(s)| && s.count == |S.Visible(s.db)|
  {
    hide S.DbInv, IsChain, S.PendingIs, S.Visible;
    InsertKeepsChain(c, b);
  }

  lemma SomeFork(s: S.Store, c: seq<BlockId>) returns (lo: nat)
    requires S.Inv(s, c) && S.InReorg(s)
    ensures S.PendingIs(s, c, lo)
  {
    hide S.DbInv, IsChain, S.Live, S.PendingIs;
    lo :| S.PendingIs(s, c, lo);
  }

  lemma StillShort(s: S.Store, c: seq<BlockId>, b: Block)
    requires b.height < |S.Live(s)| && b.height <= |c|
    ensures S.Longer(S.Live(s), Insert(c, b)) == S.Live(s)
  {
    hide S.Live;
  }

  /** Inserting any fitting block of a valid chain: no thread dies, no assertion fails, and seen
      from outside it is the specified step. */
  lemma InsertRefines(w: Whole, base: seq<BlockId>, c: seq<BlockId>, b: Block) returns (base': seq<BlockId>)
    requires Sound(w, base, c) && w.pipe.outbox == [] && Fits(c, b) && Valid(TxsOf(Insert(c, b)))
    ensures InsertBlock(w, b).Some?
    ensures S.InsertBlock(View(w), b) == S.Ok(View(InsertBlock(w, b).value))
    ensures Sound(InsertBlock(w, b).value, base', Insert(c, b))
  {
    hide Sound, Valid, TxsOf, Fits, S.InsertAtTip, S.InsertInReorg, InsertAtTip, InsertInReorg;
    HeightWithin(w, base, c, b);
    if w.pending != map[] {
      base' := InReorgRefines(w, base, c, b);
    } else if b.height == w.count {
      base' := OnTopRefines(w, base, c, b);
    } else {
      base' := BelowTipRefines(w, base, c, b);
    }
  }

  lemma HeightWithin(w: Whole, base: seq<BlockId>, c: seq<BlockId>, b: Block)
    requires Sound(w, base, c) && Fits(c, b)
    ensures b.height <= w.count
  {
    hide S.DbInv, Pi.PipeInv, Valid, TxsOf, IsChain, S.PendingIs, S.Live;
  }

  // ---------------------------------------------------------------- whole runs

  /** `Receive`: the main thread inserts a block; `Thread`: one of the three threads moves. */
  datatype Label = Receive(b: Block) | Thread(l: Pi.Label)

  predicate Enabled(w: Whole, l: Label) {
    match l
    case Receive(_) => w.pipe.outbox == []
    case Thread(t) => Pi.Enabled(w.pipe, t) && !t.Offer? && !t.Mempool?
  }

  ghost function Step(w: Whole, l: Label): Option<Whole>
    requires Enabled(w, l)
  {
    match l
    case Receive(b) => InsertBlock(w, b)
    case Thread(t) =>
      (match Pi.Step(w.pipe, t)
       case None => None
       case Some(p) => Some(w.(pipe := p)))
  }

  /** A label that is not enabled does nothing. */
  ghost function Run(w: Whole, ls: seq<Label>): Option<Whole> {
    if ls == [] then Some(w)
    else
      match Run(w, ls[..|ls| - 1])
      case None => None
      case Some(t) => if Enabled(t, ls[|ls| - 1]) then Step(t, ls[|ls| - 1]) else Some(t)
  }

  /** What a step is for the specification. */
  function AsInput(l: Label): seq<SR.Input> {
    match l
    case Receive(b) => [SR.Receive(b)]
    case Thread(t) => if t.Write? then [SR.Commit] else []
  }

  ghost function Inputs(w: Whole, ls: seq<Label>): seq<SR.Input> {
    if ls == [] then []
    else
      var before, last := Run(w, ls[..|ls| - 1]), ls[|ls| - 1];
      Inputs(w, ls[..|ls| - 1]) + (if before.Some? && Enabled(before.value, last) then AsInput(last) else [])
  }

  /** Every inserted block fits what was received before it and continues a valid history. */
  ghost predicate Fed(w: Whole, c: seq<BlockId>, ls: seq<Label>) {
    ls == [] ||
    (var init, last := ls[..|ls| - 1], ls[|ls| - 1];
     && Fed(w, c, init)
     && (last.Receive? && Run(w, init).Some? && Enabled(Run(w, init).value, last) ==>
           var e := SR.Received(c, Inputs(w, init));
           Fits(e, last.b) && Valid(TxsOf(Insert(e, last.b)))))
  }

  lemma ThreadRefines(w: Whole, base: seq<BlockId>, c: seq<BlockId>, l: Pi.Label)
    requires Sound(w, base, c) && Enabled(w, Thread(l))
    ensures Pi.Step(w.pipe, l).Some?
    ensures var t := w.(pipe := Pi.Step(w.pipe, l).value);
      Sound(t, base, c) && View(t) == if l.Write? then S.CommitOne(View(w)) else View(w)
  {
    hide Pi.PipeInv, S.Inv, Valid, TxsOf, S.Live, Pi.Step, Pi.Enabled, Pi.Batches, AppendBlocks, Pi.LiveChain, S.Visible;
    assert Pi.Admissible(w.pipe, l);
    Pi.StepRefinesQueue(w.pipe, base, l);
    Pi.StepKeeps(w.pipe, base, l);
    SP.CommitOneKeeps(View(w), c);
  }

  lemma RunSnoc(s: S.Store, c: seq<BlockId>, inputs: seq<SR.Input>, i: SR.Input)
    ensures SR.Run(s, inputs + [i]) == match SR.Run(s, inputs) case Panicked(why) => S.Panicked(why) case Ok(t) => SR.Next(t, i)
    ensures SR.Received(c, inputs + [i]) == match i
      case Commit => SR.Received(c, inputs)
      case Receive(b) => if b.height <= |SR.Received(c, inputs)| then Insert(SR.Received(c, inputs), b) else SR.Received(c, inputs)
    ensures SR.Disciplined(c, inputs + [i]) <==>
      SR.Disciplined(c, inputs) && (i.Receive? ==> Fits(SR.Received(c, inputs), i.b))
  {
    hide SR.Next, Fits;
    var more := inputs + [i];
    assert more[..|more| - 1] == inputs;
  }

  /** For every interleaving of received blocks and thread steps: nothing fails, and store and
      threads together are the specified store fed with the same blocks. */
  lemma {:induction false} RunRefines(w: Whole, base: seq<BlockId>, c: seq<BlockId>, ls: seq<Label>) returns (base': seq<BlockId>)
    requires Sound(w, base, c) && Fed(w, c, ls)
    ensures Run(w, ls).Some?
    ensures SR.Run(View(w), Inputs(w, ls)) == S.Ok(View(Run(w, ls).value))
    ensures SR.Disciplined(c, Inputs(w, ls))
    ensures Sound(Run(w, ls).value, base', SR.Received(c, Inputs(w, ls)))
  {
    hide Sound, Step, Enabled, SR.Run, SR.Received, SR.Disciplined, View, Fits, Valid, TxsOf;
    if ls == [] {
      base' := base;
      NoInputs(w, c);
    } else {
      var init, last := ls[..|ls| - 1], ls[|ls| - 1];
      base' := RunRefines(w, base, c, init);
      var t, inputs := Run(w, init).value, Inputs(w, init);
      if Enabled(t, last) {
        base' := StepRefines(t, base', SR.Received(c, inputs), last);
        if AsInput(last) != [] {
          assert AsInput(last) == [AsInput(last)[0]];
          RunSnoc(View(w), c, inputs, AsInput(last)[0]);
        } else {
          assert inputs + [] == inputs;
        }
      } else {
        assert inputs + [] == inputs;
      }
    }
  }

  lemma NoInputs(w: Whole, c: seq<BlockId>)
    ensures SR.Run(View(w), []) == S.Ok(View(w)) && SR.Received(c, []) == c && SR.Disciplined(c, [])
  {
  }

  lemma StepRefines(w: Whole, base: seq<BlockId>, c: seq<BlockId>, l: Label) returns (base': seq<BlockId>)
    requires Sound(w, base, c) && Enabled(w, l)
    requires l.Receive? ==> Fits(c, l.b) && Valid(TxsOf(Insert(c, l.b)))
    ensures Step(w, l).Some?
    ensures AsInput(l) == [] ==> View(Step(w, l).value) == View(w) && Sound(Step(w, l).value, base', c)
    ensures AsInput(l) != [] ==>
      && SR.Next(View(w), AsInput(l)[0]) == S.Ok(View(Step(w, l).value))
      && Sound(Step(w, l).value, base', if l.Receive? then Insert(c, l.b) else c)
      && (l.Receive? <==> AsInput(l)[0].Receive?) && (l.Receive? ==> AsInput(l)[0].b == l.b && l.b.height <= |c|)
  {
    hide Sound, View, InsertBlock, S.InsertBlock, S.CommitOne, Pi.Step, Pi.Enabled, Valid, TxsOf;
    match l
    case Receive(b) =>
      base' := InsertRefines(w, base, c, b);
    case Thread(t) =>
      base' := base;
      ThreadRefines(w, base, c, t);
  }

  /** A freshly opened store with new threads. */
  lemma OpenIsSound(db: Db, mode: S.Mode, head: nat, k: nat)
    requires S.DbInv(db) && Valid(TxsOf(S.Visible(db))) && k <= |S.Visible(db)|
    ensures var w := Whole(Pi.Start(db), [], 0, map[], |S.Visible(db)|, true, mode, head);
      SR.Open(db, mode, head) == Some(View(w)) && Sound(w, S.Visible(db), S.Visible(db)[..k])
  {
    hide S.DbInv, Valid, TxsOf, S.Visible, Pi.PipeInv, S.Inv, S.Live;
    SR.OpenCommitted(db, mode, head, k);
    Pi.StartInv(db);
    StartIsEmpty(db);
    OpenCount(db, mode, head);
  }

  lemma OpenCount(db: Db, mode: S.Mode, head: nat)
    requires S.DbInv(db)
    ensures SR.Open(db, mode, head) == Some(S.Store(db, [], [], 0, map[], |S.Visible(db)|, true, mode, head))
  {
    SP.CountIs(db.rows, S.Visible(db));
    SR.LiveCountIs(db.rows, S.Visible(db));
  }

  /** What the threads and the store promise together: from any committed database, for every
      interleaving, the live chain is the longest one received and the database is always one
      that can be opened again, on a lower part of that chain. */
  lemma TogetherTheyKeepTheLongest(db: Db, mode: S.Mode, head: nat, k: nat, ls: seq<Label>)
    requires S.DbInv(db) && Valid(TxsOf(S.Visible(db))) && k <= |S.Visible(db)|
    requires Fed(Whole(Pi.Start(db), [], 0, map[], |S.Visible(db)|, true, mode, head), S.Visible(db)[..k], ls)
    ensures var w, c := Whole(Pi.Start(db), [], 0, map[], |S.Visible(db)|, true, mode, head), S.Visible(db)[..k];
      && Run(w, ls).Some?
      && var t := Run(w, ls).value;
         && S.Live(View(t)) == SR.Longest(S.Visible(db), c, Inputs(w, ls))
         && S.DbInv(t.pipe.db) && S.Visible(t.pipe.db) <= S.Live(View(t))
  {
    hide S.DbInv, Valid, TxsOf, S.Visible, S.Inv, S.Live, Fed, Run, Pi.PipeInv, Inputs, SR.Run;
    var w, c := Whole(Pi.Start(db), [], 0, map[], |S.Visible(db)|, true, mode, head), S.Visible(db)[..k];
    OpenIsSound(db, mode, head, k);
    var base := RunRefines(w, S.Visible(db), c, ls);
    var inputs, t := Inputs(w, ls), Run(w, ls).value;
    SR.RunRefines(View(w), c, inputs);
    SR.OpenCommitted(db, mode, head, k);
    InvParts(View(t), SR.Received(c, inputs));
    SP.VisibleGrows(View(t), SR.Received(c, inputs));
  }
}
