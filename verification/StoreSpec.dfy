/** What the indexer store does, step by step, as functions on its state, and what holds of
    every run.  The store must behave like "the longest chain seen so far", switching to a
    competing branch in one transaction. */
module StoreSpec {
  import opened Chain
  import opened Database
  import opened Bounds

  datatype Mode = FreshBulk | Bulk | Normal {
    predicate IsBulk() { this != Normal }
  }

  datatype Panic = Hole | NotIndexed | Gap | NotExtinct | NothingNew

  datatype Result<+T> = Ok(value: T) | Panicked(why: Panic)

  /** `flight` are the batches handed to the writing pipeline, oldest first. */
  datatype Store = Store(
    db: Db,
    flight: seq<seq<Block>>,
    batch: seq<Block>,
    batchTxs: nat,
    pending: map<nat, Block>,
    count: nat,
    running: bool,
    mode: Mode,
    head: nat)

  // ---------------------------------------------------------------- pipeline

  function CommitAll(db: Db, flight: seq<seq<Block>>): Db
    decreases |flight|
  {
    if flight == [] then db else CommitAll(AppendBlocks(db, flight[0]), flight[1..])
  }

  /** The writer commits the oldest batch. */
  function CommitOne(s: Store): Store {
    if s.flight == [] then s
    else s.(db := AppendBlocks(s.db, s.flight[0]), flight := s.flight[1..])
  }

  function FlushBatch(s: Store): Store {
    if s.batch == [] then s
    else s.(flight := s.flight + [s.batch], batch := [], batchTxs := 0)
  }

  /** Waits for the pipeline to write everything it holds. */
  function StopWorkers(s: Store): Store {
    s.(db := CommitAll(s.db, s.flight), flight := [], running := false)
  }

  function FlushWorkers(s: Store): Store {
    if !s.running then s
    else
      var f := FlushBatch(s);
      if f.flight == [] then f else StopWorkers(f).(running := true)
  }

  function SetMode(s: Store, mode: Mode): Store {
    if s.mode == mode then s else FlushWorkers(s.(mode := mode))
  }

  // ---------------------------------------------------------------- sorted keys

  /** The order in which the store walks its pending blocks. */
  function Sorted(s: set<nat>): seq<nat> {
    if s == {} then [] else [Min(s)] + Sorted(s - {Min(s)})
  }

  function Range(lo: nat, hi: nat): (r: seq<nat>)
    requires lo <= hi
  {
    seq(hi - lo, i requires 0 <= i < hi - lo => lo + i)
  }

  lemma {:induction false} SortedRange(s: set<nat>, lo: nat, hi: nat)
    requires lo <= hi && forall x :: x in s <==> lo <= x < hi
    ensures Sorted(s) == Range(lo, hi)
    decreases hi - lo
  {
    if lo == hi {
      assert s == {};
    } else {
      assert lo in s && Min(s) == lo;
      SortedRange(s - {lo}, lo + 1, hi);
      assert Range(lo, hi) == [lo] + Range(lo + 1, hi);
    }
  }

  // ---------------------------------------------------------------- insert

  function From(pending: map<nat, Block>, h: nat): map<nat, Block> {
    map k | k in pending && k >= h :: pending[k]
  }

  function Below(pending: map<nat, Block>, h: nat): map<nat, Block> {
    map k | k in pending && k < h :: pending[k]
  }

  ghost predicate Differs(rows: map<BlockId, Row>, b: Block, h: nat) {
    HashByHeight(rows, h).Some? && HashByHeight(rows, h).value != b.id
  }

  /** The first pending height, in key order, whose stored live block is another one. */
  ghost function FirstDifferent(rows: map<BlockId, Row>, pending: map<nat, Block>, keys: seq<nat>): Option<nat>
    requires forall k | k in keys :: k in pending
  {
    if keys == [] then None
    else if Differs(rows, pending[keys[0]], keys[0]) then Some(pending[keys[0]].height)
    else FirstDifferent(rows, pending, keys[1..])
  }

  /** The loop over the new branch: blocks already stored are revived on the spot, the rest
      are collected. */
  function Settle(db: Db, unseen: seq<Block>, pending: map<nat, Block>, keys: seq<nat>, prev: Option<nat>)
    : Result<(Db, seq<Block>)>
    requires forall k | k in keys :: k in pending
    decreases |keys|
  {
    if keys == [] then Ok((db, unseen))
    else
      var b := pending[keys[0]];
      if prev.Some? && prev.value + 1 != keys[0] then Panicked(Gap)
      else if b.id !in db.rows then
        Settle(db, unseen + [b], pending, keys[1..], Some(b.height))
      else if !db.rows[b.id].extinct then Panicked(NotExtinct)
      else Settle(Revive(db, b.id), unseen, pending, keys[1..], Some(b.height))
  }

  function TxCount(bs: seq<Block>): nat {
    if bs == [] then 0
    else TxCount(bs[..|bs| - 1]) + (if bs[|bs| - 1].id.Hash? then |bs[|bs| - 1].id.txs| else 0)
  }

  /** Everything above the fork becomes extinct in the same transaction that stores the new
      branch. */
  ghost function FinishReorg(s: Store): Result<Store> {
    var found := FirstDifferent(s.db.rows, s.pending, KeysOf(s.pending));
    var first := if found.Some? then found.value else s.count;
    var n := CountOf(s.db.rows);
    var db := s.db.(events := s.db.events + Reverts(s.db.rows, first, n),
                    rows := MarkExtinct(s.db.rows, first));
    var branch := From(s.pending, first);
    match Settle(db, [], branch, KeysOf(branch), None)
    case Panicked(why) => Panicked(why)
    case Ok((settled, unseen)) =>
      var batch := s.batch + unseen;
      if batch == [] then Panicked(NothingNew)
      else Ok(s.(db := AppendBlocks(settled, batch), batch := [],
                 batchTxs := s.batchTxs + TxCount(unseen),
                 pending := map[], count := s.count + 1, running := true))
  }

  function KeysOf(pending: map<nat, Block>): (r: seq<nat>)
    ensures forall k | k in r :: k in pending
  {
    SortedMembers(pending.Keys);
    Sorted(pending.Keys)
  }

  lemma {:induction false} SortedMembers(s: set<nat>)
    ensures forall k :: k in Sorted(s) <==> k in s
    decreases s
  {
    if s != {} {
      SortedMembers(s - {Min(s)});
    }
  }

  /** max(height) + 1 over all rows. */
  ghost function CountOf(rows: map<BlockId, Row>): nat {
    if exists n: nat :: IsCount(rows, false, n) then
      var n: nat :| IsCount(rows, false, n);
      n
    else 0
  }

  ghost function InsertAtTip(s: Store, b: Block): Result<Store> {
    if b.height > s.count then Panicked(Hole)
    else if b.height != s.count then
      var stopped := StopWorkers(FlushBatch(s));
      match HashByHeight(stopped.db.rows, b.height)
      case None => Panicked(NotIndexed)
      case Some(id) =>
        if id == b.id then Ok(stopped.(running := true))
        else Ok(stopped.(pending := stopped.pending[b.height := b]))
    else
      var added := s.(batch := s.batch + [b], count := s.count + 1,
                      batchTxs := s.batchTxs + TxCount([b]));
      var sent := if added.mode.IsBulk() && added.batchTxs <= 100_000 then added else FlushBatch(added);
      Ok(if s.head == b.height then SetMode(sent, Normal) else sent)
  }

  ghost function InsertInReorg(s: Store, b: Block): Result<Store> {
    if b.height > s.count then Panicked(Hole)
    else
      var t := s.(pending := Below(s.pending, b.height)[b.height := b]);
      if b.height == s.count then FinishReorg(t) else Ok(t)
  }

  predicate InReorg(s: Store) {
    s.pending != map[]
  }

  ghost function InsertBlock(s: Store, b: Block): Result<Store> {
    if InReorg(s) then InsertInReorg(s, b) else InsertAtTip(s, b)
  }

  /** The answer to "which block is at this height", and the state after asking. */
  ghost function GetHash(s: Store, h: nat): (Store, Option<BlockId>) {
    if s.count <= h then (s, None)
    else if h in s.pending then (s, Some(s.pending[h].id))
    else
      var f := FlushWorkers(s);
      (f, HashByHeight(f.db.rows, h))
  }

  // ---------------------------------------------------------------- invariant

  function Flat(flight: seq<seq<Block>>): seq<Block> {
    if flight == [] then [] else flight[0] + Flat(flight[1..])
  }

  /** The committed chain, as any follower of the event log sees it. */
  function Visible(db: Db): seq<BlockId> {
    match Followed(db.events)
    case None => []
    case Some(c) => c
  }

  /** The live chain: committed, then in flight, then buffered. */
  function Live(s: Store): seq<BlockId> {
    Visible(s.db) + Ids(Flat(s.flight)) + Ids(s.batch)
  }

  /** Every committed state. */
  ghost predicate DbInv(db: Db) {
    var c := Visible(db);
    && Followed(db.events).Some?
    && IsChain(c)
    && Holds(db.rows, c)
    && AncestorClosed(db.rows, |c|)
    && TablesFaithful(db)
  }

  /** The blocks `bs` continue a chain of length `n`. */
  predicate Heights(bs: seq<Block>, n: nat) {
    forall i | 0 <= i < |bs| :: bs[i].height == n + i
  }

  /** `c` is the reference chain: the fold of chain insertion over everything received. */
  ghost predicate Inv(s: Store, c: seq<BlockId>) {
    var d := Live(s);
    && DbInv(s.db)
    && IsChain(d) && |d| == s.count
    && Heights(Flat(s.flight) + s.batch, |Visible(s.db)|)
    && (forall i | 0 <= i < |s.flight| :: s.flight[i] != [])
    && IsChain(c) && |c| <= |d|
    && if InReorg(s) then
         && !s.running && s.flight == [] && s.batch == []
         && exists lo: nat :: PendingIs(s, c, lo)
       else
         s.running && c == d[..|c|]
  }

  /** The received chain leaves the live chain at `lo`; everything from there on is pending. */
  ghost predicate PendingIs(s: Store, c: seq<BlockId>, lo: nat) {
    && lo < |c| && lo <= |Live(s)| && c[..lo] == Live(s)[..lo]
    && (forall k :: k in s.pending <==> lo <= k < |c|)
    && (forall k | lo <= k < |c| :: s.pending[k] == Block(k, c[k]))
  }

  /** Keep the live chain unless the received one is longer. */
  function Longer(d: seq<BlockId>, c: seq<BlockId>): seq<BlockId> {
    if |c| > |d| then c else d
  }
}
