/** The database: append-only tables plus the one mutable `extinct` flag, and the event log
    that followers replay. */
module Database {
  import opened Chain
  import opened Ledger

  datatype Row = Row(height: nat, extinct: bool)

  datatype Event = Event(block: BlockId, revert: bool)

  /** The transaction-level tables in normal mode: every insert is ON CONFLICT DO NOTHING, so
      they only ever gain rows.  `fees` stands for the `tx` table and its fee column. */
  datatype Tables = Tables(
    fees: map<Tx, int>,
    blockTx: set<(BlockId, Tx)>,
    outputs: map<OutPoint, TxOut>,
    inputs: set<(OutPoint, Tx)>)

  datatype Db = Db(rows: map<BlockId, Row>, events: seq<Event>, tables: Tables)

  const EMPTY := Db(map[], [], Tables(map[], {}, map[], {}))

  // ---------------------------------------------------------------- tx-level rows

  function InputRows(t: Tx): set<(OutPoint, Tx)> {
    set p | p in Spent(t) :: (p, t)
  }

  /** Rows of one transaction; rows already there stay as they are. */
  function InsertTx(tables: Tables, t: Tx, fee: int): Tables {
    tables.(
      fees := map[t := fee] + tables.fees,
      outputs := Outputs(t) + tables.outputs,
      inputs := tables.inputs + InputRows(t))
  }

  function InsertTxs(tables: Tables, id: BlockId, txs: seq<Tx>): Tables {
    if txs == [] then tables
    else
      var t := txs[|txs| - 1];
      var before := InsertTxs(tables, id, txs[..|txs| - 1]);
      InsertTx(before, t, Fee(t)).(blockTx := before.blockTx + {(id, t)})
  }

  // ---------------------------------------------------------------- block-level rows

  /** Everything one block of a batch adds to the database. */
  function AppendBlock(db: Db, b: Block): Db {
    Db(
      if b.id in db.rows then db.rows else db.rows[b.id := Row(b.height, false)],
      db.events + [Event(b.id, false)],
      if b.id.Hash? then InsertTxs(db.tables, b.id, b.id.txs) else db.tables)
  }

  /** One committed batch. */
  function AppendBlocks(db: Db, bs: seq<Block>): Db {
    if bs == [] then db else AppendBlock(AppendBlocks(db, bs[..|bs| - 1]), bs[|bs| - 1])
  }

  lemma {:induction false} AppendBlocksConcat(db: Db, a: seq<Block>, b: seq<Block>)
    ensures AppendBlocks(db, a + b) == AppendBlocks(AppendBlocks(db, a), b)
  {
    if b == [] {
      assert a + b == a;
    } else {
      assert (a + b)[..|a + b| - 1] == a + b[..|b| - 1];
      AppendBlocksConcat(db, a, b[..|b| - 1]);
    }
  }

  ghost predicate LiveAt(rows: map<BlockId, Row>, h: nat, id: BlockId) {
    id in rows && rows[id] == Row(h, false)
  }

  /** SELECT ... FROM block WHERE height = h AND extinct = false. */
  ghost function HashByHeight(rows: map<BlockId, Row>, h: nat): Option<BlockId> {
    if exists id :: LiveAt(rows, h, id) then
      var id :| LiveAt(rows, h, id);
      Some(id)
    else None
  }

  ghost predicate Selected(rows: map<BlockId, Row>, live: bool, id: BlockId) {
    id in rows && (live ==> !rows[id].extinct)
  }

  /** `n` is max(height) + 1 over the rows that `live` selects, 0 when there are none. */
  ghost predicate IsCount(rows: map<BlockId, Row>, live: bool, n: nat) {
    && (forall id | Selected(rows, live, id) :: rows[id].height < n)
    && (n > 0 ==> exists id :: Selected(rows, live, id) && rows[id].height == n - 1)
  }

  /** The revert events for the live blocks at heights h..n-1, highest first. */
  ghost function Reverts(rows: map<BlockId, Row>, h: nat, n: nat): seq<Event>
    decreases n
  {
    if n <= h then []
    else
      var r := HashByHeight(rows, n - 1);
      (if r.Some? then [Event(r.value, true)] else []) + Reverts(rows, h, n - 1)
  }

  /** UPDATE block SET extinct = true WHERE height >= h. */
  function MarkExtinct(rows: map<BlockId, Row>, h: nat): map<BlockId, Row> {
    map id | id in rows ::
      if rows[id].height >= h then rows[id].(extinct := true) else rows[id]
  }

  /** UPDATE block SET extinct = false for a stored block, plus its event. */
  function Revive(db: Db, id: BlockId): Db
    requires id in db.rows
  {
    db.(rows := db.rows[id := db.rows[id].(extinct := false)],
        events := db.events + [Event(id, false)])
  }

  /** A mempool transaction is stored without a block. */
  function MempoolInsert(db: Db, t: Tx): Db {
    db.(tables := InsertTx(db.tables, t, Fee(t)))
  }

  // ---------------------------------------------------------------- invariants

  /** The non-extinct rows are exactly the blocks of `c`, each at its height. */
  ghost predicate Holds(rows: map<BlockId, Row>, c: seq<BlockId>) {
    && (forall i | 0 <= i < |c| :: LiveAt(rows, i, c[i]))
    && (forall id | id in rows && !rows[id].extinct :: rows[id].height < |c| && c[rows[id].height] == id)
  }

  ghost predicate ParentStored(rows: map<BlockId, Row>, id: BlockId) {
    id.Hash? && (id.prev == Null || id.prev in rows)
  }

  /** Rows carry true heights below `n`, and with a block its parent is stored too. */
  ghost predicate AncestorClosed(rows: map<BlockId, Row>, n: nat) {
    && (forall id | id in rows :: Genuine(Block(rows[id].height, id)) && rows[id].height < n)
    && (forall id {:trigger ParentStored(rows, id)} | id in rows :: ParentStored(rows, id))
  }

  /** The transaction tables describe every stored block; anything more comes from the
      mempool and belongs to no block. */
  ghost predicate TablesFaithful(db: Db) {
    var s := db.tables;
    && (forall b, t :: (b, t) in s.blockTx <==> b in db.rows && b.Hash? && t in b.txs)
    && (forall b, t :: (b, t) in s.blockTx ==> t in s.fees)
    && (forall t | t in s.fees :: s.fees[t] == Fee(t))
    && (forall p :: p in s.outputs <==> p.tx in s.fees && p.vout < |p.tx.outs|)
    && (forall p | p in s.outputs :: s.outputs[p] == p.tx.outs[p.vout])
    && (forall p, t :: (p, t) in s.inputs <==> t in s.fees && p in Spent(t))
  }

  lemma HoldsByHeight(rows: map<BlockId, Row>, c: seq<BlockId>, h: nat)
    requires Holds(rows, c)
    ensures HashByHeight(rows, h) == if h < |c| then Some(c[h]) else None
  {
    if h < |c| {
      assert LiveAt(rows, h, c[h]);
    }
  }

  lemma {:induction false} InsertTxsMeaning(tables: Tables, id: BlockId, txs: seq<Tx>)
    ensures var r := InsertTxs(tables, id, txs);
      && (forall b, t :: (b, t) in r.blockTx <==> (b, t) in tables.blockTx || (b == id && t in txs))
      && (forall t :: t in r.fees <==> t in tables.fees || t in txs)
      && (forall t | t in r.fees :: r.fees[t] == if t in tables.fees then tables.fees[t] else Fee(t))
      && (forall p :: p in r.outputs <==> p in tables.outputs || (p.tx in txs && p.vout < |p.tx.outs|))
      && (forall p | p in r.outputs ::
            r.outputs[p] == if p in tables.outputs then tables.outputs[p] else p.tx.outs[p.vout])
      && (forall p, t :: (p, t) in r.inputs <==> (p, t) in tables.inputs || (t in txs && p in Spent(t)))
  {
    if txs != [] {
      var init, last := txs[..|txs| - 1], txs[|txs| - 1];
      assert txs == init + [last];
      InsertTxsMeaning(tables, id, init);
    }
  }

  lemma AppendKeepsTables(db: Db, b: Block)
    requires TablesFaithful(db) && b.id.Hash?
    ensures TablesFaithful(AppendBlock(db, b))
  {
    InsertTxsMeaning(db.tables, b.id, b.id.txs);
  }

  /** A mempool transaction adds its own rows and no block row; rows already there stay. */
  lemma MempoolMeaning(db: Db, t: Tx)
    ensures var r := MempoolInsert(db, t);
      && r.rows == db.rows && r.events == db.events && r.tables.blockTx == db.tables.blockTx
      && (forall x :: x in r.tables.fees <==> x in db.tables.fees || x == t)
      && (forall x | x in r.tables.fees :: r.tables.fees[x] == if x in db.tables.fees then db.tables.fees[x] else Fee(t))
      && (forall p :: p in r.tables.outputs <==> p in db.tables.outputs || (p.tx == t && p.vout < |t.outs|))
      && (forall p | p in r.tables.outputs ::
            r.tables.outputs[p] == if p in db.tables.outputs then db.tables.outputs[p] else t.outs[p.vout])
      && (forall p, x :: (p, x) in r.tables.inputs <==> (p, x) in db.tables.inputs || (x == t && p in Spent(t)))
  {
  }

  lemma MempoolKeepsTables(db: Db, t: Tx)
    requires TablesFaithful(db)
    ensures TablesFaithful(MempoolInsert(db, t))
  {
  }

  lemma FlagsKeepTables(db: Db, db': Db)
    requires TablesFaithful(db) && db'.rows.Keys == db.rows.Keys && db'.tables == db.tables
    ensures TablesFaithful(db')
  {
    assert forall b :: b in db.rows <==> b in db'.rows;
  }

  // ---------------------------------------------------------------- the event log

  /** A follower's rule: a new block must point to the current top; a revert must name it. */
  function Follow(c: seq<BlockId>, e: Event): Option<seq<BlockId>> {
    if e.revert then
      if c != [] && Top(c) == e.block then Some(c[..|c| - 1]) else None
    else
      if e.block.Hash? && e.block.prev == Top(c) then Some(c + [e.block]) else None
  }

  /** Replaying a log on top of `c`; None as soon as one event does not apply. */
  function FollowAll(c: seq<BlockId>, log: seq<Event>): Option<seq<BlockId>> {
    if log == [] then Some(c)
    else
      match FollowAll(c, log[..|log| - 1])
      case None => None
      case Some(d) => Follow(d, log[|log| - 1])
  }

  /** The canceling protocol: the chain a follower of the whole log ends up with. */
  function Followed(log: seq<Event>): Option<seq<BlockId>> {
    FollowAll([], log)
  }

  lemma {:induction false} FollowConcat(c: seq<BlockId>, a: seq<Event>, b: seq<Event>)
    ensures FollowAll(c, a + b) ==
      (match FollowAll(c, a) case None => None case Some(d) => FollowAll(d, b))
  {
    if b == [] {
      assert a + b == a;
    } else {
      assert (a + b)[..|a + b| - 1] == a + b[..|b| - 1];
      FollowConcat(c, a, b[..|b| - 1]);
    }
  }

  function Pushes(ids: seq<BlockId>): (r: seq<Event>)
    ensures |r| == |ids|
  {
    seq(|ids|, i requires 0 <= i < |ids| => Event(ids[i], false))
  }

  lemma {:induction false} FollowPushes(c: seq<BlockId>, ids: seq<BlockId>)
    requires IsChain(c + ids)
    ensures FollowAll(c, Pushes(ids)) == Some(c + ids)
  {
    if ids == [] {
      assert c + ids == c;
    } else {
      var init, last := ids[..|ids| - 1], ids[|ids| - 1];
      assert (c + ids)[..|c + ids| - 1] == c + init;
      ChainHeight(c + ids, |c + ids| - 1);
      ChainPrefix(c + ids, |c + ids| - 1);
      FollowPushes(c, init);
      assert Pushes(ids)[..|ids| - 1] == Pushes(init);
      assert (c + ids)[|c + ids| - 1] == last;
      assert c + init + [last] == c + ids;
    }
  }

  /** Reverting from the top down to `h` cuts the followed chain at `h`. */
  lemma {:induction false} FollowReverts(rows: map<BlockId, Row>, c: seq<BlockId>, h: nat, n: nat)
    requires Holds(rows, c) && h <= n <= |c|
    ensures FollowAll(c[..n], Reverts(rows, h, n)) == Some(c[..h])
    decreases n
  {
    if n > h {
      HoldsByHeight(rows, c, n - 1);
      var e := [Event(c[n - 1], true)];
      FollowConcat(c[..n], e, Reverts(rows, h, n - 1));
      assert e[..|e| - 1] == [];
      assert FollowAll(c[..n], e) == Follow(c[..n], e[0]);
      assert c[..n][..n - 1] == c[..n - 1];
      FollowReverts(rows, c, h, n - 1);
    }
  }

  /** Every prefix of a log that can be followed can itself be followed, and its next event
      applies to the chain the prefix leads to. */
  lemma {:induction false} EveryPrefixFollows(log: seq<Event>, n: nat)
    requires Followed(log).Some? && n <= |log|
    ensures Followed(log[..n]).Some? && IsChain(Followed(log[..n]).value)
    ensures n < |log| ==> Follow(Followed(log[..n]).value, log[n]).Some?
    decreases |log|
  {
    if n == |log| {
      assert log[..n] == log;
      if n > 0 {
        EveryPrefixFollows(log[..n - 1], n - 1);
        assert log[..n - 1][..n - 1] == log[..n - 1];
        var d := Followed(log[..n - 1]).value;
        if log[n - 1].revert {
          ChainPrefix(d, |d| - 1);
        } else {
          ChainExtend(d, log[n - 1].block);
        }
      }
    } else {
      var init := log[..|log| - 1];
      EveryPrefixFollows(init, n);
      assert init[..n] == log[..n];
      assert n < |init| ==> init[n] == log[n];
      assert n == |init| ==> log[..n] == init;
    }
  }
}
