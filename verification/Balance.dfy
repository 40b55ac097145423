/** Balances by query and by replay.  The views join outputs, transactions and blocks over
    append-only rows in which some blocks are extinct and some transactions are in no block;
    the ledger replays the live chain. */
module Balance {
  import opened Chain
  import opened Ledger
  import opened Database
  import S = StoreSpec

  /** One row of the join: an output, a block that holds its transaction, and, when the left
      join found one, a transaction that spends it with the block that transaction is in. */
  datatype Joined = Joined(point: OutPoint, block: BlockId, spender: Option<(Tx, BlockId)>)

  /** A block that is not extinct and, in the view by height, not above `upto`. */
  predicate LiveRow(db: Db, id: BlockId, upto: Option<nat>) {
    id in db.rows && !db.rows[id].extinct && (upto.Some? ==> db.rows[id].height <= upto.value)
  }

  /** The right side of the left join, for one output. */
  function Spenders(db: Db, p: OutPoint, upto: Option<nat>): set<(Tx, BlockId)> {
    set i, x | i in db.tables.inputs && x in db.tables.blockTx && i.0 == p && i.1 in db.tables.fees
                 && x.1 == i.1 && LiveRow(db, x.0, upto) :: (i.1, x.0)
  }

  function Outer(db: Db): set<(OutPoint, BlockId)> {
    set p, x | p in db.tables.outputs && p.tx in db.tables.fees && x in db.tables.blockTx
                 && x.1 == p.tx && LiveRow(db, x.0, None) :: (p, x.0)
  }

  function Join(db: Db, upto: Option<nat>): set<Joined> {
    (set o | o in Outer(db) && Spenders(db, o.0, upto) == {} :: Joined(o.0, o.1, None))
    + (set o, m | o in Outer(db) && m in Spenders(db, o.0, upto) :: Joined(o.0, o.1, Some(m)))
  }

  /** The group of an address; a NULL address is a group of its own. */
  function Group(db: Db, upto: Option<nat>, address: Option<nat>): set<Joined> {
    set r | r in Join(db, upto) && r.point in db.tables.outputs
              && db.tables.outputs[r.point].address == address
  }

  /** The summed CASE expression. */
  function Weight(db: Db, upto: Option<nat>, r: Joined): nat {
    if r.point in db.tables.outputs && LiveRow(db, r.block, upto) && r.spender.None?
    then db.tables.outputs[r.point].value else 0
  }

  ghost function SumOf(db: Db, upto: Option<nat>, rows: set<Joined>): nat {
    if rows == {} then 0
    else
      var r :| r in rows;
      Weight(db, upto, r) + SumOf(db, upto, rows - {r})
  }

  /** The balance one of the views gives an address; None when the view has no row for it.
      The view by height has rows for the heights of live blocks only. */
  ghost function QueriedBalance(db: Db, upto: Option<nat>, address: Option<nat>): Option<nat> {
    var g := Group(db, upto, address);
    if g == {} || (upto.Some? && HashByHeight(db.rows, upto.value).None?) then None
    else Some(SumOf(db, upto, g))
  }

  // ---------------------------------------------------------------- the ledger's side

  function OfAddress(u: Utxo, address: Option<nat>): Utxo {
    map p | p in u && u[p].address == address :: u[p]
  }

  ghost function LedgerBalance(txs: seq<Tx>, address: Option<nat>): nat {
    Total(OfAddress(Replay(txs), address))
  }

  /** The live chain up to the height the view looks at. */
  function UpTo(c: seq<BlockId>, upto: Option<nat>): seq<BlockId> {
    if upto.Some? && upto.value < |c| then c[..upto.value + 1] else c
  }

  // ---------------------------------------------------------------- sums

  lemma {:induction false} TotalZero(u: Utxo)
    requires forall p | p in u :: u[p].value == 0
    ensures Total(u) == 0
    decreases |u|
  {
    if u != map[] {
      var p :| p in u;
      TotalRemove(u, p);
      TotalZero(u - {p});
    }
  }

  /** The rows that carry value are one for each valuable unspent output. */
  ghost predicate Matches(db: Db, upto: Option<nat>, rows: set<Joined>, u: Utxo) {
    && (forall r | r in rows && Weight(db, upto, r) > 0 ::
          r.point in u && u[r.point].value == Weight(db, upto, r))
    && (forall r, q | r in rows && q in rows && Weight(db, upto, r) > 0 && Weight(db, upto, q) > 0
          && r.point == q.point :: r == q)
    && (forall p | p in u && u[p].value > 0 ::
          exists r :: r in rows && r.point == p && Weight(db, upto, r) > 0)
  }

  lemma {:induction false} SumIsTotal(db: Db, upto: Option<nat>, rows: set<Joined>, u: Utxo)
    requires Matches(db, upto, rows, u)
    ensures SumOf(db, upto, rows) == Total(u)
    decreases rows
  {
    hide Weight, Matches, Total;
    if rows == {} {
      NoRows(db, upto, u);
    } else {
      var r :| r in rows && SumOf(db, upto, rows) == Weight(db, upto, r) + SumOf(db, upto, rows - {r});
      DropRow(db, upto, rows, u, r);
      if Weight(db, upto, r) == 0 {
        SumIsTotal(db, upto, rows - {r}, u);
      } else {
        TotalRemove(u, r.point);
        SumIsTotal(db, upto, rows - {r}, u - {r.point});
      }
    }
  }

  lemma NoRows(db: Db, upto: Option<nat>, u: Utxo)
    requires Matches(db, upto, {}, u)
    ensures Total(u) == 0
  {
    hide Weight;
    TotalZero(u);
  }

  lemma DropRow(db: Db, upto: Option<nat>, rows: set<Joined>, u: Utxo, r: Joined)
    requires Matches(db, upto, rows, u) && r in rows
    ensures Weight(db, upto, r) == 0 ==> Matches(db, upto, rows - {r}, u)
    ensures Weight(db, upto, r) > 0 ==>
      && r.point in u && u[r.point].value == Weight(db, upto, r)
      && Matches(db, upto, rows - {r}, u - {r.point})
  {
    hide Weight;
  }

  // ---------------------------------------------------------------- live rows and the chain

  lemma {:induction false} ValidOnce(a: seq<Tx>, b: seq<Tx>, t: Tx)
    requires Valid(a + b) && t in b
    ensures t !in a
  {
    var init, last := b[..|b| - 1], b[|b| - 1];
    assert (a + b)[..|a + b| - 1] == a + init && b == init + [last];
    if t != last {
      ValidOnce(a, init, t);
    }
  }

  /** In a valid chain no transaction is in two blocks. */
  lemma OneBlock(c: seq<BlockId>, i: nat, j: nat, t: Tx)
    requires Valid(TxsOf(c)) && i < j < |c| && c[i].Hash? && c[j].Hash? && t in c[i].txs
    ensures t !in c[j].txs
  {
    hide Valid, TxsOf;
    if t in c[j].txs {
      assert c == c[..j] + c[j..];
      TxsOfConcat(c[..j], c[j..]);
      assert c[..j][i] == c[i];
      TxsOfMember(c[..j], t);
      assert c[j..][0] == c[j];
      TxsOfMember(c[j..], t);
      ValidOnce(TxsOf(c[..j]), TxsOf(c[j..]), t);
    }
  }

  lemma UpToValid(c: seq<BlockId>, upto: Option<nat>)
    requires Valid(TxsOf(c))
    ensures Valid(TxsOf(UpTo(c, upto)))
  {
    if upto.Some? && upto.value < |c| {
      var n := upto.value + 1;
      assert c == c[..n] + c[n..];
      TxsOfConcat(c[..n], c[n..]);
      ValidPrefix(TxsOf(c[..n]), TxsOf(c[n..]));
    }
  }

  lemma LiveRows(db: Db, c: seq<BlockId>, upto: Option<nat>, id: BlockId)
    requires Holds(db.rows, c)
    ensures LiveRow(db, id, upto) <==> id in UpTo(c, upto)
  {
    if id in UpTo(c, upto) {
      var i :| 0 <= i < |UpTo(c, upto)| && UpTo(c, upto)[i] == id;
      assert LiveAt(db.rows, i, c[i]);
    }
  }

  /** The block of the live chain, up to the height asked for, that holds `t`. */
  lemma LiveTx(db: Db, c: seq<BlockId>, upto: Option<nat>, t: Tx) returns (id: BlockId)
    requires Holds(db.rows, c) && TablesFaithful(db) && t in TxsOf(UpTo(c, upto))
    ensures (id, t) in db.tables.blockTx && LiveRow(db, id, upto) && t in db.tables.fees
  {
    var d := UpTo(c, upto);
    TxsOfMember(d, t);
    var i :| 0 <= i < |d| && d[i].Hash? && t in d[i].txs;
    id := d[i];
    LiveRows(db, c, upto, id);
  }

  lemma LiveTxBack(db: Db, c: seq<BlockId>, upto: Option<nat>, t: Tx, id: BlockId)
    requires Holds(db.rows, c) && TablesFaithful(db)
    requires (id, t) in db.tables.blockTx && LiveRow(db, id, upto)
    ensures t in TxsOf(UpTo(c, upto)) && id in UpTo(c, upto) && id.Hash? && t in id.txs
  {
    LiveRows(db, c, upto, id);
    TxsOfMember(UpTo(c, upto), t);
  }

  lemma OneLiveBlock(db: Db, c: seq<BlockId>, t: Tx, a: BlockId, b: BlockId)
    requires Holds(db.rows, c) && TablesFaithful(db) && Valid(TxsOf(c))
    requires (a, t) in db.tables.blockTx && LiveRow(db, a, None)
    requires (b, t) in db.tables.blockTx && LiveRow(db, b, None)
    ensures a == b
  {
    LiveTxBack(db, c, None, t, a);
    LiveTxBack(db, c, None, t, b);
    var i :| 0 <= i < |c| && c[i] == a;
    var j :| 0 <= j < |c| && c[j] == b;
    if i < j {
      OneBlock(c, i, j, t);
    } else if j < i {
      OneBlock(c, j, i, t);
    }
  }

  /** The left join finds a spender exactly when the replayed chain has one. */
  lemma SpendersMeaning(db: Db, c: seq<BlockId>, p: OutPoint, upto: Option<nat>)
    requires Holds(db.rows, c) && TablesFaithful(db)
    ensures Spenders(db, p, upto) != {} <==> exists t :: SpentBy(TxsOf(UpTo(c, upto)), t, p)
  {
    if m :| m in Spenders(db, p, upto) {
      LiveTxBack(db, c, upto, m.0, m.1);
      assert SpentBy(TxsOf(UpTo(c, upto)), m.0, p);
    }
    if t :| SpentBy(TxsOf(UpTo(c, upto)), t, p) {
      var id := LiveTx(db, c, upto, t);
      assert (p, t) in db.tables.inputs;
      assert (t, id) in Spenders(db, p, upto);
    }
  }

  // ---------------------------------------------------------------- the join

  /** What a row of value is. */
  lemma ValuableRow(db: Db, upto: Option<nat>, r: Joined)
    requires r in Join(db, upto) && Weight(db, upto, r) > 0
    ensures r.point in db.tables.outputs && r.spender.None? && Spenders(db, r.point, upto) == {}
    ensures (r.block, r.point.tx) in db.tables.blockTx && LiveRow(db, r.block, upto) && LiveRow(db, r.block, None)
    ensures Weight(db, upto, r) == db.tables.outputs[r.point].value
  {
    hide Spenders;
  }

  lemma ValuableIsUnspent(db: Db, c: seq<BlockId>, upto: Option<nat>, r: Joined)
    requires Holds(db.rows, c) && TablesFaithful(db) && Valid(TxsOf(c))
    requires r in Join(db, upto) && Weight(db, upto, r) > 0
    ensures var u := Replay(TxsOf(UpTo(c, upto)));
      r.point in u && r.point in db.tables.outputs && u[r.point] == db.tables.outputs[r.point]
  {
    hide Join, Holds, Weight, Replay, UpTo, Valid, Spenders;
    ValuableRow(db, upto, r);
    LiveTxBack(db, c, upto, r.point.tx, r.block);
    SpendersMeaning(db, c, r.point, upto);
    UpToValid(c, upto);
    UnspentMeaning(TxsOf(UpTo(c, upto)), r.point);
  }

  lemma UnspentHasRow(db: Db, c: seq<BlockId>, upto: Option<nat>, p: OutPoint) returns (r: Joined)
    requires Holds(db.rows, c) && TablesFaithful(db) && Valid(TxsOf(c))
    requires p in Replay(TxsOf(UpTo(c, upto)))
    ensures r in Join(db, upto) && r.point == p && p in db.tables.outputs
    ensures Weight(db, upto, r) == db.tables.outputs[p].value == Replay(TxsOf(UpTo(c, upto)))[p].value
  {
    hide Holds, Replay, UpTo, Valid, Spenders;
    UpToValid(c, upto);
    UnspentMeaning(TxsOf(UpTo(c, upto)), p);
    var id := LiveTx(db, c, upto, p.tx);
    SpendersMeaning(db, c, p, upto);
    assert (id, p.tx) in db.tables.blockTx;
    assert (p, id) in Outer(db);
    r := Joined(p, id, None);
  }

  lemma RowsAreUnique(db: Db, c: seq<BlockId>, upto: Option<nat>, r: Joined, q: Joined)
    requires Holds(db.rows, c) && TablesFaithful(db) && Valid(TxsOf(c))
    requires r in Join(db, upto) && Weight(db, upto, r) > 0
    requires q in Join(db, upto) && Weight(db, upto, q) > 0 && r.point == q.point
    ensures r == q
  {
    hide Join, Holds, Weight, TablesFaithful, Valid;
    ValuableRow(db, upto, r);
    ValuableRow(db, upto, q);
    OneLiveBlock(db, c, r.point.tx, r.block, q.block);
  }

  lemma JoinMatches(db: Db, c: seq<BlockId>, upto: Option<nat>)
    requires Holds(db.rows, c) && TablesFaithful(db) && Valid(TxsOf(c))
    ensures Matches(db, upto, Join(db, upto), Replay(TxsOf(UpTo(c, upto))))
  {
    hide Join, Holds, Weight, TablesFaithful, Valid, Replay, UpTo;
    var rows, u := Join(db, upto), Replay(TxsOf(UpTo(c, upto)));
    forall r | r in rows && Weight(db, upto, r) > 0
      ensures r.point in u && u[r.point].value == Weight(db, upto, r)
    {
      ValuableIsUnspent(db, c, upto, r);
      ValuableRow(db, upto, r);
    }
    forall r, q | r in rows && q in rows && Weight(db, upto, r) > 0 && Weight(db, upto, q) > 0 && r.point == q.point
      ensures r == q
    {
      RowsAreUnique(db, c, upto, r, q);
    }
    forall p | p in u && u[p].value > 0
      ensures exists r :: r in rows && r.point == p && Weight(db, upto, r) > 0
    {
      var r := UnspentHasRow(db, c, upto, p);
    }
  }

  lemma GroupMatches(db: Db, c: seq<BlockId>, upto: Option<nat>, address: Option<nat>)
    requires Holds(db.rows, c) && TablesFaithful(db) && Valid(TxsOf(c))
    ensures Matches(db, upto, Group(db, upto, address), OfAddress(Replay(TxsOf(UpTo(c, upto))), address))
  {
    hide Join, Holds, TablesFaithful, Valid, Replay, UpTo, Weight;
    JoinMatches(db, c, upto);
    var rows, u := Group(db, upto, address), Replay(TxsOf(UpTo(c, upto)));
    forall r | r in rows && Weight(db, upto, r) > 0
      ensures r.point in OfAddress(u, address)
    {
      ValuableIsUnspent(db, c, upto, r);
    }
    forall p | p in OfAddress(u, address) && u[p].value > 0
      ensures exists r :: r in rows && r.point == p && Weight(db, upto, r) > 0
    {
      var r :| r in Join(db, upto) && r.point == p && Weight(db, upto, r) > 0;
      ValuableIsUnspent(db, c, upto, r);
    }
  }

  /** An address has a row exactly when some output of the live chain, at any height, pays
      to it. */
  lemma GroupExists(db: Db, c: seq<BlockId>, upto: Option<nat>, address: Option<nat>)
    requires Holds(db.rows, c) && TablesFaithful(db)
    ensures Group(db, upto, address) != {} <==>
      exists p :: Created(TxsOf(c), p) && p.tx.outs[p.vout].address == address
  {
    hide Spenders, Holds;
    if r :| r in Group(db, upto, address) {
      assert (r.point, r.block) in Outer(db);
      LiveTxBack(db, c, None, r.point.tx, r.block);
      assert Created(TxsOf(c), r.point) && r.point.tx.outs[r.point.vout].address == address;
    }
    if p :| Created(TxsOf(c), p) && p.tx.outs[p.vout].address == address {
      var id := LiveTx(db, c, None, p.tx);
      assert (id, p.tx) in db.tables.blockTx;
      assert (p, id) in Outer(db);
      var r := OuterHasRow(db, upto, (p, id));
      assert r in Group(db, upto, address);
    }
  }

  lemma OuterHasRow(db: Db, upto: Option<nat>, o: (OutPoint, BlockId)) returns (r: Joined)
    requires o in Outer(db)
    ensures r in Join(db, upto) && r.point == o.0
  {
    hide Spenders, Outer;
    if Spenders(db, o.0, upto) == {} {
      r := Joined(o.0, o.1, None);
    } else {
      var m :| m in Spenders(db, o.0, upto);
      r := Joined(o.0, o.1, Some(m));
    }
  }

  /** Balance by query equals balance by replay, in every committed state, at every height and
      at the tip, whatever extinct blocks and mempool transactions the tables also hold. */
  lemma BalanceByQueryIsByReplay(db: Db, upto: Option<nat>, address: Option<nat>)
    requires S.DbInv(db) && Valid(TxsOf(S.Visible(db)))
    ensures var c := S.Visible(db);
      var ledger := LedgerBalance(TxsOf(UpTo(c, upto)), address);
      match QueriedBalance(db, upto, address)
      case Some(value) => value == ledger && (upto.Some? ==> upto.value < |c|)
      case None =>
        || (upto.Some? && upto.value >= |c|)
        || (ledger == 0 && forall p | Created(TxsOf(c), p) :: p.tx.outs[p.vout].address != address)
    ensures var c := S.Visible(db);
      QueriedBalance(db, upto, address).Some? <==>
        && (upto.Some? ==> upto.value < |c|)
        && exists p :: Created(TxsOf(c), p) && p.tx.outs[p.vout].address == address
  {
    hide Holds, TablesFaithful, Valid, IsChain, AncestorClosed, Replay, UpTo, Group, Weight, Created, OfAddress,
         HashByHeight, TxsOf, S.Visible;
    var c := S.Visible(db);
    if upto.Some? {
      HoldsByHeight(db.rows, c, upto.value);
    }
    GroupMatches(db, c, upto, address);
    SumIsTotal(db, upto, Group(db, upto, address), OfAddress(Replay(TxsOf(UpTo(c, upto))), address));
    GroupExists(db, c, upto, address);
  }

  /** Nothing is lost between the views: at every height all balances together are what was
      minted up to there minus the fees recorded with the transactions. */
  lemma AllBalancesConserveValue(db: Db, upto: Option<nat>)
    requires S.DbInv(db) && Valid(TxsOf(S.Visible(db)))
    ensures var txs := TxsOf(UpTo(S.Visible(db), upto));
      && (forall t | t in txs :: t in db.tables.fees && db.tables.fees[t] == Fee(t))
      && SumOf(db, upto, Join(db, upto)) == Minted(txs) - Fees(txs)
  {
    hide Holds, TablesFaithful, Valid, IsChain, AncestorClosed, FollowAll, Replay, UpTo, Join, Weight;
    var c := S.Visible(db);
    var txs := TxsOf(UpTo(c, upto));
    JoinMatches(db, c, upto);
    SumIsTotal(db, upto, Join(db, upto), Replay(txs));
    UpToValid(c, upto);
    ValueConserved(txs);
    forall t | t in txs ensures t in db.tables.fees && db.tables.fees[t] == Fee(t) {
      RecordedFee(db, c, upto, t);
    }
  }

  lemma RecordedFee(db: Db, c: seq<BlockId>, upto: Option<nat>, t: Tx)
    requires Holds(db.rows, c) && TablesFaithful(db) && t in TxsOf(UpTo(c, upto))
    ensures t in db.tables.fees && db.tables.fees[t] == Fee(t)
  {
    var _ := LiveTx(db, c, upto, t);
  }
}
