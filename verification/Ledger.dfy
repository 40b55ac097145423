/** The plain sequential ledger: unspent outputs obtained by replaying transactions one by
    one, the validity rule of the node, and fees. */
module Ledger {
  import opened Chain

  type Utxo = map<OutPoint, TxOut>

  function Outputs(t: Tx): (m: Utxo)
    ensures forall p :: p in m <==> p.tx == t && p.vout < |t.outs|
    ensures forall p | p in m :: m[p] == t.outs[p.vout]
  {
    var points := set i | 0 <= i < |t.outs| :: OutPoint(t, i);
    map p | p in points :: t.outs[p.vout]
  }

  /** The outputs a transaction consumes; a coinbase consumes none. */
  function Spent(t: Tx): set<OutPoint> {
    if t.coinbase then {} else set p | p in t.ins
  }

  function Replay(txs: seq<Tx>): Utxo {
    if txs == [] then map[]
    else
      var t := txs[|txs| - 1];
      Replay(txs[..|txs| - 1]) - Spent(t) + Outputs(t)
  }

  function OutSum(outs: seq<TxOut>): nat {
    if outs == [] then 0 else OutSum(outs[..|outs| - 1]) + outs[|outs| - 1].value
  }

  /** The sum of the values that `values` gives to the points `ins`. */
  function InSum(ins: seq<OutPoint>, values: Utxo): nat
    requires forall p | p in ins :: p in values
  {
    if ins == [] then 0
    else InSum(ins[..|ins| - 1], values) + values[ins[|ins| - 1]].value
  }

  predicate Distinct<T(==)>(s: seq<T>) {
    forall i, j | 0 <= i < j < |s| :: s[i] != s[j]
  }

  /** The node's rule for one more transaction after `before`. */
  predicate ValidNext(before: seq<Tx>, t: Tx) {
    && t !in before
    && (!t.coinbase ==>
          && Distinct(t.ins)
          && (forall p | p in t.ins :: p in Replay(before))
          && OutSum(t.outs) <= InSum(t.ins, Replay(before)))
  }

  predicate Valid(txs: seq<Tx>) {
    txs == [] || (Valid(txs[..|txs| - 1]) && ValidNext(txs[..|txs| - 1], txs[|txs| - 1]))
  }

  /** All transactions of a sequence of blocks, in order. */
  function TxsOf(ids: seq<BlockId>): seq<Tx> {
    if ids == [] then []
    else TxsOf(ids[..|ids| - 1]) + (if ids[|ids| - 1].Hash? then ids[|ids| - 1].txs else [])
  }

  lemma {:induction false} TxsOfConcat(a: seq<BlockId>, b: seq<BlockId>)
    ensures TxsOf(a + b) == TxsOf(a) + TxsOf(b)
  {
    if b == [] {
      assert a + b == a;
    } else {
      assert (a + b)[..|a + b| - 1] == a + b[..|b| - 1];
      TxsOfConcat(a, b[..|b| - 1]);
    }
  }

  lemma {:induction false} TxsOfMember(ids: seq<BlockId>, t: Tx)
    ensures t in TxsOf(ids) <==> exists i :: 0 <= i < |ids| && ids[i].Hash? && t in ids[i].txs
  {
    if ids != [] {
      var init := ids[..|ids| - 1];
      TxsOfMember(init, t);
      if i :| 0 <= i < |ids| && ids[i].Hash? && t in ids[i].txs {
        assert i < |init| ==> init[i] == ids[i];
      }
      if t in TxsOf(init) {
        var i :| 0 <= i < |init| && init[i].Hash? && t in init[i].txs;
        assert ids[i] == init[i];
      }
    }
  }

  lemma {:induction false} ValidPrefix(a: seq<Tx>, b: seq<Tx>)
    requires Valid(a + b)
    ensures Valid(a)
  {
    if b == [] {
      assert a + b == a;
    } else {
      assert (a + b)[..|a + b| - 1] == a + b[..|b| - 1];
      ValidPrefix(a, b[..|b| - 1]);
    }
  }

  /** `t` is one of `txs` and consumes `p`. */
  ghost predicate SpentBy(txs: seq<Tx>, t: Tx, p: OutPoint) {
    t in txs && p in Spent(t)
  }

  predicate Created(txs: seq<Tx>, p: OutPoint) {
    p.tx in txs && p.vout < |p.tx.outs|
  }

  /** An output is unspent exactly when some transaction created it and none consumed it,
      and its value is the one it was created with. */
  lemma {:induction false} UnspentMeaning(txs: seq<Tx>, p: OutPoint)
    requires Valid(txs)
    ensures p in Replay(txs) <==> Created(txs, p) && forall t :: !SpentBy(txs, t, p)
    ensures p in Replay(txs) ==> Replay(txs)[p] == p.tx.outs[p.vout]
  {
    if txs != [] {
      var init, last := txs[..|txs| - 1], txs[|txs| - 1];
      assert txs == init + [last];
      UnspentMeaning(init, p);
      assert SpentBy(txs, last, p) <==> p in Spent(last);
      assert forall t :: SpentBy(txs, t, p) <==> SpentBy(init, t, p) || (t == last && p in Spent(last));
      if p.tx == last {
        // a new transaction's outputs cannot have been consumed before it exists
        if t :| SpentBy(init, t, p) {
          SpentWasCreated(init, t, p);
        }
        assert p !in Spent(last);
      }
    }
  }

  lemma {:induction false} SpentWasCreated(txs: seq<Tx>, t: Tx, p: OutPoint)
    requires Valid(txs) && SpentBy(txs, t, p)
    ensures Created(txs, p)
  {
    var init, last := txs[..|txs| - 1], txs[|txs| - 1];
    assert txs == init + [last];
    if t in init {
      SpentWasCreated(init, t, p);
    } else {
      assert p in Replay(init);
      ReplayCreated(init, p);
    }
  }

  lemma {:induction false} ReplayCreated(txs: seq<Tx>, p: OutPoint)
    requires p in Replay(txs)
    ensures Created(txs, p)
  {
    var init, last := txs[..|txs| - 1], txs[|txs| - 1];
    assert txs == init + [last];
    if p !in Outputs(last) {
      ReplayCreated(init, p);
    }
  }

  /** In a valid history nothing is consumed twice, and every consumer comes after the
      creator. */
  lemma {:induction false} SpendOnce(txs: seq<Tx>, i: nat, p: OutPoint)
    requires Valid(txs) && i < |txs| && p in Spent(txs[i])
    ensures Created(txs[..i], p)
    ensures forall j | 0 <= j < |txs| && j != i :: p !in Spent(txs[j])
    ensures !txs[i].coinbase && Distinct(txs[i].ins)
  {
    var n := |txs| - 1;
    var init := txs[..n];
    if i < n {
      assert init[i] == txs[i] && init[..i] == txs[..i];
      SpendOnce(init, i, p);
      assert forall j | 0 <= j < n && j != i :: txs[j] == init[j];
      if p in Spent(txs[n]) {
        UnspentMeaning(init, p);
        assert SpentBy(init, txs[i], p);
      }
    } else {
      assert p in Replay(init);
      UnspentMeaning(init, p);
      assert txs[..i] == init;
      forall j | 0 <= j < |txs| && j != i ensures p !in Spent(txs[j]) {
        assert txs[j] == init[j] && txs[j] in init;
        assert !SpentBy(init, txs[j], p);
      }
    }
  }

  /** What a transaction pays, reading each input's value from the output it names. */
  function Fee(t: Tx): int {
    if t.coinbase then 0 else NamedSum(t.ins) - OutSum(t.outs)
  }

  function NamedSum(ins: seq<OutPoint>): nat {
    if ins == [] then 0
    else
      var p := ins[|ins| - 1];
      NamedSum(ins[..|ins| - 1]) + (if p.vout < |p.tx.outs| then p.tx.outs[p.vout].value else 0)
  }

  lemma {:induction false} InSumNamed(ins: seq<OutPoint>, values: Utxo)
    requires forall p | p in ins :: p in values && p.vout < |p.tx.outs| && values[p] == p.tx.outs[p.vout]
    ensures InSum(ins, values) == NamedSum(ins)
  {
    if ins != [] {
      InSumNamed(ins[..|ins| - 1], values);
    }
  }

  function Fees(txs: seq<Tx>): int {
    if txs == [] then 0 else Fees(txs[..|txs| - 1]) + Fee(txs[|txs| - 1])
  }

  /** Newly created money. */
  function Minted(txs: seq<Tx>): nat {
    if txs == [] then 0
    else
      var t := txs[|txs| - 1];
      Minted(txs[..|txs| - 1]) + (if t.coinbase then OutSum(t.outs) else 0)
  }

  /** The total of the values of `u`, one point at a time. */
  ghost function Total(u: Utxo): nat {
    if u == map[] then 0
    else
      var p :| p in u;
      u[p].value + Total(u - {p})
  }

  lemma {:induction false} TotalRemove(u: Utxo, p: OutPoint)
    requires p in u
    ensures Total(u) == u[p].value + Total(u - {p})
    decreases |u|
  {
    var q :| q in u && Total(u) == u[q].value + Total(u - {q});
    if q != p {
      TotalRemove(u - {q}, p);
      assert u - {q} - {p} == u - {p} - {q};
      TotalRemove(u - {p}, q);
    }
  }

  lemma AddThenRemove(u: Utxo, m: Utxo, p: OutPoint)
    requires u.Keys !! m.Keys && p in m
    ensures (u + m) - {p} == u + (m - {p}) && (u + m)[p] == m[p]
  {
    assert p !in u;
    assert ((u + m) - {p}).Keys == (u + (m - {p})).Keys;
  }

  lemma {:induction false} TotalAdd(u: Utxo, m: Utxo)
    requires u.Keys !! m.Keys
    ensures Total(u + m) == Total(u) + Total(m)
    decreases |m|
  {
    if m == map[] {
      assert u + m == u;
    } else {
      var p :| p in m;
      var rest := m - {p};
      TotalAdd(u, rest);
      TotalRemove(m, p);
      AddThenRemove(u, m, p);
      TotalRemove(u + m, p);
    }
  }

  lemma {:induction false} TotalSpend(u: Utxo, ins: seq<OutPoint>)
    requires Distinct(ins) && forall p | p in ins :: p in u
    ensures Total(u) == Total(u - set p | p in ins) + InSum(ins, u)
  {
    if ins == [] {
      assert u - (set p | p in ins) == u;
    } else {
      var init, last := ins[..|ins| - 1], ins[|ins| - 1];
      assert last !in init;
      TotalSpend(u, init);
      var rest := u - set p | p in init;
      TotalRemove(rest, last);
      assert rest - {last} == u - set p | p in ins;
    }
  }

  function FirstOutputs(t: Tx, n: nat): (m: Utxo)
    requires n <= |t.outs|
    ensures forall p :: p in m <==> p.tx == t && p.vout < n
    ensures forall p | p in m :: m[p] == t.outs[p.vout]
  {
    map p | p in Outputs(t) && p.vout < n :: t.outs[p.vout]
  }

  lemma {:induction false} TotalOutputs(t: Tx, n: nat)
    requires n <= |t.outs|
    ensures Total(FirstOutputs(t, n)) == OutSum(t.outs[..n])
  {
    if n == 0 {
      assert FirstOutputs(t, n) == map[];
    } else {
      var p, m := OutPoint(t, n - 1), FirstOutputs(t, n);
      TotalOutputs(t, n - 1);
      assert t.outs[..n][..n - 1] == t.outs[..n - 1];
      assert m - {p} == FirstOutputs(t, n - 1) && m[p].value == t.outs[n - 1].value;
      TotalRemove(m, p);
    }
  }

  lemma NothingMinted()
    ensures Total(map[]) == 0
  {
  }

  lemma TotalOfOutputs(t: Tx)
    ensures Total(Outputs(t)) == OutSum(t.outs)
  {
    TotalOutputs(t, |t.outs|);
    assert Outputs(t) == FirstOutputs(t, |t.outs|);
    assert t.outs[..|t.outs|] == t.outs;
  }

  /** Conservation of value: what is unspent is what was minted minus the fees, and no fee
      is negative. */
  lemma {:induction false} ValueConserved(txs: seq<Tx>)
    requires Valid(txs)
    ensures Total(Replay(txs)) == Minted(txs) - Fees(txs)
    ensures forall t | t in txs :: Fee(t) >= 0
  {
    hide Total, FirstOutputs;
    NothingMinted();
    if txs != [] {
      var init, last := txs[..|txs| - 1], txs[|txs| - 1];
      assert txs == init + [last];
      ValueConserved(init);
      var u := Replay(init);
      FeeOfNext(init, last);
      TotalOfOutputs(last);
      forall p | p in u ensures p !in Outputs(last) {
        ReplayCreated(init, p);
      }
      TotalAdd(u - Spent(last), Outputs(last));
      if last.coinbase {
        assert u - Spent(last) == u;
      } else {
        TotalSpend(u, last.ins);
      }
    }
  }

  /** The fee read from the named outputs is the one the ledger computes. */
  lemma FeeOfNext(before: seq<Tx>, t: Tx)
    requires Valid(before) && ValidNext(before, t)
    ensures !t.coinbase ==> Fee(t) == InSum(t.ins, Replay(before)) - OutSum(t.outs)
    ensures Fee(t) >= 0
  {
    if !t.coinbase {
      forall p | p in t.ins
        ensures p.vout < |p.tx.outs| && Replay(before)[p] == p.tx.outs[p.vout]
      {
        UnspentMeaning(before, p);
      }
      InSumNamed(t.ins, Replay(before));
    }
  }
}
