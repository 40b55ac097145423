/** The cache of unspent outputs kept by the first pipeline thread, and the fee computation
    that uses it.  A batch is resolved from the cache where possible and from the database
    for the rest; the database may lag behind by everything still in the pipeline. */
module UtxoCache {
  import opened Chain
  import opened Ledger

  type Values = map<OutPoint, nat>

  function OutValues(t: Tx): (m: Values)
    ensures forall p :: p in m <==> p.tx == t && p.vout < |t.outs|
    ensures forall p | p in m :: m[p] == t.outs[p.vout].value
  {
    map p | p in Outputs(t) :: t.outs[p.vout].value
  }

  function InsertNew(cache: Values, txs: seq<Tx>): Values {
    if txs == [] then cache else InsertNew(cache, txs[..|txs| - 1]) + OutValues(txs[|txs| - 1])
  }

  /** The points consumed by `txs`, in order; coinbases are skipped. */
  function Inputs(txs: seq<Tx>): seq<OutPoint> {
    if txs == [] then []
    else
      var t := txs[|txs| - 1];
      Inputs(txs[..|txs| - 1]) + (if t.coinbase then [] else t.ins)
  }

  datatype Consumed = Consumed(cache: Values, found: Values, missing: seq<OutPoint>)

  function Consume(cache: Values, points: seq<OutPoint>): Consumed {
    if points == [] then Consumed(cache, map[], [])
    else
      var r, p := Consume(cache, points[..|points| - 1]), points[|points| - 1];
      if p in r.cache then r.(cache := r.cache - {p}, found := r.found[p := r.cache[p]])
      else r.(missing := r.missing + [p])
  }

  /** SELECT ... FROM output WHERE (tx, idx) IN (points). */
  function Fetch(table: map<OutPoint, TxOut>, points: seq<OutPoint>): Values {
    map p | p in points && p in table :: table[p].value
  }

  /** Resolving one batch: the new cache and the value of every consumed point.  None is the
      failed assertion that every missing point was fetched. */
  function Process(cache: Values, table: map<OutPoint, TxOut>, txs: seq<Tx>): Option<(Values, Values)> {
    var r := Consume(InsertNew(cache, txs), Inputs(txs));
    var fetched := Fetch(table, r.missing);
    if |r.missing| != |fetched| then None else Some((r.cache, r.found + fetched))
  }

  // ---------------------------------------------------------------- meaning

  /** The cache holds exactly what `processed` created and did not consume. */
  ghost predicate CacheIs(cache: Values, processed: seq<Tx>) {
    && (forall p :: p in cache <==> Created(processed, p) && p !in Inputs(processed))
    && (forall p | p in cache :: p.vout < |p.tx.outs| && cache[p] == p.tx.outs[p.vout].value)
  }

  /** The output table has at least everything `txs` created, and nothing wrong. */
  ghost predicate TableCovers(table: map<OutPoint, TxOut>, txs: seq<Tx>) {
    && (forall p | Created(txs, p) :: p in table)
    && (forall p | p in table :: p.vout < |p.tx.outs| && table[p] == p.tx.outs[p.vout])
  }

  /** Every consumed point of the batch, with the value it was created with. */
  ghost predicate Resolves(values: Values, txs: seq<Tx>) {
    && (forall p :: p in values <==> p in Inputs(txs))
    && (forall p | p in values :: p.vout < |p.tx.outs| && values[p] == p.tx.outs[p.vout].value)
  }

  lemma {:induction false} InputsConcat(a: seq<Tx>, b: seq<Tx>)
    ensures Inputs(a + b) == Inputs(a) + Inputs(b)
  {
    if b == [] {
      assert a + b == a;
    } else {
      assert (a + b)[..|a + b| - 1] == a + b[..|b| - 1];
      InputsConcat(a, b[..|b| - 1]);
    }
  }

  lemma {:induction false} InputsMeaning(txs: seq<Tx>, p: OutPoint)
    ensures p in Inputs(txs) <==> exists i :: 0 <= i < |txs| && p in Spent(txs[i])
  {
    if txs != [] {
      var init, n := txs[..|txs| - 1], |txs| - 1;
      InputsMeaning(init, p);
      if p in Inputs(init) {
        var i :| 0 <= i < n && p in Spent(init[i]);
        assert txs[i] == init[i];
      }
      if i :| 0 <= i < n && p in Spent(txs[i]) {
        assert init[i] == txs[i];
      }
    }
  }

  /** In a valid history the consumed points are all different and all created before. */
  lemma {:induction false} InputsDistinct(txs: seq<Tx>)
    requires Valid(txs)
    ensures Distinct(Inputs(txs))
    ensures forall p | p in Inputs(txs) :: Created(txs, p)
  {
    if txs != [] {
      var n := |txs| - 1;
      var init, t := txs[..n], txs[n];
      InputsDistinct(init);
      assert txs == init + [t];
      if !t.coinbase {
        forall p | p in t.ins ensures p !in Inputs(init) && Created(init, p) {
          SpendOnce(txs, n, p);
          InputsMeaning(init, p);
          assert forall i | 0 <= i < n :: init[i] == txs[i];
        }
        DistinctConcat(Inputs(init), t.ins);
      }
    }
  }

  lemma DistinctConcat<T>(a: seq<T>, b: seq<T>)
    requires Distinct(a) && Distinct(b) && forall x | x in b :: x !in a
    ensures Distinct(a + b)
  {
    forall i, j | 0 <= i < j < |a + b| ensures (a + b)[i] != (a + b)[j] {
      if j >= |a| {
        assert (a + b)[j] in b;
      }
    }
  }

  lemma DistinctParts<T>(a: seq<T>, b: seq<T>)
    requires Distinct(a + b)
    ensures Distinct(a) && Distinct(b) && forall x | x in b :: x !in a
  {
    var c := a + b;
    assert forall i | 0 <= i < |a| :: c[i] == a[i];
    assert forall i | 0 <= i < |b| :: c[|a| + i] == b[i];
  }

  lemma {:induction false} InsertNewMeaning(cache: Values, txs: seq<Tx>, p: OutPoint)
    ensures p in InsertNew(cache, txs) <==> p in cache || Created(txs, p)
    ensures p in InsertNew(cache, txs) ==>
      InsertNew(cache, txs)[p] == if Created(txs, p) then p.tx.outs[p.vout].value else cache[p]
  {
    if txs != [] {
      assert txs == txs[..|txs| - 1] + [txs[|txs| - 1]];
      InsertNewMeaning(cache, txs[..|txs| - 1], p);
    }
  }

  lemma {:induction false} ConsumeMeaning(cache: Values, points: seq<OutPoint>)
    requires Distinct(points)
    ensures var r := Consume(cache, points);
      && (forall p :: p in r.cache <==> p in cache && p !in points)
      && (forall p | p in r.cache :: r.cache[p] == cache[p])
      && (forall p :: p in r.found <==> p in cache && p in points)
      && (forall p | p in r.found :: r.found[p] == cache[p])
      && (forall p :: p in r.missing <==> p !in cache && p in points)
      && Distinct(r.missing)
  {
    if points != [] {
      var init, last := points[..|points| - 1], points[|points| - 1];
      assert points == init + [last];
      DistinctParts(init, [last]);
      ConsumeMeaning(cache, init);
      assert last !in init;
    }
  }

  lemma {:induction false} MembersSize<T>(s: seq<T>)
    requires Distinct(s)
    ensures |set x | x in s| == |s|
  {
    if s != [] {
      var init, last := s[..|s| - 1], s[|s| - 1];
      assert s == init + [last];
      DistinctParts(init, [last]);
      MembersSize(init);
      assert (set x | x in s) == (set x | x in init) + {last};
    }
  }

  lemma FetchSize(table: map<OutPoint, TxOut>, points: seq<OutPoint>)
    requires Distinct(points) && forall p | p in points :: p in table
    ensures |Fetch(table, points)| == |points|
  {
    MembersSize(points);
    assert Fetch(table, points).Keys == set p | p in points;
  }

  lemma {:induction false} FullMeaning(cache: Values, txs: seq<Tx>)
    ensures forall p | Created(txs, p) :: p.vout < |p.tx.outs|
    ensures var full := InsertNew(cache, txs);
      && (forall p :: p in full <==> p in cache || Created(txs, p))
      && (forall p | p in full :: full[p] == if Created(txs, p) then p.tx.outs[p.vout].value else cache[p])
  {
    forall p
      ensures p in InsertNew(cache, txs) <==> p in cache || Created(txs, p)
      ensures p in InsertNew(cache, txs) ==>
        InsertNew(cache, txs)[p] == if Created(txs, p) then p.tx.outs[p.vout].value else cache[p]
    {
      InsertNewMeaning(cache, txs, p);
    }
  }

  /** The cache after a batch. */
  lemma {:induction false} CacheAfter(cache: Values, base: seq<Tx>, processed: seq<Tx>, txs: seq<Tx>)
    requires Valid(base + processed + txs) && CacheIs(cache, processed)
    ensures CacheIs(Consume(InsertNew(cache, txs), Inputs(txs)).cache, processed + txs)
  {
    hide Valid, Inputs, InsertNew, Consume, Distinct, Created;
    var full := InsertNew(cache, txs);
    var after := Consume(full, Inputs(txs)).cache;
    BatchFacts(base, processed, txs);
    FullMeaning(cache, txs);
    ConsumeMeaning(full, Inputs(txs));
    InputsConcat(processed, txs);
    forall p ensures p in after <==> Created(processed + txs, p) && p !in Inputs(processed + txs) {
      assert p in after <==> p in full && p !in Inputs(txs);
      assert p in full <==> p in cache || Created(txs, p);
    }
    forall p | p in after ensures p.vout < |p.tx.outs| && after[p] == p.tx.outs[p.vout].value {
      assert after[p] == full[p];
    }
  }

  /** What the cache cannot answer was created before the pipeline started. */
  lemma {:induction false} MissingIsOld(cache: Values, base: seq<Tx>, processed: seq<Tx>, txs: seq<Tx>)
    requires Valid(base + processed + txs) && CacheIs(cache, processed)
    ensures var r := Consume(InsertNew(cache, txs), Inputs(txs));
      && Distinct(r.missing)
      && (forall p | p in r.missing :: Created(base, p) && !Created(processed + txs, p))
      && (forall p :: p in r.found || p in r.missing <==> p in Inputs(txs))
      && (forall p | p in r.found :: p.vout < |p.tx.outs| && r.found[p] == p.tx.outs[p.vout].value)
  {
    hide Valid, Inputs, InsertNew, Consume, Distinct, Created;
    BatchFacts(base, processed, txs);
    FullMeaning(cache, txs);
    ConsumeMeaning(InsertNew(cache, txs), Inputs(txs));
  }

  /** No failure, the cache is up to date, and every consumed point has its true value. */
  ghost predicate RightResult(r: Option<(Values, Values)>, processed: seq<Tx>, txs: seq<Tx>) {
    r.Some? && CacheIs(r.value.0, processed + txs) && Resolves(r.value.1, txs)
  }

  ghost predicate AsksOnly(base: seq<Tx>, missing: seq<OutPoint>) {
    forall p | p in missing :: Created(base, p)
  }

  /** Correctness under lag: `base` is what the database surely has (committed before the
      pipeline started), `processed` went through this cache and may or may not be committed
      yet.  The batch resolves exactly as the sequential ledger would, and the database is
      asked only for outputs of `base`. */
  lemma {:induction false} ProcessCorrect(cache: Values, table: map<OutPoint, TxOut>, base: seq<Tx>, processed: seq<Tx>, txs: seq<Tx>)
    requires Valid(base + processed + txs)
    requires CacheIs(cache, processed) && TableCovers(table, base)
    ensures RightResult(Process(cache, table, txs), processed, txs)
    ensures AsksOnly(base, Consume(InsertNew(cache, txs), Inputs(txs)).missing)
  {
    hide Valid, Inputs, InsertNew, Consume, Distinct, CacheIs, Fetch;
    var r := Consume(InsertNew(cache, txs), Inputs(txs));
    CacheAfter(cache, base, processed, txs);
    MissingIsOld(cache, base, processed, txs);
    FetchSize(table, r.missing);
    MergeValues(r.found, table, r.missing);
  }

  lemma MergeValues(found: Values, table: map<OutPoint, TxOut>, missing: seq<OutPoint>)
    requires forall p | p in missing :: p in table
    requires forall p | p in table :: p.vout < |p.tx.outs| && table[p] == p.tx.outs[p.vout]
    requires forall p | p in found :: p.vout < |p.tx.outs| && found[p] == p.tx.outs[p.vout].value
    ensures var values := found + Fetch(table, missing);
      && (forall p :: p in values <==> p in found || p in missing)
      && (forall p | p in values :: p.vout < |p.tx.outs| && values[p] == p.tx.outs[p.vout].value)
  {
    var fetched := Fetch(table, missing);
    assert forall p :: p in fetched <==> p in missing;
  }

  /** Who created and who consumed the points a batch touches. */
  lemma {:induction false} BatchFacts(base: seq<Tx>, processed: seq<Tx>, txs: seq<Tx>)
    requires Valid(base + processed + txs)
    ensures Distinct(Inputs(txs))
    ensures forall p | p in Inputs(txs) ::
      && (Created(base, p) || Created(processed, p) || Created(txs, p))
      && p !in Inputs(processed)
    ensures forall p | Created(txs, p) :: p !in Inputs(processed)
    ensures forall p :: Created(processed + txs, p) <==> Created(processed, p) || Created(txs, p)
    ensures forall p | Created(base, p) :: !Created(processed + txs, p)
  {
    hide Valid, Inputs, Distinct;
    var before, all := base + processed, base + processed + txs;
    InputsDistinct(all);
    InputsConcat(before, txs);
    InputsConcat(base, processed);
    DistinctParts(Inputs(before), Inputs(txs));
    ValidPrefix(before, txs);
    InputsDistinct(before);
    TxsDistinct(all);
    DistinctParts(before, txs);
    assert base + (processed + txs) == all;
    DistinctParts(base, processed + txs);
    forall p | p in Inputs(txs)
      ensures Created(base, p) || Created(processed, p) || Created(txs, p)
    {
      assert p in Inputs(all);
    }
    forall p | Created(txs, p) ensures p !in Inputs(processed) {
      assert p in Inputs(processed) ==> Created(before, p);
    }
  }

  lemma {:induction false} TxsDistinct(txs: seq<Tx>)
    requires Valid(txs)
    ensures Distinct(txs)
  {
    if txs != [] {
      TxsDistinct(txs[..|txs| - 1]);
      DistinctConcat(txs[..|txs| - 1], [txs[|txs| - 1]]);
      assert txs == txs[..|txs| - 1] + [txs[|txs| - 1]];
    }
  }

  // ---------------------------------------------------------------- fees

  function ValueSum(ins: seq<OutPoint>, values: Values): nat
    requires forall p | p in ins :: p in values
  {
    if ins == [] then 0 else ValueSum(ins[..|ins| - 1], values) + values[ins[|ins| - 1]]
  }

  /** The fee the formatter writes; None when it would fail (a point it has no value for, or
      more going out than coming in). */
  function FeeFrom(values: Values, t: Tx): Option<nat> {
    if t.coinbase then Some(0)
    else if exists p | p in t.ins :: p !in values then None
    else if OutSum(t.outs) > ValueSum(t.ins, values) then None
    else Some(ValueSum(t.ins, values) - OutSum(t.outs))
  }

  lemma {:induction false} ValueSumNamed(ins: seq<OutPoint>, values: Values)
    requires forall p | p in ins :: p in values && p.vout < |p.tx.outs| && values[p] == p.tx.outs[p.vout].value
    ensures ValueSum(ins, values) == NamedSum(ins)
  {
    if ins != [] {
      ValueSumNamed(ins[..|ins| - 1], values);
    }
  }

  /** With a resolved batch every fee is the ledger's. */
  lemma {:induction false} FeesCorrect(values: Values, before: seq<Tx>, txs: seq<Tx>, i: nat)
    requires Valid(before + txs) && Resolves(values, txs) && i < |txs|
    ensures FeeFrom(values, txs[i]).Some? && FeeFrom(values, txs[i]).value == Fee(txs[i])
  {
    hide Valid, ValidNext, Replay;
    var t := txs[i];
    var all := before + txs;
    assert all[|before| + i] == t;
    if !t.coinbase {
      forall p | p in t.ins ensures p in values {
        assert p in Spent(txs[i]);
        InputsMeaning(txs, p);
      }
      ValueSumNamed(t.ins, values);
      ValidConcatAt(all, |before| + i);
      FeeOfNext(all[..|before| + i], t);
    }
  }

  lemma {:induction false} ValidConcatAt(txs: seq<Tx>, i: nat)
    requires Valid(txs) && i < |txs|
    ensures Valid(txs[..i]) && ValidNext(txs[..i], txs[i])
  {
    var init := txs[..|txs| - 1];
    if i < |init| {
      ValidConcatAt(init, i);
      assert init[..i] == txs[..i];
    }
  }

  // ---------------------------------------------------------------- the program's loops

  /** The fee of a transaction, with the program's two folds. */
  method ComputeFee(values: Values, t: Tx) returns (fee: nat)
    requires FeeFrom(values, t).Some?
    ensures FeeFrom(values, t) == Some(fee)
  {
    if t.coinbase {
      return 0;
    }
    var spent, created := 0, 0;
    for i := 0 to |t.ins|
      invariant spent == ValueSum(t.ins[..i], values)
    {
      assert t.ins[..i + 1][..i] == t.ins[..i];
      assert t.ins[i] in t.ins;
      spent := spent + values[t.ins[i]];
    }
    for i := 0 to |t.outs|
      invariant created == OutSum(t.outs[..i])
    {
      assert t.outs[..i + 1][..i] == t.outs[..i];
      created := created + t.outs[i].value;
    }
    assert t.ins[..|t.ins|] == t.ins && t.outs[..|t.outs|] == t.outs;
    assert created <= spent;
    fee := spent - created;
  }

  const CHUNK := 30_000

  /** The queries: every point is asked for, in order, 30,000 at a time. */
  method FmtFetchOutputs(points: seq<OutPoint>) returns (queries: seq<seq<OutPoint>>)
    ensures Flatten(queries) == points
    ensures forall i | 0 <= i < |queries| :: 0 < |queries[i]| <= 30_000
    ensures forall i | 0 <= i < |queries| - 1 :: |queries[i]| == 30_000
  {
    queries := [];
    var i := 0;
    while i < |points|
      invariant 0 <= i <= |points|
      invariant Flatten(queries) == points[..i]
      invariant forall k | 0 <= k < |queries| :: 0 < |queries[k]| <= 30_000
      invariant i < |points| ==> forall k | 0 <= k < |queries| :: |queries[k]| == 30_000
      invariant forall k | 0 <= k < |queries| - 1 :: |queries[k]| == 30_000
    {
      var n := if |points| - i < CHUNK then |points| - i else CHUNK;
      var chunk := points[i..i + n];
      assert points[..i + n] == points[..i] + chunk;
      assert (queries + [chunk])[..|queries|] == queries;
      queries := queries + [chunk];
      i := i + n;
    }
    assert points[..|points|] == points;
  }

  /** What all queries together return, and the queries. */
  method FetchOutputs(table: map<OutPoint, TxOut>, points: seq<OutPoint>)
    returns (out: Values, queries: seq<seq<OutPoint>>)
    ensures out == Fetch(table, points)
    ensures Flatten(queries) == points && forall i | 0 <= i < |queries| :: 0 < |queries[i]| <= 30_000
  {
    queries := FmtFetchOutputs(points);
    out := map[];
    assert queries[..0] == [];
    for i := 0 to |queries|
      invariant out == Fetch(table, Flatten(queries[..i]))
    {
      assert queries[..i + 1][..i] == queries[..i];
      out := out + Fetch(table, queries[i]);
    }
    assert queries[..|queries|] == queries;
  }

  class UtxoSetCache {
    var entries: Values

    constructor ()
      ensures entries == map[] && CacheIs(entries, [])
    {
      entries := map[];
    }

    method InsertNewFromBlocks(blocks: seq<seq<Tx>>)
      modifies this
      ensures entries == InsertNew(old(entries), Flatten(blocks))
    {
      for i := 0 to |blocks|
        invariant entries == InsertNew(old(entries), Flatten(blocks[..i]))
      {
        assert blocks[..i + 1][..i] == blocks[..i];
        InsertNewFromBlock(blocks[i]);
        InsertNewConcat(old(entries), Flatten(blocks[..i]), blocks[i]);
      }
      assert blocks[..|blocks|] == blocks;
    }

    method InsertNewFromBlock(txs: seq<Tx>)
      modifies this
      ensures entries == InsertNew(old(entries), txs)
    {
      for j := 0 to |txs|
        invariant entries == InsertNew(old(entries), txs[..j])
      {
        assert txs[..j + 1][..j] == txs[..j];
        InsertOutputs(txs[j]);
      }
      assert txs[..|txs|] == txs;
    }

    method InsertOutputs(t: Tx)
      modifies this
      ensures entries == old(entries) + OutValues(t)
    {
      hide FirstValues;
      NoValues(t);
      for k := 0 to |t.outs|
        invariant entries == old(entries) + FirstValues(t, k)
      {
        MoreValues(old(entries), t, k);
        entries := entries[OutPoint(t, k) := t.outs[k].value];
      }
    }

    method ConsumeSpent(points: seq<OutPoint>) returns (found: Values, missing: seq<OutPoint>)
      modifies this
      ensures Consume(old(entries), points) == Consumed(entries, found, missing)
    {
      found, missing := map[], [];
      for i := 0 to |points|
        invariant Consume(old(entries), points[..i]) == Consumed(entries, found, missing)
      {
        var p := points[i];
        assert points[..i + 1][..i] == points[..i];
        if p in entries {
          found := found[p := entries[p]];
          entries := entries - {p};
        } else {
          missing := missing + [p];
        }
      }
      assert points[..|points|] == points;
    }

    /** One batch, with the history it continues as ghost arguments. */
    method ProcessBlocks(table: map<OutPoint, TxOut>, blocks: seq<seq<Tx>>,
                         ghost base: seq<Tx>, ghost processed: seq<Tx>)
      returns (values: Values)
      requires Valid(base + processed + Flatten(blocks))
      requires CacheIs(entries, processed) && TableCovers(table, base)
      modifies this
      ensures Process(old(entries), table, Flatten(blocks)) == Some((entries, values))
      ensures CacheIs(entries, processed + Flatten(blocks)) && Resolves(values, Flatten(blocks))
    {
      hide CacheIs, TableCovers, Resolves;
      var txs := Flatten(blocks);
      ProcessCorrect(entries, table, base, processed, txs);
      InsertNewFromBlocks(blocks);
      var found, missing := ConsumeSpent(Inputs(txs));
      var fetched: Values := map[];
      if missing != [] {
        var queries;
        fetched, queries := FetchOutputs(table, missing);
        assert |missing| == |fetched|;
      }
      assert fetched == Fetch(table, missing);
      values := found + fetched;
    }
  }

  lemma {:induction false} InsertNewConcat(cache: Values, a: seq<Tx>, b: seq<Tx>)
    ensures InsertNew(cache, a + b) == InsertNew(InsertNew(cache, a), b)
  {
    if b == [] {
      assert a + b == a;
    } else {
      assert (a + b)[..|a + b| - 1] == a + b[..|b| - 1];
      InsertNewConcat(cache, a, b[..|b| - 1]);
    }
  }

  function Flatten<T>(blocks: seq<seq<T>>): seq<T> {
    if blocks == [] then [] else Flatten(blocks[..|blocks| - 1]) + blocks[|blocks| - 1]
  }

  ghost function FirstValues(t: Tx, k: nat): Values
    requires k <= |t.outs|
  {
    map p | p in Outputs(t) && p.vout < k :: t.outs[p.vout].value
  }

  lemma NoValues(t: Tx)
    ensures FirstValues(t, 0) == map[] && FirstValues(t, |t.outs|) == OutValues(t)
  {
  }

  lemma MoreValues(before: Values, t: Tx, k: nat)
    requires k < |t.outs|
    ensures before + FirstValues(t, k + 1) == (before + FirstValues(t, k))[OutPoint(t, k) := t.outs[k].value]
  {
    assert FirstValues(t, k + 1) == FirstValues(t, k)[OutPoint(t, k) := t.outs[k].value];
  }
}
