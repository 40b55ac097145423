/** Whole runs of the store: arbitrary interleavings of received blocks and pipeline commits,
    restarts and crashes. */
module StoreRuns {
  import opened Chain
  import opened Database
  import opened StoreSpec
  import opened StoreProofs

  datatype Input = Receive(b: Block) | Commit

  ghost function Next(s: Store, i: Input): Result<Store> {
    match i
    case Receive(b) => InsertBlock(s, b)
    case Commit => Ok(CommitOne(s))
  }

  ghost function Run(s: Store, inputs: seq<Input>): Result<Store> {
    if inputs == [] then Ok(s)
    else
      match Run(s, inputs[..|inputs| - 1])
      case Panicked(why) => Panicked(why)
      case Ok(t) => Next(t, inputs[|inputs| - 1])
  }

  /** The reference: a plain vector of blocks. */
  function Received(c: seq<BlockId>, inputs: seq<Input>): seq<BlockId> {
    if inputs == [] then c
    else
      var before := Received(c, inputs[..|inputs| - 1]);
      match inputs[|inputs| - 1]
      case Commit => before
      case Receive(b) => if b.height <= |before| then Insert(before, b) else before
  }

  /** The longest chain the reference ever showed, starting from `d`. */
  function Longest(d: seq<BlockId>, c: seq<BlockId>, inputs: seq<Input>): seq<BlockId> {
    if inputs == [] then d
    else Longer(Longest(d, c, inputs[..|inputs| - 1]), Received(c, inputs))
  }

  /** Every received block fits the chain received before it. */
  predicate Disciplined(c: seq<BlockId>, inputs: seq<Input>) {
    inputs == []
    || (&& Disciplined(c, inputs[..|inputs| - 1])
        && (inputs[|inputs| - 1].Receive? ==>
              Fits(Received(c, inputs[..|inputs| - 1]), inputs[|inputs| - 1].b)))
  }

  /** For every disciplined input and every timing of the pipeline the store never panics and
      its live chain is the longest chain received so far; the visible chain never shrinks. */
  lemma {:induction false} RunRefines(s: Store, c: seq<BlockId>, inputs: seq<Input>)
    requires Inv(s, c) && Disciplined(c, inputs)
    ensures Run(s, inputs).Ok?
    ensures var t := Run(s, inputs).value;
      && Inv(t, Received(c, inputs))
      && Live(t) == Longest(Live(s), c, inputs)
      && |Visible(s.db)| <= |Visible(t.db)|
  {
    hide Inv, Live, InsertBlock, CommitOne, Visible, Fits;
    if inputs != [] {
      var init, last := inputs[..|inputs| - 1], inputs[|inputs| - 1];
      RunRefines(s, c, init);
      var t, e := Run(s, init).value, Received(c, init);
      match last {
        case Commit =>
          CommitOneKeeps(t, e);
          ReceivedIsShort(t, e);
        case Receive(b) =>
          InsertRefines(t, e, b);
          FitsHeight(e, b);
      }
    }
  }

  lemma FitsHeight(c: seq<BlockId>, b: Block)
    requires Fits(c, b)
    ensures b.height <= |c|
  {
  }

  lemma ReceivedIsShort(s: Store, c: seq<BlockId>)
    requires Inv(s, c)
    ensures |c| <= |Live(s)|
  {
    hide DbInv, IsChain, Live, PendingIs;
  }

  /** What "longest" means: it was shown at some point (or at the start), nothing shown is
      longer, and of equally long chains the first one stays. */
  lemma {:induction false} LongestMeaning(d: seq<BlockId>, c: seq<BlockId>, inputs: seq<Input>, n: nat)
    requires n <= |inputs|
    ensures n > 0 ==> |Received(c, inputs[..n])| <= |Longest(d, c, inputs)|
    ensures |d| <= |Longest(d, c, inputs)|
    ensures Longest(d, c, inputs) == d ||
      exists k :: 0 < k <= |inputs| && Longest(d, c, inputs) == Received(c, inputs[..k])
        && |d| < |Received(c, inputs[..k])|
        && forall j | 0 < j < k :: |Received(c, inputs[..j])| < |Received(c, inputs[..k])|
    decreases |inputs|
  {
    if inputs != [] {
      var init := inputs[..|inputs| - 1];
      LongestMeaning(d, c, init, if n == |inputs| then 0 else n);
      assert inputs[..|inputs|] == inputs;
      assert forall k | 0 <= k <= |init| :: init[..k] == inputs[..k];
      if |Received(c, inputs)| > |Longest(d, c, init)| {
        forall j | 0 < j < |inputs| ensures |Received(c, inputs[..j])| < |Received(c, inputs)| {
          LongestMeaning(d, c, init, j);
          assert init[..j] == inputs[..j];
        }
        assert Longest(d, c, inputs) == Received(c, inputs[..|inputs|]);
      } else if Longest(d, c, init) != d {
        var k :| 0 < k <= |init| && Longest(d, c, init) == Received(c, init[..k])
          && |d| < |Received(c, init[..k])|
          && forall j | 0 < j < k :: |Received(c, init[..j])| < |Received(c, init[..k])|;
        assert init[..k] == inputs[..k];
        forall j | 0 < j < k ensures |Received(c, inputs[..j])| < |Received(c, inputs[..k])| {
          assert init[..j] == inputs[..j];
        }
      }
    }
  }

  // ---------------------------------------------------------------- start, crash, restart

  /** max(height) + 1 over the non-extinct rows. */
  ghost function LiveCountOf(rows: map<BlockId, Row>): nat {
    if exists n: nat :: IsCount(rows, true, n) then
      var n: nat :| IsCount(rows, true, n);
      n
    else 0
  }

  /** Opening the store; None is the failed "reorg atomicity" assertion. */
  ghost function Open(db: Db, mode: Mode, head: nat): Option<Store> {
    if CountOf(db.rows) != LiveCountOf(db.rows) then None
    else Some(Store(db, [], [], 0, map[], CountOf(db.rows), true, mode, head))
  }

  lemma LiveCountIs(rows: map<BlockId, Row>, c: seq<BlockId>)
    requires Holds(rows, c) && AncestorClosed(rows, |c|)
    ensures LiveCountOf(rows) == |c|
  {
    if c != [] {
      assert LiveAt(rows, |c| - 1, c[|c| - 1]) && Selected(rows, true, c[|c| - 1]);
    }
    assert IsCount(rows, true, |c|);
    var n := LiveCountOf(rows);
    assert IsCount(rows, true, n);
    if c != [] {
      assert rows[c[|c| - 1]].height == |c| - 1;
    }
  }

  lemma {:induction false} HasCount(rows: map<BlockId, Row>, live: bool, todo: set<BlockId>, n: nat)
    requires todo <= rows.Keys
    requires forall id | Selected(rows, live, id) && id !in todo :: rows[id].height < n
    requires n > 0 ==> exists id :: Selected(rows, live, id) && rows[id].height == n - 1
    ensures exists m: nat :: IsCount(rows, live, m)
    decreases todo
  {
    if todo == {} {
      assert IsCount(rows, live, n);
    } else {
      var id :| id in todo;
      if Selected(rows, live, id) && rows[id].height >= n {
        HasCount(rows, live, todo - {id}, rows[id].height + 1);
      } else {
        HasCount(rows, live, todo - {id}, n);
      }
    }
  }

  lemma CountsExist(rows: map<BlockId, Row>)
    ensures IsCount(rows, false, CountOf(rows)) && IsCount(rows, true, LiveCountOf(rows))
  {
    HasCount(rows, false, rows.Keys, 0);
    HasCount(rows, true, rows.Keys, 0);
  }

  /** An extinct block above every live one. */
  ghost predicate Overhangs(rows: map<BlockId, Row>, id: BlockId) {
    id in rows && rows[id].extinct && forall x | x in rows && !rows[x].extinct :: rows[x].height < rows[id].height
  }

  /** The start-up assertion fails exactly when some extinct block is higher than every live
      one, which is what a half-done reorg would leave. */
  lemma OpenRefusesExactlyWhen(db: Db, mode: Mode, head: nat)
    ensures Open(db, mode, head).None? <==> exists id :: Overhangs(db.rows, id)
  {
    CountsExist(db.rows);
    var n, m := CountOf(db.rows), LiveCountOf(db.rows);
    assert m <= n;
    if m < n {
      var id :| Selected(db.rows, false, id) && db.rows[id].height == n - 1;
      assert db.rows[id].extinct by {
        assert Selected(db.rows, true, id) || db.rows[id].extinct;
      }
      forall x | x in db.rows && !db.rows[x].extinct ensures db.rows[x].height < db.rows[id].height {
        assert Selected(db.rows, true, x);
      }
      assert Overhangs(db.rows, id);
    }
    if id :| Overhangs(db.rows, id) {
      assert Selected(db.rows, false, id);
      if m > 0 {
        var x :| Selected(db.rows, true, x) && db.rows[x].height == m - 1;
        assert x in db.rows && !db.rows[x].extinct;
      }
    }
  }

  /** A block above the live chain is refused in every state. */
  lemma GapIsRefused(s: Store, c: seq<BlockId>, b: Block)
    requires Inv(s, c) && b.height > |Live(s)|
    ensures InsertBlock(s, b) == Panicked(Hole)
  {
    hide DbInv, IsChain, Live, PendingIs;
  }

  /** Every committed state can be opened, whatever was lost in memory: the store then stands
      at the visible chain and accepts a replay from any point of it. */
  lemma OpenCommitted(db: Db, mode: Mode, head: nat, k: nat)
    requires DbInv(db) && k <= |Visible(db)|
    ensures Open(db, mode, head).Some?
    ensures var s := Open(db, mode, head).value;
      Inv(s, Visible(db)[..k]) && Live(s) == Visible(db) && !InReorg(s)
  {
    var c := Visible(db);
    CountIs(db.rows, c);
    LiveCountIs(db.rows, c);
    hide TablesFaithful, Holds, AncestorClosed, IsChain, FollowAll;
    ChainPrefix(c, k);
    var s := Open(db, mode, head).value;
    assert Live(s) == c;
    assert Flat(s.flight) + s.batch == [];
  }

  lemma EmptyDbCommitted()
    ensures DbInv(EMPTY) && Visible(EMPTY) == []
  {
    assert Followed(EMPTY.events) == Some([]);
    assert TablesFaithful(EMPTY);
  }

  /** A crash at any moment of any run leaves a database that can be opened again. */
  lemma CrashSafe(s: Store, c: seq<BlockId>, inputs: seq<Input>, mode: Mode, head: nat)
    requires Inv(s, c) && Disciplined(c, inputs)
    ensures Run(s, inputs).Ok?
    ensures var t := Run(s, inputs).value;
      && DbInv(t.db)
      && Visible(t.db) <= Longest(Live(s), c, inputs)
      && Open(t.db, mode, head).Some?
      && Live(Open(t.db, mode, head).value) == Visible(t.db)
  {
    hide IsChain, DbInv, Open, Run, Live, PendingIs;
    RunRefines(s, c, inputs);
    var t := Run(s, inputs).value;
    VisibleGrows(t, Received(c, inputs));
    OpenCommitted(t.db, mode, head, 0);
  }

  /** The blocks of `d` from `k` on, as the fetcher sends them again after a restart. */
  function Again(d: seq<BlockId>, k: nat, n: nat): (r: seq<Input>)
    requires k <= n <= |d|
  {
    if n == k then [] else Again(d, k, n - 1) + [Receive(Block(n - 1, d[n - 1]))]
  }

  /** Replaying blocks the store already has changes nothing at all: no row, no event. */
  lemma {:induction false} ReplayIsIdempotent(s: Store, k: nat, n: nat)
    requires k <= n <= |Live(s)|
    requires Inv(s, Live(s)[..k]) && !InReorg(s) && s.flight == [] && s.batch == []
    ensures Run(s, Again(Live(s), k, n)) == Ok(s)
    ensures Disciplined(Live(s)[..k], Again(Live(s), k, n))
    ensures Received(Live(s)[..k], Again(Live(s), k, n)) == Live(s)[..n]
    decreases n
  {
    hide Inv, Live, InsertBlock, Fits, InReorg, Again;
    var d := Live(s);
    NothingAgain(d, k);
    if n > k {
      ReplayIsIdempotent(s, k, n - 1);
      InsertAgain(s, d[..k], n - 1);
      AgainInit(d, k, n);
    }
  }

  lemma NothingAgain(d: seq<BlockId>, k: nat)
    requires k <= |d|
    ensures Again(d, k, k) == []
  {
  }

  lemma AgainInit(d: seq<BlockId>, k: nat, n: nat)
    requires k < n <= |d|
    ensures var all := Again(d, k, n);
      all != [] && all[..|all| - 1] == Again(d, k, n - 1) && all[|all| - 1] == Receive(Block(n - 1, d[n - 1]))
  {
  }

  lemma InsertAgain(s: Store, c: seq<BlockId>, h: nat)
    requires Inv(s, c) && !InReorg(s) && s.flight == [] && s.batch == [] && h < |Live(s)|
    ensures InsertBlock(s, Block(h, Live(s)[h])) == Ok(s)
    ensures Fits(Live(s)[..h], Block(h, Live(s)[h]))
    ensures Insert(Live(s)[..h], Block(h, Live(s)[h])) == Live(s)[..h + 1]
  {
    hide TablesFaithful, IsChain, FollowAll;
    var d := Live(s);
    assert d == Visible(s.db);
    ChainHeight(d, h);
    assert d[..h][..h] == d[..h];
    HoldsByHeight(s.db.rows, d, h);
  }

  // ---------------------------------------------------------------- queries

  /** Asking for a block by height answers from the received chain where it reaches, from the
      live chain above it, and disturbs neither. */
  lemma GetHashMeaning(s: Store, c: seq<BlockId>, h: nat)
    requires Inv(s, c)
    ensures var (t, r) := GetHash(s, h);
      && Inv(t, c) && Live(t) == Live(s)
      && r == if h < |c| then Some(c[h]) else if h < |Live(s)| then Some(Live(s)[h]) else None
  {
    if s.count > h && h !in s.pending {
      FlushWorkersKeeps(s, c);
      var f := FlushWorkers(s);
      hide TablesFaithful, IsChain, FollowAll, AncestorClosed, FlushWorkers;
      HoldsByHeight(f.db.rows, Live(s), h);
      hide Holds, PendingIs;
      if InReorg(s) && h < |c| {
        var lo: nat :| PendingIs(s, c, lo);
        BelowPending(s, c, lo, h);
      }
    } else if h in s.pending {
      hide DbInv, IsChain, PendingIs, Live;
      var lo: nat :| PendingIs(s, c, lo);
      BelowPending(s, c, lo, h);
    }
  }

  lemma BelowPending(s: Store, c: seq<BlockId>, lo: nat, h: nat)
    requires PendingIs(s, c, lo)
    ensures h in s.pending ==> h < |c| && s.pending[h].id == c[h]
    ensures h !in s.pending && h < |c| ==> h < |Live(s)| && c[h] == Live(s)[h]
  {
    hide Live;
    if h < lo {
      assert c[..lo][h] == c[h];
    }
  }
}
