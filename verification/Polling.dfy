/** Following the event log by polling it page by page while it grows. */
module Polling {
  import opened Chain
  import opened Database
  import S = StoreSpec
  import SR = StoreRuns

  /** A row of the event table; ids come from a sequence, so they grow but may skip values. */
  datatype Entry = Entry(id: int, event: Event)

  datatype Item = Item(height: nat, id: BlockId, revert: bool)

  predicate Increasing(log: seq<Entry>) {
    && (forall i | 0 <= i < |log| :: log[i].id > 0)
    && (forall i, j | 0 <= i < j < |log| :: log[i].id < log[j].id)
  }

  function Events(log: seq<Entry>): (r: seq<Event>)
    ensures |r| == |log|
  {
    seq(|log|, i requires 0 <= i < |log| => log[i].event)
  }

  /** The join with the block table loses no event. */
  ghost predicate Stored(events: seq<Event>, rows: map<BlockId, Row>) {
    forall e | e in events :: e.block in rows
  }

  function ItemOf(e: Event, rows: map<BlockId, Row>): Item {
    Item(if e.block in rows then rows[e.block].height else 0, e.block, e.revert)
  }

  function Items(log: seq<Entry>, rows: map<BlockId, Row>): (r: seq<Item>)
    ensures |r| == |log|
  {
    seq(|log|, i requires 0 <= i < |log| => ItemOf(log[i].event, rows))
  }

  // ---------------------------------------------------------------- one page

  /** FROM event JOIN block WHERE event.id > cursor ORDER BY id. */
  function Selected(log: seq<Entry>, rows: map<BlockId, Row>, cursor: int): seq<Entry> {
    if log == [] then []
    else
      var e := log[|log| - 1];
      Selected(log[..|log| - 1], rows, cursor) + (if e.id > cursor && e.event.block in rows then [e] else [])
  }

  function Limited<T>(s: seq<T>, limit: nat): seq<T> {
    if |s| <= limit then s else s[..limit]
  }

  /** How many entries a cursor has behind it. */
  function Passed(log: seq<Entry>, cursor: int): (n: nat)
    ensures n <= |log|
  {
    if log == [] then 0
    else Passed(log[..|log| - 1], cursor) + (if log[|log| - 1].id <= cursor then 1 else 0)
  }

  lemma IncreasingPrefix(log: seq<Entry>, n: nat)
    requires Increasing(log) && n <= |log|
    ensures Increasing(log[..n])
  {
  }

  lemma {:induction false} PassedSplits(log: seq<Entry>, cursor: int)
    requires Increasing(log)
    ensures forall i | 0 <= i < |log| :: log[i].id <= cursor <==> i < Passed(log, cursor)
  {
    if log != [] {
      var init := log[..|log| - 1];
      IncreasingPrefix(log, |log| - 1);
      PassedSplits(init, cursor);
      assert forall i | 0 <= i < |init| :: init[i] == log[i];
      assert log[|log| - 1].id <= cursor ==> Passed(init, cursor) == |init| by {
        if Passed(init, cursor) < |init| {
          assert init[Passed(init, cursor)].id > cursor;
        }
      }
    }
  }

  lemma PassedIs(log: seq<Entry>, cursor: int, n: nat)
    requires Increasing(log) && n <= |log|
    requires n > 0 ==> log[n - 1].id <= cursor
    requires n < |log| ==> cursor < log[n].id
    ensures Passed(log, cursor) == n
  {
    PassedSplits(log, cursor);
  }

  lemma {:induction false} SelectedIsTail(log: seq<Entry>, rows: map<BlockId, Row>, cursor: int)
    requires Increasing(log) && Stored(Events(log), rows)
    ensures Selected(log, rows, cursor) == log[Passed(log, cursor)..]
  {
    if log != [] {
      var init, e := log[..|log| - 1], log[|log| - 1];
      StoredPrefix(log, rows);
      IncreasingPrefix(log, |log| - 1);
      SelectedIsTail(init, rows, cursor);
      hide Stored, Selected;
      PassedSplits(log, cursor);
      PassedSplits(init, cursor);
      hide Passed, Increasing;
      if e.id > cursor {
        assert log[Passed(init, cursor)..] == init[Passed(init, cursor)..] + [e];
      } else {
        assert log[Passed(log, cursor)..] == [];
        assert init[Passed(init, cursor)..] == [];
      }
    }
  }

  lemma StoredPrefix(log: seq<Entry>, rows: map<BlockId, Row>)
    requires Stored(Events(log), rows) && log != []
    ensures Stored(Events(log[..|log| - 1]), rows) && log[|log| - 1].event.block in rows
  {
    var init := log[..|log| - 1];
    assert Events(log)[|log| - 1] in Events(log);
    assert forall i | 0 <= i < |init| :: Events(init)[i] == Events(log)[i];
  }

  lemma PageIsSlice(log: seq<Entry>, rows: map<BlockId, Row>, cursor: int, limit: nat)
    requires Increasing(log) && Stored(Events(log), rows)
    ensures var n, page := Passed(log, cursor), Limited(Selected(log, rows, cursor), limit);
      && |page| == (if |log| - n <= limit then |log| - n else limit)
      && page == log[n..n + |page|]
      && (forall i | 0 <= i < |page| :: page[i].event.block in rows)
      && (page != [] ==> page[|page| - 1].id > cursor && Passed(log, page[|page| - 1].id) == n + |page|)
  {
    var n, page := Passed(log, cursor), Limited(Selected(log, rows, cursor), limit);
    SelectedIsTail(log, rows, cursor);
    PassedSplits(log, cursor);
    assert page == log[n..n + |page|];
    forall i | 0 <= i < |page| ensures page[i].event.block in rows {
      assert Events(log)[n + i] in Events(log);
    }
    if page != [] {
      assert page[|page| - 1] == log[n + |page| - 1];
      PassedIs(log, page[|page| - 1].id, n + |page|);
    }
  }

  /** One call of the event source. */
  method Next(log: seq<Entry>, rows: map<BlockId, Row>, cursor: Option<int>, limit: nat)
    returns (res: seq<Item>, last: int)
    requires Increasing(log) && Stored(Events(log), rows)
    ensures var start := if cursor.Some? then cursor.value else -1;
      var n := Passed(log, start);
      && start <= last && Passed(log, last) == n + |res|
      && |res| == (if |log| - n <= limit then |log| - n else limit)
      && res == Items(log[n..n + |res|], rows)
  {
    var start := if cursor.Some? then cursor.value else -1;
    PageIsSlice(log, rows, start, limit);
    hide Increasing, Stored, Selected, Limited, Passed;
    var page := Limited(Selected(log, rows, start), limit);
    res, last := [], start;
    for i := 0 to |page|
      invariant |res| == i && forall k | 0 <= k < i :: res[k] == ItemOf(page[k].event, rows)
      invariant last == if i == 0 then start else page[i - 1].id
    {
      var e := page[i].event;
      res := res + [Item(rows[e.block].height, e.block, e.revert)];
      last := page[i].id;
    }
    assert res == Items(page, rows);
  }

  // ---------------------------------------------------------------- polling while the log grows

  datatype Session = Session(log: seq<Entry>, rows: map<BlockId, Row>, cursor: int, got: seq<Item>)

  /** `Grow`: the indexer commits; `Poll`: the follower asks for the next page. */
  datatype Action = Grow(more: seq<Entry>, rows: map<BlockId, Row>) | Poll(limit: nat)

  ghost predicate SameHeights(rows: map<BlockId, Row>, later: map<BlockId, Row>) {
    forall id | id in rows :: id in later && later[id].height == rows[id].height
  }

  ghost predicate Fine(s: Session, a: Action) {
    a.Grow? ==>
      && Increasing(s.log + a.more)
      && Stored(Events(s.log + a.more), a.rows)
      && SameHeights(s.rows, a.rows)
  }

  function Act(s: Session, a: Action): Session {
    match a
    case Grow(more, rows) => s.(log := s.log + more, rows := rows)
    case Poll(limit) =>
      var page := Limited(Selected(s.log, s.rows, s.cursor), limit);
      s.(got := s.got + Items(page, s.rows), cursor := if page == [] then s.cursor else page[|page| - 1].id)
  }

  function Acts(s: Session, actions: seq<Action>): Session {
    if actions == [] then s else Act(Acts(s, actions[..|actions| - 1]), actions[|actions| - 1])
  }

  ghost predicate AllFine(s: Session, actions: seq<Action>) {
    forall i | 0 <= i < |actions| :: Fine(Acts(s, actions[..i]), actions[i])
  }

  /** Everything after the first cursor up to the present one has been received, once, in
      order. */
  ghost predicate UpToDate(s: Session, first: int) {
    && Increasing(s.log) && Stored(Events(s.log), s.rows)
    && first <= s.cursor
    && (s.cursor == first || exists i :: 0 <= i < |s.log| && s.log[i].id == s.cursor)
    && Passed(s.log, first) <= Passed(s.log, s.cursor)
    && s.got == Items(s.log[Passed(s.log, first)..Passed(s.log, s.cursor)], s.rows)
  }

  lemma GrowKeeps(s: Session, first: int, a: Action)
    requires UpToDate(s, first) && a.Grow? && Fine(s, a)
    ensures UpToDate(Act(s, a), first)
  {
    hide Passed, Stored;
    var t := Act(s, a);
    if s.cursor == first {
      assert t.got == Items(t.log[Passed(t.log, first)..Passed(t.log, first)], t.rows);
    } else {
      var i :| 0 <= i < |s.log| && s.log[i].id == s.cursor;
      assert t.log[i] == s.log[i];
      assert Passed(s.log, s.cursor) == i + 1 == Passed(t.log, s.cursor) by {
        PassedIs(s.log, s.cursor, i + 1);
        PassedIs(t.log, s.cursor, i + 1);
      }
      SamePassed(s.log, t.log, first, i);
      hide Increasing;
      var n := Passed(s.log, first);
      SameSlice(s.log, a.more, n, i + 1);
      SameItems(s.log, n, i + 1, s.rows, t.rows);
    }
  }

  lemma SameSlice(log: seq<Entry>, more: seq<Entry>, lo: nat, hi: nat)
    requires lo <= hi <= |log|
    ensures (log + more)[lo..hi] == log[lo..hi]
  {
  }

  lemma SamePassed(log: seq<Entry>, later: seq<Entry>, cursor: int, i: nat)
    requires Increasing(log) && Increasing(later) && log <= later && i < |log| && cursor < log[i].id
    ensures Passed(log, cursor) == Passed(later, cursor) <= i
  {
    PassedSplits(log, cursor);
    var n := Passed(log, cursor);
    assert later[i] == log[i] && !(i < n);
    assert n > 0 ==> later[n - 1] == log[n - 1];
    assert later[n] == log[n];
    PassedIs(later, cursor, n);
  }

  lemma SameItems(log: seq<Entry>, lo: nat, hi: nat, rows: map<BlockId, Row>, later: map<BlockId, Row>)
    requires lo <= hi <= |log| && Stored(Events(log), rows) && SameHeights(rows, later)
    ensures Items(log[lo..hi], rows) == Items(log[lo..hi], later)
  {
    forall i | 0 <= i < hi - lo
      ensures ItemOf(log[lo..hi][i].event, rows) == ItemOf(log[lo..hi][i].event, later)
    {
      assert Events(log)[lo + i] in Events(log);
    }
  }

  lemma PollKeeps(s: Session, first: int, a: Action)
    requires UpToDate(s, first) && a.Poll?
    ensures UpToDate(Act(s, a), first)
    ensures a.limit > 0 && Passed(s.log, s.cursor) < |s.log| ==> Act(s, a).cursor > s.cursor
  {
    var t := Act(s, a);
    var page := Limited(Selected(s.log, s.rows, s.cursor), a.limit);
    PageIsSlice(s.log, s.rows, s.cursor, a.limit);
    hide Increasing, Stored, Selected, Limited, Passed;
    var k, n, m := Passed(s.log, first), Passed(s.log, s.cursor), Passed(s.log, t.cursor);
    assert m == n + |page|;
    JoinItems(s.log, k, n, m, s.rows);
    if page != [] {
      assert s.log[n..m][|page| - 1] == s.log[m - 1];
    }
  }

  lemma JoinItems(log: seq<Entry>, k: nat, n: nat, m: nat, rows: map<BlockId, Row>)
    requires k <= n <= m <= |log|
    ensures Items(log[k..n], rows) + Items(log[n..m], rows) == Items(log[k..m], rows)
  {
  }

  /** For any page sizes and any timing of commits between the polls: the pages put together
      are the slice of the log between the first cursor and the present one, and the cursor
      never goes back. */
  lemma {:induction false} PagesAreTheLog(s: Session, actions: seq<Action>)
    requires Increasing(s.log) && Stored(Events(s.log), s.rows) && s.got == [] && AllFine(s, actions)
    ensures UpToDate(Acts(s, actions), s.cursor)
    ensures actions != [] ==> Acts(s, actions[..|actions| - 1]).cursor <= Acts(s, actions).cursor
    ensures s.log <= Acts(s, actions).log
  {
    hide Increasing, Stored, Passed, Fine, Act;
    if actions == [] {
      assert Items(s.log[Passed(s.log, s.cursor)..Passed(s.log, s.cursor)], s.rows) == [];
    } else {
      var init, last := actions[..|actions| - 1], actions[|actions| - 1];
      assert forall i | 0 <= i < |init| :: init[..i] == actions[..i];
      PagesAreTheLog(s, init);
      var t := Acts(s, init);
      hide UpToDate;
      CursorMoves(t, s.cursor, last);
      if last.Grow? {
        GrowKeeps(t, s.cursor, last);
      } else {
        PollKeeps(t, s.cursor, last);
      }
    }
  }

  lemma CursorMoves(s: Session, first: int, a: Action)
    requires UpToDate(s, first)
    ensures s.cursor <= Act(s, a).cursor && s.log <= Act(s, a).log
  {
    if a.Poll? {
      PageIsSlice(s.log, s.rows, s.cursor, a.limit);
      hide Passed, Selected, Limited;
    }
  }

  // ---------------------------------------------------------------- following the chain

  function ToEvents(got: seq<Item>): (r: seq<Event>)
    ensures |r| == |got|
  {
    seq(|got|, i requires 0 <= i < |got| => Event(got[i].id, got[i].revert))
  }

  /** A follower who started without a cursor and applies the canceling protocol to the pages
      never meets an event that does not apply, always has a hash-linked chain, is told true
      heights, and has exactly the indexer's visible chain once it has seen the whole log. */
  lemma FollowerSeesTheChain(db: Db, s: Session)
    requires S.DbInv(db) && UpToDate(s, -1) && Events(s.log) == db.events && s.rows == db.rows
    ensures var chain := FollowAll([], ToEvents(s.got));
      && chain.Some? && IsChain(chain.value)
      && (Passed(s.log, s.cursor) == |s.log| ==> chain.value == S.Visible(db))
    ensures forall item | item in s.got :: Genuine(Block(item.height, item.id))
  {
    var n := Passed(s.log, s.cursor);
    PassedIs(s.log, -1, 0);
    hide Holds, TablesFaithful, IsChain, Passed, FollowAll, Increasing, Genuine;
    assert s.log[0..n] == s.log[..n];
    GotEvents(s.log, n, s.rows);
    EveryPrefixFollows(db.events, n);
    assert n == |s.log| ==> db.events[..n] == db.events;
    forall i | 0 <= i < n ensures Genuine(Block(s.got[i].height, s.got[i].id)) {
      assert Events(s.log)[i] in Events(s.log);
      assert s.got[i] == ItemOf(s.log[i].event, s.rows);
    }
  }

  lemma GotEvents(log: seq<Entry>, n: nat, rows: map<BlockId, Row>)
    requires n <= |log|
    ensures ToEvents(Items(log[..n], rows)) == Events(log)[..n]
  {
  }

  // ---------------------------------------------------------------- what the store commits

  /** What a follower may rely on between two committed states. */
  ghost predicate Grown(db: Db, later: Db) {
    && db.events <= later.events
    && SameHeights(db.rows, later.rows)
    && (Stored(db.events, db.rows) ==> Stored(later.events, later.rows))
  }

  lemma GrownTwice(a: Db, b: Db, c: Db)
    requires Grown(a, b) && Grown(b, c)
    ensures Grown(a, c)
  {
    hide Stored;
  }

  lemma GrownBy(db: Db, rows: map<BlockId, Row>, events: seq<Event>, tables: Tables)
    requires SameHeights(db.rows, rows) && forall e | e in events :: e.block in rows
    ensures Grown(db, Db(rows, db.events + events, tables))
  {
  }

  lemma {:induction false} AppendGrows(db: Db, bs: seq<Block>)
    ensures Grown(db, AppendBlocks(db, bs))
  {
    if bs != [] {
      var init, b := bs[..|bs| - 1], bs[|bs| - 1];
      AppendGrows(db, init);
      var mid := AppendBlocks(db, init);
      var end := AppendBlock(mid, b);
      GrownBy(mid, end.rows, [Event(b.id, false)], end.tables);
      GrownTwice(db, mid, end);
    }
  }

  lemma {:induction false} CommitsGrow(db: Db, flight: seq<seq<Block>>)
    ensures Grown(db, S.CommitAll(db, flight))
    decreases |flight|
  {
    hide Grown;
    if flight == [] {
      AppendGrows(db, []);
    } else {
      AppendGrows(db, flight[0]);
      CommitsGrow(AppendBlocks(db, flight[0]), flight[1..]);
      GrownTwice(db, AppendBlocks(db, flight[0]), S.CommitAll(db, flight));
    }
  }

  lemma {:induction false} RevertsStored(rows: map<BlockId, Row>, h: nat, n: nat)
    ensures forall e | e in Reverts(rows, h, n) :: e.block in rows
    decreases n
  {
    if n > h {
      RevertsStored(rows, h, n - 1);
      assert HashByHeight(rows, n - 1).Some? ==> LiveAt(rows, n - 1, HashByHeight(rows, n - 1).value);
    }
  }

  lemma {:induction false} SettleGrows(db: Db, unseen: seq<Block>, pending: map<nat, Block>, keys: seq<nat>, prev: Option<nat>)
    requires forall k | k in keys :: k in pending
    ensures var r := S.Settle(db, unseen, pending, keys, prev);
      r.Ok? ==> Grown(db, r.value.0)
    decreases |keys|
  {
    hide Grown;
    if keys == [] {
      AppendGrows(db, []);
    } else {
      var b := pending[keys[0]];
      SettleGrows(db, unseen + [b], pending, keys[1..], Some(b.height));
      if b.id in db.rows {
        var revived := Revive(db, b.id);
        GrownBy(db, revived.rows, [Event(b.id, false)], db.tables);
        SettleGrows(revived, unseen, pending, keys[1..], Some(b.height));
        var r := S.Settle(revived, unseen, pending, keys[1..], Some(b.height));
        if r.Ok? {
          GrownTwice(db, revived, r.value.0);
        }
      }
    }
  }

  lemma FinishGrows(s: S.Store)
    ensures S.FinishReorg(s).Ok? ==> Grown(s.db, S.FinishReorg(s).value.db)
  {
    hide Grown, Reverts, S.CountOf, MarkExtinct, S.FirstDifferent, S.Settle, S.KeysOf, S.From;
    var found := S.FirstDifferent(s.db.rows, s.pending, S.KeysOf(s.pending));
    var first := if found.Some? then found.value else s.count;
    var reverts := Reverts(s.db.rows, first, S.CountOf(s.db.rows));
    var marked := MarkExtinct(s.db.rows, first);
    var db := s.db.(events := s.db.events + reverts, rows := marked);
    var branch := S.From(s.pending, first);
    MarkKeepsHeights(s.db.rows, first);
    RevertsStored(s.db.rows, first, S.CountOf(s.db.rows));
    GrownBy(s.db, marked, reverts, s.db.tables);
    SettleGrows(db, [], branch, S.KeysOf(branch), None);
    var r := S.Settle(db, [], branch, S.KeysOf(branch), None);
    if r.Ok? {
      var batch := s.batch + r.value.1;
      AppendGrows(r.value.0, batch);
      GrownTwice(s.db, db, r.value.0);
      GrownTwice(s.db, r.value.0, AppendBlocks(r.value.0, batch));
    }
  }

  lemma MarkKeepsHeights(rows: map<BlockId, Row>, h: nat)
    ensures MarkExtinct(rows, h).Keys == rows.Keys && SameHeights(rows, MarkExtinct(rows, h))
  {
  }

  lemma InsertGrows(s: S.Store, b: Block)
    ensures S.InsertBlock(s, b).Ok? ==> Grown(s.db, S.InsertBlock(s, b).value.db)
  {
    hide Grown, S.FinishReorg, S.CommitAll, HashByHeight;
    AppendGrows(s.db, []);
    if S.InReorg(s) {
      FinishGrows(s.(pending := S.Below(s.pending, b.height)[b.height := b]));
    } else if b.height < s.count {
      CommitsGrow(s.db, S.FlushBatch(s).flight);
    } else {
      CommitsGrow(s.db, S.FlushBatch(s.(batch := s.batch + [b])).flight);
      CommitsGrow(s.db, s.flight);
    }
  }

  /** Whatever the store receives and whenever its pipeline commits: events are only ever
      appended, every event names a stored block, and a stored block keeps its height. */
  lemma {:induction false} RunGrows(s: S.Store, inputs: seq<SR.Input>)
    requires Stored(s.db.events, s.db.rows)
    ensures SR.Run(s, inputs).Ok? ==>
      var later := SR.Run(s, inputs).value.db;
      s.db.events <= later.events && SameHeights(s.db.rows, later.rows) && Stored(later.events, later.rows)
  {
    hide Stored, SameHeights;
    RunGrown(s, inputs);
  }

  lemma {:induction false} RunGrown(s: S.Store, inputs: seq<SR.Input>)
    ensures SR.Run(s, inputs).Ok? ==> Grown(s.db, SR.Run(s, inputs).value.db)
  {
    hide Grown, S.InsertBlock, S.CommitOne;
    AppendGrows(s.db, []);
    if inputs != [] {
      var init, last := inputs[..|inputs| - 1], inputs[|inputs| - 1];
      RunGrown(s, init);
      if SR.Run(s, init).Ok? {
        var t := SR.Run(s, init).value;
        match last {
          case Receive(b) => InsertGrows(t, b);
          case Commit => CommitOneGrows(t);
        }
        if SR.Next(t, last).Ok? {
          GrownTwice(s.db, t.db, SR.Next(t, last).value.db);
        }
      }
    }
  }

  lemma CommitOneGrows(s: S.Store)
    ensures Grown(s.db, S.CommitOne(s).db)
  {
    hide Grown;
    AppendGrows(s.db, []);
    if s.flight != [] {
      AppendGrows(s.db, s.flight[0]);
    }
  }
}
