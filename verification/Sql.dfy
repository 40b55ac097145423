/** Formatting many rows into multi-row INSERT statements, and reading them back. */
module Sql {
  /** A statement is closed when more than this many rows are in it. */
  const SIZE: nat := 30_000

  /** The pieces of text that get written. */
  datatype Token<R> = Opening | Comma | Value(row: R) | OnConflict | Semicolon

  /** Reading a text from the left: what is complete, and what the current statement has. */
  datatype Reading<R> =
    | Between(complete: seq<seq<R>>)
    | WantsValue(complete: seq<seq<R>>, rows: seq<R>)
    | HasValue(complete: seq<seq<R>>, rows: seq<R>)
    | WantsSemicolon(complete: seq<seq<R>>, rows: seq<R>)
    | Malformed

  function ReadToken<R>(s: Reading<R>, t: Token<R>): Reading<R> {
    match (s, t)
    case (Between(done), Opening) => WantsValue(done, [])
    case (WantsValue(done, rows), Value(r)) => HasValue(done, rows + [r])
    case (HasValue(done, rows), Comma) => WantsValue(done, rows)
    case (HasValue(done, rows), OnConflict) => WantsSemicolon(done, rows)
    case (WantsSemicolon(done, rows), Semicolon) => Between(done + [rows])
    case _ => Malformed
  }

  function Read<R>(text: seq<Token<R>>): Reading<R> {
    if text == [] then Between([]) else ReadToken(Read(text[..|text| - 1]), text[|text| - 1])
  }

  lemma ReadMore<R>(text: seq<Token<R>>, t: Token<R>)
    ensures Read(text + [t]) == ReadToken(Read(text), t)
  {
    assert (text + [t])[..|text + [t]| - 1] == text;
  }

  /** `rows` in statements of `n`, the last one possibly smaller. */
  function Chunks<R>(rows: seq<R>, n: nat): seq<seq<R>>
    requires n > 0
    decreases |rows|
  {
    if rows == [] then []
    else if |rows| <= n then [rows]
    else [rows[..n]] + Chunks(rows[n..], n)
  }

  function Flatten<R>(statements: seq<seq<R>>): seq<R> {
    if statements == [] then [] else statements[0] + Flatten(statements[1..])
  }

  lemma ChunksStep<R>(first: seq<R>, rest: seq<seq<R>>)
    ensures ([first] + rest)[1..] == rest && Flatten([first] + rest) == first + Flatten(rest)
  {
    assert ([first] + rest)[1..] == rest;
  }

  lemma {:induction false} ChunksMeaning<R>(rows: seq<R>, n: nat)
    requires n > 0
    ensures Flatten(Chunks(rows, n)) == rows
    ensures forall i | 0 <= i < |Chunks(rows, n)| :: 0 < |Chunks(rows, n)[i]| <= n
    ensures forall i | 0 <= i < |Chunks(rows, n)| - 1 :: |Chunks(rows, n)[i]| == n
    decreases |rows|
  {
    if rows != [] {
      if |rows| <= n {
        assert Flatten([rows]) == rows + Flatten([rows][1..]);
      } else {
        ChunksMeaning(rows[n..], n);
        ChunksStep(rows[..n], Chunks(rows[n..], n));
        assert rows == rows[..n] + rows[n..];
      }
    }
  }

  /** `rows` fill statements of `n` without a rest. */
  predicate Whole<R>(rows: seq<R>, n: nat)
    requires n > 0
    decreases |rows|
  {
    rows == [] || (|rows| >= n && Whole(rows[n..], n))
  }

  /** Closing a statement and opening the next. */
  lemma {:induction false} ChunksNext<R>(full: seq<R>, current: seq<R>, n: nat)
    requires n > 0 && Whole(full, n) && 0 < |current| <= n
    ensures Chunks(full + current, n) == Chunks(full, n) + [current]
    ensures |current| == n ==> Whole(full + current, n)
    decreases |full|
  {
    if full == [] {
      assert full + current == current;
      assert |current| == n ==> current[n..] == [];
    } else {
      SplitFront(full, current, n);
      ChunksNext(full[n..], current, n);
      if |full| == n {
        assert full[..n] == full;
      }
    }
  }

  lemma SplitFront<R>(full: seq<R>, current: seq<R>, n: nat)
    requires |full| >= n
    ensures (full + current)[..n] == full[..n] && (full + current)[n..] == full[n..] + current
  {
  }

  class MultiValueSqlFormatter<R> {
    var out: seq<Token<R>>
    var queryValuesCount: nat

    /** statements that were in `out` before, and rows formatted since */
    ghost const before: seq<seq<R>>
    ghost var full: seq<R>
    ghost var current: seq<R>

    ghost predicate Valid()
      reads this
    {
      && queryValuesCount == |current| <= SIZE + 1
      && Whole(full, SIZE + 1)
      && Read(out) == if current == [] then Between(before + Chunks(full, SIZE + 1))
                      else HasValue(before + Chunks(full, SIZE + 1), current)
    }

    ghost function Rows(): seq<R>
      reads this
    {
      full + current
    }

    constructor (out: seq<Token<R>>)
      requires Read(out).Between?
      ensures Valid() && Rows() == [] && before == Read(out).complete
    {
      this.out, queryValuesCount := out, 0;
      before, full, current := Read(out).complete, [], [];
      new;
      assert before + [] == before;
    }

    method FmtWith(row: R)
      requires Valid()
      modifies this
      ensures Valid() && Rows() == old(Rows()) + [row]
    {
      MaybeTerminateQuery();
      ghost var text := out;
      if queryValuesCount == 0 {
        out := out + [Opening];
        ReadMore(text, Opening);
      } else {
        out := out + [Comma];
        ReadMore(text, Comma);
      }
      ReadMore(out, Value(row));
      out := out + [Value(row)];
      queryValuesCount := queryValuesCount + 1;
      assert full + (current + [row]) == full + current + [row];
      current := current + [row];
    }

    method MaybeTerminateQuery()
      requires Valid()
      modifies this
      ensures Valid() && Rows() == old(Rows()) && queryValuesCount <= SIZE
    {
      if queryValuesCount > SIZE {
        TerminateQuery();
      }
    }

    /** Closes a statement that is full, or the last one. */
    method TerminateQuery()
      requires Valid() && queryValuesCount > 0
      modifies this
      ensures queryValuesCount == 0 && current == [] && full == old(Rows())
      ensures Read(out) == Between(before + Chunks(full, SIZE + 1))
      ensures old(queryValuesCount) > SIZE ==> Valid()
    {
      ChunksNext(full, current, SIZE + 1);
      ReadMore(out, OnConflict);
      ReadMore(out + [OnConflict], Semicolon);
      assert before + Chunks(full, SIZE + 1) + [current] == before + (Chunks(full, SIZE + 1) + [current]);
      queryValuesCount := 0;
      out := out + [OnConflict] + [Semicolon];
      full, current := full + current, [];
    }

    /** What happens when the formatter goes out of scope. */
    method Drop()
      requires Valid()
      modifies this
      ensures Read(out) == Between(before + Chunks(old(Rows()), SIZE + 1))
    {
      assert current == [] ==> full + current == full;
      if queryValuesCount > 0 {
        TerminateQuery();
      }
    }
  }

  /** Formatting any rows gives well-formed statements, none empty, none with more than
      SIZE + 1 rows, that together hold exactly the rows, in order. */
  method FormatRows<R>(rows: seq<R>) returns (text: seq<Token<R>>)
    ensures Read(text) == Between(Chunks(rows, SIZE + 1))
    ensures Flatten(Read(text).complete) == rows
    ensures forall i | 0 <= i < |Read(text).complete| :: 0 < |Read(text).complete[i]| <= 30_001
    ensures forall i | 0 <= i < |Read(text).complete| - 1 :: |Read(text).complete[i]| == 30_001
  {
    var f := new MultiValueSqlFormatter([]);
    for i := 0 to |rows|
      invariant f.Valid() && fresh(f) && f.Rows() == rows[..i] && f.before == []
    {
      f.FmtWith(rows[i]);
    }
    assert rows[..|rows|] == rows;
    f.Drop();
    text := f.out;
    ChunksMeaning(rows, SIZE + 1);
  }

  /** The comment's "up to SIZE values at a time" is met exactly when there are no more than
      SIZE rows in all. */
  lemma CommentHoldsWhen<R>(rows: seq<R>)
    ensures (forall statement | statement in Chunks(rows, SIZE + 1) :: |statement| <= 30_000) <==> |rows| <= 30_000
  {
    ChunksMeaning(rows, SIZE + 1);
    if |rows| > SIZE {
      assert |Chunks(rows, SIZE + 1)[0]| == SIZE + 1;
    }
  }
}
