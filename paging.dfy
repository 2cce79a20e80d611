/** The paged read loop: the data source caps every query at 1000 rows, so a
    transformer reads range after range and appends them until a page comes back
    empty or short. The table is the full ordered result a single unpaged read
    would return; `failing` holds the row offsets at which a range read fails. */
module Paging {
  import opened Common

  const PageSize: nat := 1000

  /** What the range read `[from, from + PageSize - 1]` returns. */
  function Page<T>(table: seq<T>, from: nat): seq<T>
  {
    if from >= |table| then []
    else if from + PageSize <= |table| then table[from..from + PageSize]
    else table[from..]
  }

  /** The loop reads every page offset up to and including the one of the first
      short (possibly empty) page. */
  predicate Visited(n: nat, offset: nat)
  {
    offset % PageSize == 0 && offset <= n
  }

  /** `offset` is the first offset the loop reads whose read fails. */
  predicate FirstFailing(n: nat, failing: set<nat>, offset: nat)
  {
    offset in failing && Visited(n, offset) &&
    forall o | o in failing && Visited(n, o) :: offset <= o
  }

  /** The offset of the first failing read at or after `from`, if any. */
  function FirstFailure(n: nat, failing: set<nat>, from: nat): (r: Option<nat>)
    requires from % PageSize == 0
    ensures r.Some? ==> r.value >= from && FirstFailingFrom(n, failing, from, r.value)
    ensures r.None? ==> forall o | o in failing && Visited(n, o) :: o < from
    decreases n + PageSize - from
  {
    if from > n then None
    else if from in failing then Some(from)
    else FirstFailure(n, failing, from + PageSize)
  }

  predicate FirstFailingFrom(n: nat, failing: set<nat>, from: nat, offset: nat)
  {
    offset in failing && Visited(n, offset) &&
    forall o | o in failing && Visited(n, o) && from <= o :: offset <= o
  }

  /** A page offset below the next page offset is at most the current one. */
  lemma MultipleBelowNext(o: nat, from: nat)
    requires o % PageSize == 0 && from % PageSize == 0 && o < from + PageSize
    ensures o <= from
  {
    var a, b := o / PageSize, from / PageSize;
    assert o == PageSize * a && from == PageSize * b;
  }

  /** The outcome of a paged read that throws on the first failing read. */
  function Fetched<T>(table: seq<T>, failing: set<nat>): (r: Result<seq<T>>)
    ensures r.Success? <==> forall o | o in failing :: !Visited(|table|, o)
    ensures r.Success? ==> r.value == table
    ensures r.Failure? ==> r.error.DataSourceError? && FirstFailing(|table|, failing, r.error.offset)
  {
    match FirstFailure(|table|, failing, 0)
    case None => Success(table)
    case Some(o) => Failure(DataSourceError(o))
  }

  /** The loop at src/utils/exportTransformers.ts:55-84 (and 369-395, 447-473, 835-849):
      read pages at offsets 0, 1000, 2000, ... and append them; stop after the first
      empty or short page; rethrow the first read error. */
  method FetchAll<T>(table: seq<T>, failing: set<nat>) returns (r: Result<seq<T>>)
    ensures r == Fetched(table, failing)
  {
    var all: seq<T> := [];
    var from: nat := 0;
    var hasMore := true;
    while hasMore
      invariant from % PageSize == 0 && from <= |table|
      invariant hasMore ==> all == table[..from]
      invariant !hasMore ==> all == table && |table| < from + PageSize
      invariant forall o | o in failing && Visited(|table|, o) :: if hasMore then o >= from else o > from
      decreases if hasMore then |table| - from + 1 else 0
    {
      if from in failing {
        return Failure(DataSourceError(from));
      }
      var data := Page(table, from);
      if |data| > 0 {
        all := all + data;
        if |data| == PageSize {
          assert all == table[..from + PageSize];
          from := from + PageSize;
          hasMore := true;
        } else {
          assert all == table;
          hasMore := false;
        }
      } else {
        hasMore := false;
      }
    }
    forall o | o in failing && Visited(|table|, o)
      ensures false
    {
      MultipleBelowNext(o, from);
    }
    return Success(all);
  }

  /** The outcome of a paged read that does not look at read errors: a failing read
      returns no data, which ends the loop with the rows read so far. */
  function FetchedUntilError<T>(table: seq<T>, failing: set<nat>): (rows: seq<T>)
    ensures (forall o | o in failing :: !Visited(|table|, o)) ==> rows == table
    ensures forall o: nat | FirstFailing(|table|, failing, o) :: rows == table[..o]
  {
    match FirstFailure(|table|, failing, 0)
    case None => table
    case Some(o) => table[..o]
  }

  /** The loops at src/utils/exportTransformers.ts:629-642 and 654-667, which never
      inspect the read error: a failed read yields no data and stops the loop. */
  method FetchUntilError<T>(table: seq<T>, failing: set<nat>) returns (all: seq<T>)
    ensures all == FetchedUntilError(table, failing)
  {
    all := [];
    var from: nat := 0;
    var hasMore := true;
    while hasMore
      invariant from % PageSize == 0 && from <= |table|
      invariant hasMore ==> all == table[..from]
      invariant !hasMore ==> all == FetchedUntilError(table, failing)
      invariant hasMore ==> forall o | o in failing && Visited(|table|, o) :: o >= from
      decreases if hasMore then |table| - from + 1 else 0
    {
      var data := if from in failing then [] else Page(table, from);
      if |data| > 0 {
        all := all + data;
        if |data| == PageSize {
          assert all == table[..from + PageSize];
          from := from + PageSize;
        } else {
          assert all == table;
          hasMore := false;
        }
      } else {
        hasMore := false;
      }
    }
  }
}
