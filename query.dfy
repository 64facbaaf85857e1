/** Queryset chaining as the admin list views use it: a list of rows narrowed
    by one filter after another (`query = query.filter(...)`), counted, and
    then cut to the number of rows shown on screen. A filter is a value of a
    caller-chosen type `F`; `holds` says whether a row passes it. */
module Query {

  /** The row passes every filter of the chain. */
  predicate AllHold<F, T>(fs: seq<F>, holds: (F, T) -> bool, x: T) {
    forall i :: 0 <= i < |fs| ==> holds(fs[i], x)
  }

  /** One `.filter(f)` step: the rows passing `f`, in their order. */
  function Where<F, T(!new)>(rows: seq<T>, f: F, holds: (F, T) -> bool): (r: seq<T>)
    ensures |r| <= |rows|
    ensures forall x :: x in r <==> x in rows && holds(f, x)
  {
    if rows == [] then []
    else (if holds(f, rows[0]) then [rows[0]] else []) + Where(rows[1..], f, holds)
  }

  /** The rows passing the whole chain, selected in a single pass. */
  function Select<F, T(!new)>(rows: seq<T>, fs: seq<F>, holds: (F, T) -> bool): (r: seq<T>)
    ensures |r| <= |rows|
    ensures forall x :: x in r <==> x in rows && AllHold(fs, holds, x)
  {
    if rows == [] then []
    else (if AllHold(fs, holds, rows[0]) then [rows[0]] else []) + Select(rows[1..], fs, holds)
  }

  /** Filtering distributes over concatenation. */
  lemma {:induction false} WhereAppend<F, T(!new)>(a: seq<T>, b: seq<T>, f: F, holds: (F, T) -> bool)
    ensures Where(a + b, f, holds) == Where(a, f, holds) + Where(b, f, holds)
  {
    if a != [] {
      WhereAppend(a[1..], b, f, holds);
      assert (a + b)[1..] == a[1..] + b;
    } else {
      assert a + b == b;
    }
  }

  /** Adding one more filter to a chain narrows its result exactly as if the
      longer chain had been evaluated in one pass: order and duplicates of the
      rows are kept. */
  lemma {:induction false} WhereAfterSelect<F, T(!new)>(rows: seq<T>, fs: seq<F>, f: F, holds: (F, T) -> bool)
    ensures Where(Select(rows, fs, holds), f, holds) == Select(rows, fs + [f], holds)
  {
    if rows != [] {
      WhereAfterSelect(rows[1..], fs, f, holds);
      var x := rows[0];
      var head := if AllHold(fs, holds, x) then [x] else [];
      WhereAppend(head, Select(rows[1..], fs, holds), f, holds);
      assert AllHold(fs + [f], holds, x) <==> AllHold(fs, holds, x) && holds(f, x) by {
        if AllHold(fs, holds, x) && holds(f, x) {
          forall i | 0 <= i < |fs + [f]| ensures holds((fs + [f])[i], x) {
            if i < |fs| { assert (fs + [f])[i] == fs[i]; }
          }
        }
        if AllHold(fs + [f], holds, x) {
          forall i | 0 <= i < |fs| ensures holds(fs[i], x) {
            assert (fs + [f])[i] == fs[i];
          }
          assert (fs + [f])[|fs|] == f;
        }
      }
    }
  }

  /** A chain made of two parts admits a row when both parts do. */
  lemma AllHoldAppend<F, T>(fs: seq<F>, gs: seq<F>, holds: (F, T) -> bool, x: T)
    ensures AllHold(fs + gs, holds, x) <==> AllHold(fs, holds, x) && AllHold(gs, holds, x)
  {
    if AllHold(fs, holds, x) && AllHold(gs, holds, x) {
      forall i | 0 <= i < |fs + gs| ensures holds((fs + gs)[i], x) {
        if i >= |fs| { assert (fs + gs)[i] == gs[i - |fs|]; }
      }
    }
    if AllHold(fs + gs, holds, x) {
      forall i | 0 <= i < |fs| ensures holds(fs[i], x) {
        assert (fs + gs)[i] == fs[i];
      }
      forall i | 0 <= i < |gs| ensures holds(gs[i], x) {
        assert (fs + gs)[|fs| + i] == gs[i];
      }
    }
  }

  /** Two chains that admit the same rows select the same rows. */
  lemma {:induction false} SelectSameRows<F, G, T(!new)>(rows: seq<T>, fs: seq<F>, holds: (F, T) -> bool, gs: seq<G>, holds': (G, T) -> bool)
    requires forall x :: AllHold(fs, holds, x) <==> AllHold(gs, holds', x)
    ensures Select(rows, fs, holds) == Select(rows, gs, holds')
  {
    if rows != [] {
      SelectSameRows(rows[1..], fs, holds, gs, holds');
    }
  }

  /** An empty chain keeps every row. */
  lemma {:induction false} SelectNothing<F, T(!new)>(rows: seq<T>, holds: (F, T) -> bool)
    ensures Select(rows, [], holds) == rows
  {
    if rows != [] {
      SelectNothing(rows[1..], holds);
      assert rows == [rows[0]] + rows[1..];
    }
  }

  /** One `query = query.filter(f)` step on rows already narrowed by `fs`. */
  method Narrow<F, T(!new)>(ghost rows: seq<T>, ghost fs: seq<F>, query: seq<T>, f: F, holds: (F, T) -> bool)
    returns (query': seq<T>)
    requires query == Select(rows, fs, holds)
    ensures query' == Select(rows, fs + [f], holds)
  {
    query' := Where(query, f, holds);
    WhereAfterSelect(rows, fs, f, holds);
  }

  /** A loop adding the filters `gs` one after another, as the list views do
      with one filter per search word. */
  method NarrowAll<F, T(!new)>(ghost rows: seq<T>, ghost fs: seq<F>, query: seq<T>, gs: seq<F>, holds: (F, T) -> bool)
    returns (query': seq<T>)
    requires query == Select(rows, fs, holds)
    ensures query' == Select(rows, fs + gs, holds)
  {
    ghost var chain := fs;
    query' := query;
    var i := 0;
    while i < |gs|
      invariant 0 <= i <= |gs|
      invariant chain == fs + gs[..i]
      invariant query' == Select(rows, chain, holds)
    {
      query' := Narrow(rows, chain, query', gs[i], holds);
      assert gs[..i + 1] == gs[..i] + [gs[i]];
      chain := chain + [gs[i]];
      i := i + 1;
    }
    assert gs[..|gs|] == gs;
  }

  /** Rows shown when no `show_more` / `show_all` flag is set. */
  const DefaultShown := 200
  /** Rows shown with `show_more`. */
  const MoreShown := 1000

  /** Python slicing `rows[:n]`: never fails on a short list. */
  function Take<T>(rows: seq<T>, n: nat): (r: seq<T>)
    ensures |r| == if |rows| <= n then |rows| else n
    ensures r == rows[..|r|]
  {
    if |rows| <= n then rows else rows[..n]
  }

  /** The rows put on screen: the first 1000 with `show_more`, otherwise all
      of them with `show_all`, otherwise the first 200. */
  function Displayed<T>(rows: seq<T>, showMore: bool, showAll: bool): (r: seq<T>)
    ensures |r| <= |rows| && r == rows[..|r|]
    ensures showMore ==> |r| == if |rows| <= MoreShown then |rows| else MoreShown
    ensures !showMore && showAll ==> r == rows
    ensures !showMore && !showAll ==> |r| == if |rows| <= DefaultShown then |rows| else DefaultShown
  {
    if showMore then Take(rows, MoreShown)
    else if showAll then rows
    else Take(rows, DefaultShown)
  }

  /** `show_more` takes precedence over `show_all`. */
  lemma ShowMoreWins<T>(rows: seq<T>)
    ensures Displayed(rows, true, true) == Displayed(rows, true, false)
    ensures |Displayed(rows, true, true)| <= MoreShown
  {
  }
}
