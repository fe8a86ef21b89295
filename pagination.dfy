/**
 * `ResumptionListGenerator`: the lazy sequence that joins the pages of a
 * ListRecords, ListIdentifiers or ListSets answer (flow control by
 * resumption token, section 3.5 of the OAI-PMH 2.0 protocol).
 *
 * The source's `firstBatch` and `nextBatch(token)` closures become the
 * sequence `pages`: `pages[0]` is what `firstBatch()` returns and
 * `pages[k]` what the k-th call of `nextBatch` returns, or the exception
 * it raises. The harvest must end somewhere in `pages` (a page whose
 * token is `None`, or a fetch that raises).
 */
module Pagination {
  import opened Wrappers

  /** The pair `(items, token)` returned by `firstBatch` and `nextBatch`. */
  datatype Batch<T> = Batch(items: seq<T>, token: Option<string>)

  /** What one `next()` on the generator gives: an item, `StopIteration`,
      or the exception raised by a fetch. */
  datatype Step<T, E> = Yield(item: T) | Stop | Raise(error: E)

  /** A fetch after which the generator asks for no more pages. */
  predicate Ends<T, E>(p: Result<Batch<T>, E>) {
    p.Err? || p.value.token.None?
  }

  predicate HasEnd<T, E>(pages: seq<Result<Batch<T>, E>>) {
    exists k :: 0 <= k < |pages| && Ends(pages[k])
  }

  /** Index of the first page that ends the list. */
  function FirstEnd<T, E>(pages: seq<Result<Batch<T>, E>>): (k: nat)
    requires HasEnd(pages)
    ensures k < |pages| && Ends(pages[k])
    ensures forall j :: 0 <= j < k ==> !Ends(pages[j])
  {
    FirstEndFrom(pages, 0)
  }

  function FirstEndFrom<T, E>(pages: seq<Result<Batch<T>, E>>, i: nat): (k: nat)
    requires exists k :: i <= k < |pages| && Ends(pages[k])
    ensures i <= k < |pages| && Ends(pages[k])
    ensures forall j :: i <= j < k ==> !Ends(pages[j])
    decreases |pages| - i
  {
    if Ends(pages[i]) then i
    else
      var w :| i <= w < |pages| && Ends(pages[w]);
      assert i + 1 <= w;
      FirstEndFrom(pages, i + 1)
  }

  function ItemsIn<T, E>(p: Result<Batch<T>, E>): seq<T> {
    if p.Ok? then p.value.items else []
  }

  /** The items of the first `n` pages, one page after another. */
  function ItemsOf<T, E>(pages: seq<Result<Batch<T>, E>>, n: nat): seq<T>
    requires n <= |pages|
  {
    if n == 0 then [] else ItemsOf(pages, n - 1) + ItemsIn(pages[n - 1])
  }

  /** Fetching more pages only extends what has been collected. */
  lemma {:induction false} ItemsOfGrows<T, E>(pages: seq<Result<Batch<T>, E>>, m: nat, n: nat)
    requires m <= n <= |pages|
    ensures ItemsOf(pages, m) <= ItemsOf(pages, n)
  {
    if m < n {
      ItemsOfGrows(pages, m, n - 1);
    }
  }

  /** Everything the generator yields: the items of every page up to and
      including the first one that ends the list. */
  function Harvest<T, E>(pages: seq<Result<Batch<T>, E>>): seq<T>
    requires HasEnd(pages)
  {
    ItemsOf(pages, FirstEnd(pages) + 1)
  }

  /** How iteration finishes: `StopIteration`, or the exception of the failing fetch. */
  function Ending<T, E>(pages: seq<Result<Batch<T>, E>>): Step<T, E>
    requires HasEnd(pages)
  {
    var p := pages[FirstEnd(pages)];
    if p.Err? then Raise(p.error) else Stop
  }

  /** The suspended generator: the page being drained, the position in it,
      the last token, and how many pages have been fetched. */
  class ResumptionList<T, E> {
    const pages: seq<Result<Batch<T>, E>>
    var fetches: nat
    var batch: seq<T>
    var index: nat
    var token: Option<string>
    var finished: bool
    /** The argument of each fetch: `None` for `firstBatch()`, the token for `nextBatch(token)`. */
    ghost var requests: seq<Option<string>>
    /** The items handed out so far. */
    ghost var yielded: seq<T>

    ghost predicate Valid()
      reads this
    {
      HasEnd(pages) && fetches <= |pages| && |requests| == fetches && index <= |batch|
      && (forall k :: 0 <= k < fetches - 1 ==> !Ends(pages[k]))
      && (fetches > 0 ==> requests[0] == None)
      && (forall k :: 0 < k < fetches ==> pages[k - 1].Ok? && requests[k] == pages[k - 1].value.token)
      && (fetches == 0 ==> batch == [] && index == 0 && !finished && yielded == [])
      && (fetches > 0 && pages[fetches - 1].Ok? ==>
            batch == pages[fetches - 1].value.items && token == pages[fetches - 1].value.token
            && yielded == ItemsOf(pages, fetches - 1) + batch[..index])
      && (fetches > 0 && pages[fetches - 1].Err? ==>
            finished && batch == [] && index == 0 && yielded == ItemsOf(pages, fetches - 1))
      && (finished ==> fetches > 0 && Ends(pages[fetches - 1]) && index == |batch|)
    }

    /** Creating the generator runs none of its body: nothing is fetched yet. */
    constructor (pages: seq<Result<Batch<T>, E>>)
      requires HasEnd(pages)
      ensures Valid() && this.pages == pages
      ensures fetches == 0 && yielded == [] && !finished
    {
      this.pages := pages;
      fetches, batch, index, token, finished := 0, [], 0, None, false;
      requests, yielded := [], [];
    }

    /** One fetch: `firstBatch()` when `arg` is `None`, else `nextBatch(arg)`. */
    method Fetch(arg: Option<string>) returns (failure: Option<E>)
      requires Valid() && !finished
      requires fetches == 0 ==> arg.None?
      requires fetches > 0 ==> index == |batch| && token.Some? && arg == token
      modifies this
      ensures Valid() && fetches == old(fetches) + 1 && yielded == old(yielded)
      ensures requests == old(requests) + [arg]
      ensures failure.Some? <==> pages[old(fetches)].Err?
      ensures failure.Some? ==> failure.value == pages[old(fetches)].error && finished
      ensures failure.None? ==> !finished && index == 0
    {
      var page := pages[fetches];
      requests := requests + [arg];
      fetches := fetches + 1;
      if page.Err? {
        batch, index, token, finished := [], 0, None, true;
        failure := Some(page.error);
      } else {
        batch, index, token := page.value.items, 0, page.value.token;
        failure := None;
      }
    }

    /** The generator's `while` loop up to its next `yield`: fetch pages
        while the current one is drained and its token is not `None`. */
    method Refill() returns (failure: Option<E>)
      requires Valid() && !finished
      modifies this
      ensures Valid() && fetches > 0 && yielded == old(yielded)
      ensures failure.None? ==> !finished && (index < |batch| || token.None?)
      ensures failure.Some? ==> finished && pages[fetches - 1] == Err(failure.value)
      ensures old(fetches) < fetches ==> old(index) == |old(batch)|
    {
      failure := None;
      if fetches == 0 {
        failure := Fetch(None);
      }
      while failure.None? && index == |batch| && token.Some?
        invariant Valid() && fetches > 0 && yielded == old(yielded)
        invariant failure.None? ==> !finished
        invariant failure.Some? ==> finished && pages[fetches - 1] == Err(failure.value)
        invariant old(fetches) < fetches ==> old(index) == |old(batch)|
        decreases |pages| - fetches
      {
        failure := Fetch(token);
      }
    }

    /** `yield item`: hand out the next item of the current page. */
    method Emit() returns (x: T)
      requires Valid() && !finished && index < |batch|
      modifies this`index, this`yielded
      ensures Valid() && x == batch[old(index)]
      ensures index == old(index) + 1 && yielded == old(yielded) + [x]
    {
      assert batch[..index + 1] == batch[..index] + [batch[index]];
      x := batch[index];
      yielded := yielded + [x];
      index := index + 1;
    }

    /** `break` after the page whose token is `None`: the generator is exhausted. */
    method Finish()
      requires Valid() && !finished && fetches > 0 && index == |batch| && token.None?
      modifies this`finished
      ensures Valid() && finished
    {
      finished := true;
    }

    /** One `next()` of the generator. */
    method Next() returns (s: Step<T, E>)
      requires Valid()
      modifies this
      ensures Valid()
      ensures s.Yield? ==> !finished && yielded == old(yielded) + [s.item]
      ensures !s.Yield? ==> finished && yielded == old(yielded)
      ensures s.Raise? ==> !old(finished) && s == Ending(pages)
      ensures s.Stop? ==> old(finished) || Ending(pages) == Stop
      ensures old(fetches) < fetches ==> old(index) == |old(batch)|
      ensures s.Yield? ==> 0 < fetches && |ItemsOf(pages, fetches - 1)| < |yielded| <= |ItemsOf(pages, fetches)|
      ensures fetches <= FirstEnd(pages) + 1 && yielded <= Harvest(pages)
      ensures finished ==> fetches == FirstEnd(pages) + 1 && yielded == Harvest(pages)
    {
      if finished {
        s := Stop;
      } else {
        var failure := Refill();
        if failure.Some? {
          s := Raise(failure.value);
        } else if index == |batch| {
          Finish();
          s := Stop;
        } else {
          var x := Emit();
          s := Yield(x);
        }
      }
      Settled();
    }

    /** Where the generator stands against the whole harvest. */
    lemma Settled()
      requires Valid()
      ensures fetches <= FirstEnd(pages) + 1
      ensures yielded <= Harvest(pages)
      ensures finished ==> fetches == FirstEnd(pages) + 1 && yielded == Harvest(pages)
      ensures fetches > 0 ==> |ItemsOf(pages, fetches - 1)| <= |yielded| <= |ItemsOf(pages, fetches)|
    {
      var end := FirstEnd(pages);
      if fetches > 0 {
        ItemsOfGrows(pages, fetches, end + 1);
        var last := pages[fetches - 1];
        if last.Ok? {
          assert ItemsOf(pages, fetches) == ItemsOf(pages, fetches - 1) + batch;
          assert batch == batch[..index] + batch[index..];
          assert yielded <= ItemsOf(pages, fetches);
        }
      }
    }
  }

  /** Iterating the generator to its end, as `list(...)` or a `for` loop does. */
  method Drain<T, E>(pages: seq<Result<Batch<T>, E>>) returns (items: seq<T>, last: Step<T, E>, fetches: nat)
    requires HasEnd(pages)
    ensures items == Harvest(pages)
    ensures last == Ending(pages)
    ensures fetches == FirstEnd(pages) + 1
  {
    var g := new ResumptionList(pages);
    items := [];
    last := g.Next();
    while last.Yield?
      invariant g.Valid() && g.pages == pages && !g.finished == last.Yield?
      invariant g.yielded == items + (if last.Yield? then [last.item] else [])
      invariant !last.Yield? ==> last == Ending(pages)
      decreases |Harvest(pages)| - |items|
    {
      items := items + [last.item];
      last := g.Next();
    }
    assert g.yielded == Harvest(g.pages);
    fetches := g.fetches;
  }

  function Min(a: int, b: int): int {
    if a < b then a else b
  }

  /** Consuming only the first `n` items, as `itertools.islice` does: the
      generator fetches a page only when the item asked for lies in it, so
      nothing is fetched for `n == 0` and the `n`-th item comes from the
      last page fetched. */
  method Take<T, E>(pages: seq<Result<Batch<T>, E>>, n: nat) returns (items: seq<T>, fetches: nat)
    requires HasEnd(pages)
    ensures items <= Harvest(pages) && |items| == Min(n, |Harvest(pages)|)
    ensures fetches <= FirstEnd(pages) + 1
    ensures n == 0 ==> fetches == 0
    ensures 0 < n <= |Harvest(pages)| ==>
              0 < fetches && |ItemsOf(pages, fetches - 1)| < n <= |ItemsOf(pages, fetches)|
  {
    var g := new ResumptionList(pages);
    items := [];
    while |items| < n
      invariant g.Valid() && g.pages == pages && g.yielded == items && |items| <= n
      invariant g.fetches <= FirstEnd(pages) + 1 && items <= Harvest(pages)
      invariant items == [] ==> g.fetches == 0
      invariant items != [] ==> 0 < g.fetches && |ItemsOf(pages, g.fetches - 1)| < |items| <= |ItemsOf(pages, g.fetches)|
      decreases n - |items|
    {
      var s := g.Next();
      if !s.Yield? {
        break;
      }
      items := items + [s.item];
    }
    fetches := g.fetches;
  }

  /** Three pages with tokens "tok1", "tok2" and none, holding two, two and
      one items: the generator yields the five items in page order and
      fetches exactly three pages. */
  lemma ThreePages<T, E>(a: T, b: T, c: T, d: T, e: T)
    ensures var pages: seq<Result<Batch<T>, E>> :=
              [Ok(Batch([a, b], Some("tok1"))), Ok(Batch([c, d], Some("tok2"))), Ok(Batch([e], None))];
            HasEnd(pages) && FirstEnd(pages) == 2 && Harvest(pages) == [a, b, c, d, e] && Ending(pages) == Stop
  {
    var pages: seq<Result<Batch<T>, E>> :=
      [Ok(Batch([a, b], Some("tok1"))), Ok(Batch([c, d], Some("tok2"))), Ok(Batch([e], None))];
    assert Ends(pages[2]) && !Ends(pages[0]) && !Ends(pages[1]);
    assert ItemsOf(pages, 1) == [a, b];
    assert ItemsOf(pages, 2) == [a, b, c, d];
  }
}
