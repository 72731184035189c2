/**
 * Orders: the class-wide id counter, an order's item list and its total.
 */
module Orders {
  import opened Menu

  /**
   * The counter shared by every order (a static field of the order class in
   * the Java program); `last` is the id handed out most recently, 0 before any.
   */
  class OrderCounter {
    var last: nat

    constructor ()
      ensures last == 0
    {
      last := 0;
    }
  }

  /** The sum of the prices of the given items, in cents. */
  function SumPrices(items: seq<MenuItem>): int {
    if items == [] then 0 else items[0].price + SumPrices(items[1..])
  }

  /** The total of a concatenation is the sum of the totals. */
  lemma {:induction false} SumPricesConcat(a: seq<MenuItem>, b: seq<MenuItem>)
    ensures SumPrices(a + b) == SumPrices(a) + SumPrices(b)
  {
    if a != [] {
      assert (a + b)[1..] == a[1..] + b;
      SumPricesConcat(a[1..], b);
    } else {
      assert a + b == b;
    }
  }

  /** Appending one item raises the total by exactly that item's price. */
  lemma SumPricesAppend(a: seq<MenuItem>, x: MenuItem)
    ensures SumPrices(a + [x]) == SumPrices(a) + x.price
  {
    SumPricesConcat(a, [x]);
  }

  /** Taking the k-th item out lowers the total by exactly its price. */
  lemma SumPricesRemove(b: seq<MenuItem>, k: nat)
    requires k < |b|
    ensures SumPrices(b) == b[k].price + SumPrices(b[..k] + b[k + 1..])
  {
    var before, after := b[..k], b[k + 1..];
    var tail := [b[k]] + after;
    assert b == before + tail;
    assert tail[0] == b[k] && tail[1..] == after;
    SumPricesConcat(before, tail);
    SumPricesConcat(before, after);
  }

  /** The total depends only on which items are present, not on their order. */
  lemma {:induction false} SumPricesPermutation(a: seq<MenuItem>, b: seq<MenuItem>)
    requires multiset(a) == multiset(b)
    ensures SumPrices(a) == SumPrices(b)
  {
    if a == [] {
      assert |b| == |multiset(b)| == 0;
    } else {
      assert a[0] in multiset(b);
      var k :| 0 <= k < |b| && b[k] == a[0];
      var rest := b[..k] + b[k + 1..];
      MultisetRemove(a, b, k);
      SumPricesPermutation(a[1..], rest);
      SumPricesRemove(b, k);
    }
  }

  /** Removing the same item from two permutations of each other leaves permutations. */
  lemma MultisetRemove(a: seq<MenuItem>, b: seq<MenuItem>, k: nat)
    requires a != [] && k < |b| && b[k] == a[0]
    requires multiset(a) == multiset(b)
    ensures multiset(a[1..]) == multiset(b[..k] + b[k + 1..])
  {
    assert b == b[..k] + [b[k]] + b[k + 1..];
    assert a == [a[0]] + a[1..];
    assert multiset(b) == multiset(b[..k]) + multiset{b[k]} + multiset(b[k + 1..]);
    assert multiset(a) == multiset{a[0]} + multiset(a[1..]);
    forall m ensures multiset(a[1..])[m] == multiset(b[..k] + b[k + 1..])[m] {
      assert multiset(a)[m] == multiset(b)[m];
    }
  }

  /** When no item has a negative price, neither does the total. */
  lemma {:induction false} SumPricesNonNegative(items: seq<MenuItem>)
    requires forall i :: 0 <= i < |items| ==> items[i].price >= 0
    ensures SumPrices(items) >= 0
  {
    if items != [] {
      SumPricesNonNegative(items[1..]);
    }
  }

  /** One customer order: an id fixed at creation and a growing list of items. */
  class Order {
    const id: nat
    var items: seq<MenuItem>

    /** Takes the next id from the shared counter (pre-increment) and starts empty. */
    constructor (counter: OrderCounter)
      modifies counter
      ensures counter.last == old(counter.last) + 1
      ensures id == counter.last && id >= 1
      ensures items == [] && TotalPrice() == 0
    {
      counter.last := counter.last + 1;
      id := counter.last;
      items := [];
    }

    /** Appends the item; duplicates are allowed and the id is untouched. */
    method AddItem(item: MenuItem)
      modifies this
      ensures items == old(items) + [item]
      ensures |items| == old(|items|) + 1
      ensures TotalPrice() == old(TotalPrice()) + item.price
    {
      SumPricesAppend(items, item);
      items := items + [item];
    }

    /** The order's total, recomputed from its items on every call. */
    function TotalPrice(): int
      reads this
    {
      SumPrices(items)
    }
  }

  // The Java program's counter is an int, so `++orderCounter` wraps from the
  // largest int to the smallest. The model's ids (Order.id) are unbounded; the
  // members below exhibit what the 32-bit counter does instead.

  const Int32Min: int := -0x8000_0000
  const Int32Max: int := 0x7fff_ffff

  /** Java's `++` on an int: one more, except that the largest int wraps to the smallest. */
  function Inc32(x: int): int {
    if x == Int32Max then Int32Min else x + 1
  }

  /** The 32-bit counter after n increments from x. */
  function Inc32Times(x: int, n: nat): int {
    if n == 0 then x else Inc32(Inc32Times(x, n - 1))
  }

  /** Below the largest int the 32-bit counter counts like the unbounded one. */
  lemma {:induction false} Inc32TimesNoWrap(x: int, n: nat)
    requires x + n <= Int32Max
    ensures Inc32Times(x, n) == x + n
  {
    if n > 0 {
      Inc32TimesNoWrap(x, n - 1);
    }
  }

  /** a + b increments are a increments followed by b more. */
  lemma {:induction false} Inc32TimesSplit(x: int, a: nat, b: nat)
    ensures Inc32Times(x, a + b) == Inc32Times(Inc32Times(x, a), b)
  {
    if b > 0 {
      Inc32TimesSplit(x, a, b - 1);
    }
  }

  /**
   * From the initial 0, the 2147483648th order gets a negative id and the
   * 4294967297th order gets id 1 again: the first order's id is reused.
   */
  lemma Inc32ReusesIds(start: int, wrap: nat, cycle: nat)
    requires start == 0 && wrap == Int32Max + 1 && cycle == 2 * wrap + 1
    ensures Inc32Times(start, 1) == 1
    ensures Inc32Times(start, wrap) == Int32Min
    ensures Inc32Times(start, cycle) == 1
  {
    Inc32TimesNoWrap(start, 1);
    Inc32TimesNoWrap(start, wrap - 1);
    Inc32TimesSplit(start, wrap - 1, 1);
    Inc32TimesNoWrap(Int32Min, wrap + 1);
    Inc32TimesSplit(start, wrap, wrap + 1);
  }
}
