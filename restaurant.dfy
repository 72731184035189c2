/**
 * The restaurant: its menu, the ledger of orders it created, the item
 * selection that fills an order by name, and the sales total of a report.
 */
module Restaurant {
  import opened Wrappers
  import opened Menu
  import opened Orders

  /** Total sales: the sum of the totals of the given orders, in cents. */
  function TotalSales(orders: seq<Order>): int
    reads orders
  {
    if orders == [] then 0 else orders[0].TotalPrice() + TotalSales(orders[1..])
  }

  /** Every item sold, order after order. */
  function AllItems(orders: seq<Order>): seq<MenuItem>
    reads orders
  {
    if orders == [] then [] else orders[0].items + AllItems(orders[1..])
  }

  /** A new order at the end of the ledger adds its own total to the sales. */
  lemma {:induction false} TotalSalesAppend(orders: seq<Order>, o: Order)
    ensures TotalSales(orders + [o]) == TotalSales(orders) + o.TotalPrice()
  {
    if orders != [] {
      assert (orders + [o])[1..] == orders[1..] + [o];
      TotalSalesAppend(orders[1..], o);
    } else {
      assert orders + [o] == [o];
    }
  }

  /** Total sales is the sum of the prices of every item of every order. */
  lemma {:induction false} TotalSalesIsSumOfAllItems(orders: seq<Order>)
    ensures TotalSales(orders) == SumPrices(AllItems(orders))
  {
    if orders != [] {
      TotalSalesIsSumOfAllItems(orders[1..]);
      SumPricesConcat(orders[0].items, AllItems(orders[1..]));
    }
  }

  /** The line that ends item selection: "done", in any case. */
  predicate IsDone(line: string) {
    EqualsIgnoreCase(line, "done")
  }

  /**
   * The items an order receives from a run of typed names: each name adds the
   * first menu entry it matches and adds nothing when none matches, up to the
   * first line reading "done" in any case.
   */
  function Selections(menu: seq<MenuItem>, lines: seq<string>): seq<MenuItem> {
    if lines == [] || IsDone(lines[0]) then []
    else Picked(menu, lines[0]) + Selections(menu, lines[1..])
  }

  /** What one typed name adds to an order: its first match on the menu, or nothing. */
  function Picked(menu: seq<MenuItem>, name: string): (r: seq<MenuItem>)
    ensures |r| <= 1
    ensures r == [] <==> forall i :: 0 <= i < |menu| ==> !NameMatches(menu[i], name)
    ensures forall x :: x in r ==> x in menu && NameMatches(x, name)
  {
    match FindFirst(menu, name)
    case Some(item) => [item]
    case None => []
  }

  /** One more line, with no "done" before or at it, adds exactly that line's pick. */
  lemma {:induction false} SelectionsAppendLine(menu: seq<MenuItem>, lines: seq<string>, line: string)
    requires forall j :: 0 <= j < |lines| ==> !IsDone(lines[j])
    requires !IsDone(line)
    ensures Selections(menu, lines + [line]) == Selections(menu, lines) + Picked(menu, line)
  {
    if lines == [] {
      assert lines + [line] == [line] && [line][1..] == [];
    } else {
      assert (lines + [line])[0] == lines[0] && (lines + [line])[1..] == lines[1..] + [line];
      SelectionsAppendLine(menu, lines[1..], line);
    }
  }

  /** Nothing after a "done" line is selected. */
  lemma {:induction false} SelectionsStopAtDone(menu: seq<MenuItem>, lines: seq<string>, k: nat)
    requires k < |lines| && IsDone(lines[k])
    ensures Selections(menu, lines) == Selections(menu, lines[..k])
  {
    if k > 0 && !IsDone(lines[0]) {
      assert lines[..k][0] == lines[0] && lines[..k][1..] == lines[1..][..k - 1];
      SelectionsStopAtDone(menu, lines[1..], k - 1);
    }
  }

  /** Selection only ever adds menu entries, at most one per line typed. */
  lemma {:induction false} SelectionsFromMenu(menu: seq<MenuItem>, lines: seq<string>)
    ensures |Selections(menu, lines)| <= |lines|
    ensures forall x :: x in Selections(menu, lines) ==> x in menu
  {
    if lines != [] && !IsDone(lines[0]) {
      SelectionsFromMenu(menu, lines[1..]);
    }
  }

  /** A line that names no menu entry (and is not "done") leaves the selection unchanged. */
  lemma SelectionsSkipUnknown(menu: seq<MenuItem>, line: string, lines: seq<string>)
    requires !IsDone(line)
    requires forall i :: 0 <= i < |menu| ==> !NameMatches(menu[i], line)
    ensures Selections(menu, [line] + lines) == Selections(menu, lines)
  {
    assert ([line] + lines)[0] == line && ([line] + lines)[1..] == lines;
    assert Picked(menu, line) == [];
  }

  class RestaurantSystem {
    var menu: seq<MenuItem>
    var orders: seq<Order>
    /** The counter every order draws its id from. */
    const counter: OrderCounter

    /** The ledger lists orders in creation order: ids strictly increase and none is ahead of the counter. */
    ghost predicate Valid()
      reads this, counter
    {
      && (forall i, j :: 0 <= i < j < |orders| ==> orders[i].id < orders[j].id)
      && (forall i :: 0 <= i < |orders| ==> orders[i].id <= counter.last)
    }

    constructor (counter: OrderCounter)
      ensures Valid()
      ensures this.counter == counter && menu == [] && orders == []
    {
      this.counter := counter;
      menu := [];
      orders := [];
    }

    /** Appends a new entry unconditionally: a duplicate name is not rejected. */
    method AddMenuItem(name: string, price: int, category: MenuCategory)
      requires Valid()
      modifies this
      ensures Valid()
      ensures menu == old(menu) + [MenuItem(name, price, category)]
      ensures orders == old(orders)
      ensures forall q :: FindFirst(old(menu), q).Some? ==> FindFirst(menu, q) == FindFirst(old(menu), q)
    {
      forall q | FindFirst(menu, q).Some?
        ensures FindFirst(menu + [MenuItem(name, price, category)], q) == FindFirst(menu, q)
      {
        FindFirstAppend(menu, MenuItem(name, price, category), q);
      }
      menu := menu + [MenuItem(name, price, category)];
    }

    /** Creates an empty order with the next id, records it at the end of the ledger and hands it back. */
    method CreateOrder() returns (order: Order)
      requires Valid()
      modifies this, counter
      ensures Valid()
      ensures fresh(order) && order.items == [] && order.TotalPrice() == 0
      ensures order.id == old(counter.last) + 1 && counter.last == order.id
      ensures orders == old(orders) + [order] && menu == old(menu)
      ensures forall i :: 0 <= i < |old(orders)| ==> orders[i].items == old(orders[i].items)
      ensures TotalSales(orders) == old(TotalSales(orders))
    {
      order := new Order(counter);
      TotalSalesAppend(orders, order);
      orders := orders + [order];
    }

    /** The ledger itself: each order once, in creation order. */
    method GetOrders() returns (os: seq<Order>)
      requires Valid()
      ensures os == orders
      ensures forall i, j :: 0 <= i < j < |os| ==> os[i].id < os[j].id && os[i] != os[j]
    {
      os := orders;
    }

    /** Looks the name up in the menu and adds the match, if any, to the order. */
    method SelectItem(order: Order, name: string) returns (found: Option<MenuItem>)
      modifies order
      ensures found == FindFirst(menu, name)
      ensures order.items == old(order.items) + Picked(menu, name)
      ensures order.TotalPrice() == old(order.TotalPrice()) + (if found.Some? then found.value.price else 0)
    {
      found := FindFirst(menu, name);
      if found.Some? {
        order.AddItem(found.value);
      }
    }

    /**
     * Reads names until "done", adding each match to the order; `finished`
     * tells whether "done" was reached before the lines ran out.
     */
    method TakeSelections(order: Order, lines: seq<string>) returns (finished: bool)
      modifies order
      ensures order.items == old(order.items) + Selections(menu, lines)
      ensures order.TotalPrice() == old(order.TotalPrice()) + SumPrices(Selections(menu, lines))
      ensures finished <==> exists i :: 0 <= i < |lines| && IsDone(lines[i])
    {
      var i := 0;
      while i < |lines| && !IsDone(lines[i])
        invariant 0 <= i <= |lines|
        invariant forall j :: 0 <= j < i ==> !IsDone(lines[j])
        invariant order.items == old(order.items) + Selections(menu, lines[..i])
      {
        SelectionsAppendLine(menu, lines[..i], lines[i]);
        assert lines[..i] + [lines[i]] == lines[..i + 1];
        var found := SelectItem(order, lines[i]);
        i := i + 1;
      }
      finished := i < |lines|;
      if finished {
        SelectionsStopAtDone(menu, lines, i);
      } else {
        assert lines[..i] == lines;
      }
      SumPricesConcat(old(order.items), Selections(menu, lines));
    }
  }

  /** The four entries the console program puts on the menu at start-up. */
  function DefaultMenu(): seq<MenuItem> {
    [ MenuItem("Soup", 599, Starter), MenuItem("Steak", 1599, MainCourse),
      MenuItem("Cake", 499, Dessert), MenuItem("Coffee", 299, Beverage) ]
  }

  /** Start-up of the console program: a new system holding the default menu and no orders. */
  method StartUp(counter: OrderCounter) returns (system: RestaurantSystem)
    ensures fresh(system) && system.Valid()
    ensures system.counter == counter && system.menu == DefaultMenu() && system.orders == []
  {
    system := new RestaurantSystem(counter);
    system.AddMenuItem("Soup", 599, Starter);
    system.AddMenuItem("Steak", 1599, MainCourse);
    system.AddMenuItem("Cake", 499, Dessert);
    system.AddMenuItem("Coffee", 299, Beverage);
  }

  /** On the default menu, lookups ignore case and unknown names find nothing. */
  lemma DefaultMenuLookups()
    ensures FindFirst(DefaultMenu(), "soup") == Some(DefaultMenu()[0])
    ensures FindFirst(DefaultMenu(), "Soup") == Some(DefaultMenu()[0])
    ensures FindFirst(DefaultMenu(), "STEAK") == Some(DefaultMenu()[1])
    ensures FindFirst(DefaultMenu(), "Tea") == None
    ensures Picked(DefaultMenu(), "soup") == [DefaultMenu()[0]]
    ensures Picked(DefaultMenu(), "STEAK") == [DefaultMenu()[1]]
    ensures Picked(DefaultMenu(), "Tea") == []
  {
    var menu := DefaultMenu();
    assert NameMatches(menu[0], "soup") && NameMatches(menu[0], "Soup");
    assert !NameMatches(menu[0], "STEAK") && NameMatches(menu[1], "STEAK");
  }

  /**
   * Two orders in one ledger, filled through the handles createOrder returned:
   * ids 1 and 2, totals 21.98 and 11.98, and total sales 33.96.
   */
  method ReportScenario() {
    var counter := new OrderCounter();
    var system := new RestaurantSystem(counter);
    var soup, steak := MenuItem("Soup", 599, Starter), MenuItem("Steak", 1599, MainCourse);
    var first := system.CreateOrder();
    var second := system.CreateOrder();
    first.AddItem(soup);
    first.AddItem(steak);
    second.AddItem(soup);
    second.AddItem(soup);
    var ledger := system.GetOrders();
    assert ledger == [first, second] && first.id == 1 && second.id == 2;
    assert first.TotalPrice() == 2198 && second.TotalPrice() == 1198;
    assert ledger[1..] == [second] && [second][1..] == [];
    assert TotalSales([second]) == second.TotalPrice();
    assert TotalSales(ledger) == 3396;
  }
}
