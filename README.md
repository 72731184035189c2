# Restaurant order and menu bookkeeping, modelled in Dafny

This project models the in-memory core of a small point-of-sale program
(`RestaurantManagementSystem.java`): a menu of immutable entries, orders
that draw their ids from one class-wide counter and accumulate entries, the
ledger of orders the system created, the case-insensitive lookup that fills an
order by name, and the total-sales sum of the manager's report.

Files and modules:

- `wrappers.dfy`, module `Wrappers`: the `Option` type (Java's `Optional`).
- `menu.dfy`, module `Menu`: `MenuCategory`, `MenuItem`, Java's
  `equalsIgnoreCase` restricted to ASCII, and `FindFirst`, the
  `filter(...).findFirst()` lookup as a recursive first-match function.
- `orders.dfy`, module `Orders`: the shared `OrderCounter` (the static
  `orderCounter`), the `Order` class (`id`, `items`, `AddItem`,
  `TotalPrice`), `SumPrices` (the stream sum of `getTotalPrice`) and its
  lemmas, and the 32-bit counter of the Findings below.
- `restaurant.dfy`, module `Restaurant`: the `RestaurantSystem` class (`menu`,
  `orders`, `AddMenuItem`, `CreateOrder`, `GetOrders`, the one-name selection
  step `SelectItem` and the `while (addingItems)` loop `TakeSelections`),
  `TotalSales` (the sum in `generateReport`), and a client, `ReportScenario`,
  that places two orders and reads the ledger and the report through the
  contracts.

Modelling choices:

- Prices are whole cents (`int`) instead of `double`, so every sum is exact.
- The static `orderCounter` is an `OrderCounter` object that callers pass in;
  `Order`'s constructor takes it and `modifies` it. The system keeps a
  reference to it in the constant field `counter`. Passing the same counter
  everywhere is left to callers (see Left out).
- `getTotalPrice` is the function `Order.TotalPrice`, which reads only the
  order and is `SumPrices(items)`. Being a function, it has no side effects
  and gives the same value on every call.
- Name comparison follows Java's `regionMatches` with case ignored: the
  strings have equal length, and at each position the characters are equal,
  or equal once upper-cased, or equal once the upper-cased characters are
  lower-cased. Only ASCII letters change case.
- The code has no duplicate-name check: `addMenuItem` appends every entry, and
  a later entry with the same name (ignoring case) is never found by the
  lookup. The code also does not validate prices, so a price may be negative.
  The model follows the code in both.
- The order-taking loop takes the typed lines as a sequence and stops at the
  first line equal to "done", ignoring case.

## Model

| member | source | states |
|---|---|---|
| `Menu.EqualsIgnoreCase` | RestaurantManagementSystem.java:156-160 | definition: the strings have equal length and, position by position, the characters are equal, equal once upper-cased, or equal once the upper-cased forms are lower-cased (ASCII letters only) |
| `Menu.NameMatches` | RestaurantManagementSystem.java:160 | definition: the entry's name equals the query ignoring case |
| `Menu.FindFirst` | RestaurantManagementSystem.java:159-161 | returns None exactly when no entry's name equals the query ignoring case; otherwise returns the entry at some index k whose name matches, with no matching entry before k (the first match in menu order) |
| `Menu.FindFirstAppend` | RestaurantManagementSystem.java:102-104 | appending an entry never changes an existing match, so a duplicate name added later is never found; the new entry is found only when nothing earlier matches and its name matches |
| `Menu.FindFirstIgnoresQueryCase` | RestaurantManagementSystem.java:160 | two queries that are equal ignoring case find the same entry |
| `Menu.CharEqualsIgnoreCaseIffLower` | RestaurantManagementSystem.java:160 | the three-way character test holds exactly when the characters' lower-case forms are equal |
| `Menu.EqualsIgnoreCaseIffLower` | RestaurantManagementSystem.java:160 | two strings are equal ignoring case exactly when their lower-cased forms are equal |
| `Menu.EqualsIgnoreCaseEquivalence` | RestaurantManagementSystem.java:160 | equality ignoring case is reflexive, symmetric and transitive |
| `Orders.OrderCounter.constructor` | RestaurantManagementSystem.java:68 | the shared counter starts at 0 |
| `Orders.Order.constructor` | RestaurantManagementSystem.java:72-75 | pre-increments the shared counter; the new order's id is the new counter value, so it is at least 1 and one more than the previous value; the order starts with no items and total 0 |
| `Orders.Order.AddItem` | RestaurantManagementSystem.java:77-79 | appends the item at the end, duplicates included; the length grows by exactly one; the total grows by exactly the item's price; the id cannot change |
| `Orders.SumPrices` | RestaurantManagementSystem.java:81-83 | definition: the sum of the item prices in cents, 0 for no items |
| `Orders.Order.TotalPrice` | RestaurantManagementSystem.java:81-83 | definition: the order's total is the sum of its items' prices; reads only the order, so it has no side effects and gives the same value on repeated calls |
| `Orders.SumPricesConcat` | RestaurantManagementSystem.java:81-83 | the total of two item lists put together is the sum of their totals |
| `Orders.SumPricesAppend` | RestaurantManagementSystem.java:77-83 | adding one item to a list raises its total by exactly that item's price |
| `Orders.SumPricesRemove` | RestaurantManagementSystem.java:81-83 | taking the k-th item out of a list lowers its total by exactly that item's price |
| `Orders.SumPricesPermutation` | RestaurantManagementSystem.java:81-83 | an order's total depends only on which items it holds, not on their order |
| `Orders.MultisetRemove` | RestaurantManagementSystem.java:81-83 | removing the same item from two lists that hold the same items leaves two lists that hold the same items |
| `Orders.SumPricesNonNegative` | RestaurantManagementSystem.java:81-83 | when every item's price is non-negative, the total is non-negative |
| `Orders.Inc32` | RestaurantManagementSystem.java:73 | definition: Java's `++` on an int, one more except that 2147483647 wraps to -2147483648 |
| `Orders.Inc32Times` | RestaurantManagementSystem.java:73 | definition: the 32-bit counter after n increments |
| `Orders.Inc32TimesNoWrap` | RestaurantManagementSystem.java:73 | while it stays below the largest int, the 32-bit counter after n increments equals the start plus n |
| `Orders.Inc32TimesSplit` | RestaurantManagementSystem.java:73 | a + b increments of the 32-bit counter are a increments followed by b more |
| `Orders.Inc32ReusesIds` | RestaurantManagementSystem.java:68-73 | starting from 0, the first order gets id 1, the 2147483648th order gets id -2147483648, and the 4294967297th order gets id 1 again |
| `Restaurant.TotalSales` | RestaurantManagementSystem.java:49 | definition: the sum of the orders' totals, 0 for no orders |
| `Restaurant.TotalSalesAppend` | RestaurantManagementSystem.java:49 | adding an order at the end of a list raises total sales by exactly that order's total |
| `Restaurant.TotalSalesIsSumOfAllItems` | RestaurantManagementSystem.java:49 | total sales equals the sum of the prices of every item of every order, and so is 0 for no orders |
| `Restaurant.IsDone` | RestaurantManagementSystem.java:156 | definition: the typed line equals "done" ignoring case |
| `Restaurant.Selections` | RestaurantManagementSystem.java:151-170 | definition: the items the loop adds for the typed lines: each line before the first "done" adds its first menu match, or nothing when none matches |
| `Restaurant.Picked` | RestaurantManagementSystem.java:159-168 | one typed name adds at most one item; it adds nothing exactly when no menu entry's name matches it, and an item it adds is a menu entry whose name matches |
| `Restaurant.SelectionsAppendLine` | RestaurantManagementSystem.java:151-170 | one more typed line that is not "done", after lines that are not "done", adds exactly that line's pick to the selection |
| `Restaurant.SelectionsStopAtDone` | RestaurantManagementSystem.java:156-157 | nothing typed after a "done" line reaches the order |
| `Restaurant.SelectionsFromMenu` | RestaurantManagementSystem.java:151-170 | selection adds at most one item per typed line, and only menu entries |
| `Restaurant.SelectionsSkipUnknown` | RestaurantManagementSystem.java:166-168 | a line that names no menu entry and is not "done" adds nothing |
| `Restaurant.RestaurantSystem.constructor` | RestaurantManagementSystem.java:97-100 | a new system has an empty menu and an empty ledger |
| `Restaurant.RestaurantSystem.AddMenuItem` | RestaurantManagementSystem.java:102-104 | appends exactly one entry with the given name, price and category at the end of the menu, with no duplicate check; earlier entries and the ledger are unchanged, and every name found before is still found as the same entry |
| `Restaurant.RestaurantSystem.CreateOrder` | RestaurantManagementSystem.java:111-115 | returns a fresh order with no items, total 0 and id equal to the old counter plus 1; appends that same order to the end of the ledger; earlier orders keep their items; total sales is unchanged; ids in the ledger stay strictly increasing and never ahead of the counter |
| `Restaurant.RestaurantSystem.GetOrders` | RestaurantManagementSystem.java:117-119 | returns the ledger in creation order: ids strictly increase, so each order appears once |
| `Restaurant.RestaurantSystem.SelectItem` | RestaurantManagementSystem.java:159-168 | looks the name up with the first-match lookup; the order gains that item when there is a match and is unchanged otherwise; its total rises by the item's price or stays the same |
| `Restaurant.RestaurantSystem.TakeSelections` | RestaurantManagementSystem.java:149-170 | the order gains exactly the picks of the lines typed before the first "done"; its total rises by their prices; the result tells whether a "done" line was typed |
| `Restaurant.StartUp` | RestaurantManagementSystem.java:123-129 | a fresh system holding the four default entries (Soup 5.99, Steak 15.99, Cake 4.99, Coffee 2.99) and no orders |
| `Restaurant.DefaultMenuLookups` | RestaurantManagementSystem.java:126-129 | on the default menu, "soup" and "Soup" find Soup, "STEAK" finds Steak, and "Tea" finds nothing |

## Left out

- The console program's main loop: the option menu, `Scanner` input, the
  prompts and the `switch`. Only the start-up menu (`StartUp`) and the
  order-taking loop (`TakeSelections`) are modelled, with the typed lines
  given as a sequence.
- All printing: `displayMenu`, `printOrder`, `performDuty`, and the report's
  output line. The report's date is a clock read, so it is left out too.
- The `Employee`, `Manager` and `Staff` classes. They only hold a name and an
  id and print. The one computation in them, the sum in `generateReport`, is
  `TotalSales`.
- `double` arithmetic. Prices are whole cents. Floating-point rounding, and
  the compensated summation of `DoubleStream.sum`, are not modelled.
- Full Unicode case rules of `equalsIgnoreCase`. Only the ASCII letters A-Z
  and a-z change case here.
- Restaurant.RestaurantSystem.GetOrders: returns the ledger as a sequence
  value. The orders in it are the live objects, so changes made through an
  order handle are seen. But a caller that keeps the returned list does not
  see orders created later, whereas Java returns the `ArrayList` itself.
- Restaurant.RestaurantSystem.TakeSelections: when the lines run out before
  "done", Java's `nextLine` throws `NoSuchElementException`. The model instead
  returns `finished == false` with the lines so far applied.
- Orders.OrderCounter.constructor: the program has one counter per process
  (a static field); the model does not enforce a single counter. A client may
  create a second `OrderCounter`, and two ledgers then both hand out id 1.
  Id uniqueness (`Valid()`) is proved per ledger; systems that share one
  counter get ids that continue across them, as in Java.
- Orders.Order.constructor: does not model the 32-bit wrap-around of
  `++orderCounter`; ids are unbounded. The wrap-around is modelled separately
  under Findings.

## Findings

| source | as written | input that shows it | evidently intended | confidence | as-written member | corrected member |
|---|---|---|---|---|---|---|
| RestaurantManagementSystem.java:73 | `orderId = ++orderCounter` on a 32-bit `int` wraps from 2147483647 to -2147483648 | the 2147483648th order created in one process gets id -2147483648, and the 4294967297th gets id 1, the id of the first order | order ids are positive, strictly increasing and never reused | low: needs over two billion orders in one process; not executed | `Orders.Inc32ReusesIds` | `Restaurant.RestaurantSystem.CreateOrder` |

The corrected model uses an unbounded counter (`OrderCounter.last: nat`).
`CreateOrder` keeps the ledger invariant `Valid()`: ids strictly increase in
creation order and never exceed the counter.
