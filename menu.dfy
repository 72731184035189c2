/**
 * Menu entries and the lookup of an entry by name.
 *
 * Names are compared the way Java's String.equalsIgnoreCase compares them,
 * restricted to ASCII letters: the strings have the same length and each pair
 * of characters is equal, equal after upper-casing, or equal after
 * lower-casing the upper-cased characters.
 */
module Menu {
  import opened Wrappers

  datatype MenuCategory = Starter | MainCourse | Dessert | Beverage

  /** An immutable menu entry; the price is in whole cents. */
  datatype MenuItem = MenuItem(name: string, price: int, category: MenuCategory)

  function ToUpper(c: char): char {
    if 'a' <= c <= 'z' then (c as int - 32) as char else c
  }

  function ToLower(c: char): char {
    if 'A' <= c <= 'Z' then (c as int + 32) as char else c
  }

  /** The per-character test of a case-insensitive region match. */
  predicate CharEqualsIgnoreCase(a: char, b: char) {
    a == b || ToUpper(a) == ToUpper(b) || ToLower(ToUpper(a)) == ToLower(ToUpper(b))
  }

  predicate EqualsIgnoreCase(a: string, b: string) {
    |a| == |b| && forall i :: 0 <= i < |a| ==> CharEqualsIgnoreCase(a[i], b[i])
  }

  /** A string with every ASCII capital replaced by its small letter. */
  function LowerAll(s: string): (r: string)
    ensures |r| == |s|
    ensures forall i :: 0 <= i < |s| ==> r[i] == ToLower(s[i])
  {
    if s == [] then [] else [ToLower(s[0])] + LowerAll(s[1..])
  }

  /** Two characters match ignoring case exactly when their lower-case forms agree. */
  lemma CharEqualsIgnoreCaseIffLower(a: char, b: char)
    ensures CharEqualsIgnoreCase(a, b) <==> ToLower(a) == ToLower(b)
  {
  }

  /** Two strings match ignoring case exactly when their lower-case forms are equal. */
  lemma EqualsIgnoreCaseIffLower(a: string, b: string)
    ensures EqualsIgnoreCase(a, b) <==> LowerAll(a) == LowerAll(b)
  {
    if EqualsIgnoreCase(a, b) {
      forall i | 0 <= i < |a| ensures LowerAll(a)[i] == LowerAll(b)[i] {
        CharEqualsIgnoreCaseIffLower(a[i], b[i]);
      }
    }
    if LowerAll(a) == LowerAll(b) {
      forall i | 0 <= i < |a| ensures CharEqualsIgnoreCase(a[i], b[i]) {
        assert LowerAll(a)[i] == LowerAll(b)[i];
        CharEqualsIgnoreCaseIffLower(a[i], b[i]);
      }
    }
  }

  /** Matching ignoring case is an equivalence relation. */
  lemma EqualsIgnoreCaseEquivalence(a: string, b: string, c: string)
    ensures EqualsIgnoreCase(a, a)
    ensures EqualsIgnoreCase(a, b) ==> EqualsIgnoreCase(b, a)
    ensures EqualsIgnoreCase(a, b) && EqualsIgnoreCase(b, c) ==> EqualsIgnoreCase(a, c)
  {
    EqualsIgnoreCaseIffLower(a, a);
    EqualsIgnoreCaseIffLower(a, b);
    EqualsIgnoreCaseIffLower(b, a);
    EqualsIgnoreCaseIffLower(b, c);
    EqualsIgnoreCaseIffLower(a, c);
  }

  /** The filter of the lookup: the entry's name equals the query, ignoring case. */
  predicate NameMatches(item: MenuItem, query: string) {
    EqualsIgnoreCase(item.name, query)
  }

  /**
   * The first entry, in menu order, whose name matches the query ignoring
   * case; None when no entry matches.
   */
  function FindFirst(menu: seq<MenuItem>, query: string): (r: Option<MenuItem>)
    ensures r.None? <==> forall i :: 0 <= i < |menu| ==> !NameMatches(menu[i], query)
    ensures r.Some? ==> exists k :: 0 <= k < |menu| && menu[k] == r.value && NameMatches(menu[k], query)
                                    && forall j :: 0 <= j < k ==> !NameMatches(menu[j], query)
  {
    if menu == [] then None
    else if NameMatches(menu[0], query) then Some(menu[0])
    else
      var r := FindFirst(menu[1..], query);
      assert forall j :: 1 <= j < |menu| ==> menu[j] == menu[1..][j - 1];
      r
  }

  /**
   * Appending an entry never changes an existing match: a later entry with a
   * duplicate name is never found, and a new entry is found only when nothing
   * earlier matched.
   */
  lemma {:induction false} FindFirstAppend(menu: seq<MenuItem>, item: MenuItem, query: string)
    ensures FindFirst(menu + [item], query) ==
      if FindFirst(menu, query).Some? then FindFirst(menu, query)
      else if NameMatches(item, query) then Some(item)
      else None
  {
    if menu != [] {
      assert (menu + [item])[1..] == menu[1..] + [item];
      FindFirstAppend(menu[1..], item, query);
    }
  }

  /** Queries that match each other ignoring case find the same entry. */
  lemma {:induction false} FindFirstIgnoresQueryCase(menu: seq<MenuItem>, q1: string, q2: string)
    requires EqualsIgnoreCase(q1, q2)
    ensures FindFirst(menu, q1) == FindFirst(menu, q2)
  {
    if menu != [] {
      EqualsIgnoreCaseEquivalence(menu[0].name, q1, q2);
      EqualsIgnoreCaseEquivalence(menu[0].name, q2, q1);
      EqualsIgnoreCaseEquivalence(q1, q2, q2);
      FindFirstIgnoresQueryCase(menu[1..], q1, q2);
    }
  }
}
