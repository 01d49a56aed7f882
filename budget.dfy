// The balance calculator of the generic planner and of the shared planner
// script: the paid activities (budget "Paid", a truthy price and a currency)
// are grouped by currency and, inside a currency, by activity type, each
// group keeping a running total and a count.  Currencies are shown in sorted
// order; a currency's total is the sum of its type totals.

module Budget {
  import opened Common
  import opened Itinerary
  import opened Sorting

  datatype PaidItem = PaidItem(kind: string, name: string, price: int, currency: string)

  datatype TypeTotal = TypeTotal(kind: string, total: int, count: nat)

  datatype CurrencyGroup = CurrencyGroup(code: string, types: seq<TypeTotal>)

  /** `a.budget === 'Paid' && a.price && a.currency` */
  predicate IsPaid(a: Activity)
  {
    a.budget == "Paid" && PriceTruthy(a.price) && a.currency != ""
  }

  function ItemOf(a: Activity): PaidItem
    requires IsPaid(a)
  {
    PaidItem(a.kind, a.name, a.price.value, a.currency)
  }

  /** The paid items among `acts`, in order. */
  function PaidIn(acts: seq<Activity>): seq<PaidItem>
  {
    if acts == [] then []
    else
      var a := acts[|acts| - 1];
      PaidIn(acts[..|acts| - 1]) + (if IsPaid(a) then [ItemOf(a)] else [])
  }

  /** The paid items of the whole itinerary, day by day. */
  function PaidItems(days: seq<Day>): seq<PaidItem>
  {
    if days == [] then [] else PaidItems(days[..|days| - 1]) + PaidIn(days[|days| - 1].activities)
  }

  // ---------------------------------------------------------------------
  // Grouping, one item at a time

  /** `types[kind] ||= {total: 0, count: 0}; types[kind].total += price; types[kind].count += 1` */
  function AddToTypes(types: seq<TypeTotal>, kind: string, price: int): seq<TypeTotal>
  {
    if types == [] then [TypeTotal(kind, price, 1)]
    else if types[0].kind == kind then [types[0].(total := types[0].total + price, count := types[0].count + 1)] + types[1..]
    else [types[0]] + AddToTypes(types[1..], kind, price)
  }

  /** `groups[item.currency] ||= {}` followed by `AddToTypes` on that currency. */
  function AddToGroups(groups: seq<CurrencyGroup>, item: PaidItem): seq<CurrencyGroup>
  {
    if groups == [] then [CurrencyGroup(item.currency, [TypeTotal(item.kind, item.price, 1)])]
    else if groups[0].code == item.currency then
      [groups[0].(types := AddToTypes(groups[0].types, item.kind, item.price))] + groups[1..]
    else [groups[0]] + AddToGroups(groups[1..], item)
  }

  /** The groups after adding every item, in order. */
  function Grouped(items: seq<PaidItem>): seq<CurrencyGroup>
  {
    if items == [] then [] else AddToGroups(Grouped(items[..|items| - 1]), items[|items| - 1])
  }

  // ---------------------------------------------------------------------
  // Reading the groups back

  function FindType(types: seq<TypeTotal>, kind: string): Option<TypeTotal>
  {
    if types == [] then None else if types[0].kind == kind then Some(types[0]) else FindType(types[1..], kind)
  }

  /** The type totals of currency `code`, empty when the currency has no group. */
  function TypesOf(groups: seq<CurrencyGroup>, code: string): seq<TypeTotal>
  {
    if groups == [] then [] else if groups[0].code == code then groups[0].types else TypesOf(groups[1..], code)
  }

  predicate HasGroup(groups: seq<CurrencyGroup>, code: string)
  {
    groups != [] && (groups[0].code == code || HasGroup(groups[1..], code))
  }

  /** `Object.values(types).reduce((sum, t) => sum + t.total, 0)` */
  function SumTotals(types: seq<TypeTotal>): int
  {
    if types == [] then 0 else types[0].total + SumTotals(types[1..])
  }

  function CurrencyTotal(g: CurrencyGroup): int
  {
    SumTotals(g.types)
  }

  /** No currency has two groups. */
  predicate DistinctCodes(groups: seq<CurrencyGroup>)
  {
    groups == [] || (!HasGroup(groups[1..], groups[0].code) && DistinctCodes(groups[1..]))
  }

  // ---------------------------------------------------------------------
  // The reference: totals computed straight from the item list

  function SumOf(items: seq<PaidItem>, code: string, kind: string): int
  {
    if items == [] then 0
    else
      var it := items[|items| - 1];
      SumOf(items[..|items| - 1], code, kind) + (if it.currency == code && it.kind == kind then it.price else 0)
  }

  function CountOf(items: seq<PaidItem>, code: string, kind: string): nat
  {
    if items == [] then 0
    else
      var it := items[|items| - 1];
      CountOf(items[..|items| - 1], code, kind) + (if it.currency == code && it.kind == kind then 1 else 0)
  }

  function SumOfCurrency(items: seq<PaidItem>, code: string): int
  {
    if items == [] then 0
    else
      var it := items[|items| - 1];
      SumOfCurrency(items[..|items| - 1], code) + (if it.currency == code then it.price else 0)
  }

  // ---------------------------------------------------------------------
  // One step

  lemma {:induction false} AddToTypesFind(types: seq<TypeTotal>, kind: string, price: int, k: string)
    ensures FindType(AddToTypes(types, kind, price), k)
         == if k != kind then FindType(types, k)
            else match FindType(types, kind)
              case None => Some(TypeTotal(kind, price, 1))
              case Some(t) => Some(t.(total := t.total + price, count := t.count + 1))
  {
    if types == [] {
    } else if types[0].kind == kind {
      var r := AddToTypes(types, kind, price);
      assert r[0] == types[0].(total := types[0].total + price, count := types[0].count + 1);
      assert r[1..] == types[1..];
    } else {
      var r := AddToTypes(types, kind, price);
      assert r[0] == types[0] && r[1..] == AddToTypes(types[1..], kind, price);
      AddToTypesFind(types[1..], kind, price, k);
    }
  }

  lemma {:induction false} AddToTypesSum(types: seq<TypeTotal>, kind: string, price: int)
    ensures SumTotals(AddToTypes(types, kind, price)) == SumTotals(types) + price
  {
    if types != [] && types[0].kind != kind {
      AddToTypesSum(types[1..], kind, price);
    }
  }

  lemma {:induction false} AddToGroupsTypes(groups: seq<CurrencyGroup>, item: PaidItem, code: string)
    ensures TypesOf(AddToGroups(groups, item), code)
         == if code == item.currency then AddToTypes(TypesOf(groups, code), item.kind, item.price)
            else TypesOf(groups, code)
  {
    if groups != [] && groups[0].code != item.currency {
      AddToGroupsTypes(groups[1..], item, code);
    }
  }

  lemma {:induction false} AddToGroupsHas(groups: seq<CurrencyGroup>, item: PaidItem, code: string)
    ensures HasGroup(AddToGroups(groups, item), code) <==> HasGroup(groups, code) || code == item.currency
  {
    if groups != [] && groups[0].code != item.currency {
      AddToGroupsHas(groups[1..], item, code);
    }
  }

  lemma {:induction false} AddToGroupsDistinct(groups: seq<CurrencyGroup>, item: PaidItem)
    requires DistinctCodes(groups)
    ensures DistinctCodes(AddToGroups(groups, item))
  {
    if groups != [] && groups[0].code != item.currency {
      AddToGroupsDistinct(groups[1..], item);
      AddToGroupsHas(groups[1..], item, groups[0].code);
    }
  }

  // ---------------------------------------------------------------------
  // The calculator agrees with the reference

  /**
   * For every currency and type, the group the calculator builds holds
   * exactly the sum and the number of the paid items of that currency and
   * type, and there is no group for a pair with no item.
   */
  lemma {:induction false} GroupedTypeTotals(items: seq<PaidItem>, code: string, kind: string)
    ensures FindType(TypesOf(Grouped(items), code), kind)
         == if CountOf(items, code, kind) == 0 then None
            else Some(TypeTotal(kind, SumOf(items, code, kind), CountOf(items, code, kind)))
  {
    if items != [] {
      var init := items[..|items| - 1];
      var it := items[|items| - 1];
      GroupedTypeTotals(init, code, kind);
      AddToGroupsTypes(Grouped(init), it, code);
      if code == it.currency {
        AddToTypesFind(TypesOf(Grouped(init), code), it.kind, it.price, kind);
        if it.kind == kind {
          FindTypeKind(TypesOf(Grouped(init), code), kind);
          CountZeroSumZero(init, code, kind);
        }
      }
    }
  }

  lemma {:induction false} CountZeroSumZero(items: seq<PaidItem>, code: string, kind: string)
    ensures CountOf(items, code, kind) == 0 ==> SumOf(items, code, kind) == 0
  {
    if items != [] {
      CountZeroSumZero(items[..|items| - 1], code, kind);
    }
  }

  lemma {:induction false} FindTypeKind(types: seq<TypeTotal>, kind: string)
    ensures FindType(types, kind).Some? ==> FindType(types, kind).value.kind == kind
  {
    if types != [] && types[0].kind != kind {
      FindTypeKind(types[1..], kind);
    }
  }

  /** A currency's displayed total is the sum of the prices of its paid items. */
  lemma {:induction false} GroupedCurrencyTotal(items: seq<PaidItem>, code: string)
    ensures SumTotals(TypesOf(Grouped(items), code)) == SumOfCurrency(items, code)
  {
    if items != [] {
      var init := items[..|items| - 1];
      var it := items[|items| - 1];
      GroupedCurrencyTotal(init, code);
      AddToGroupsTypes(Grouped(init), it, code);
      if code == it.currency {
        AddToTypesSum(TypesOf(Grouped(init), code), it.kind, it.price);
      }
    }
  }

  /**
   * There is one group per currency that occurs among the paid items and
   * no other, and the empty state is shown exactly when nothing is paid.
   */
  lemma {:induction false} GroupedCurrencies(items: seq<PaidItem>, code: string)
    ensures HasGroup(Grouped(items), code) <==> exists i :: 0 <= i < |items| && items[i].currency == code
    ensures DistinctCodes(Grouped(items))
    ensures Grouped(items) == [] <==> items == []
  {
    if items != [] {
      var init := items[..|items| - 1];
      var it := items[|items| - 1];
      GroupedCurrencies(init, code);
      AddToGroupsHas(Grouped(init), it, code);
      AddToGroupsDistinct(Grouped(init), it);
      AddToGroupsNonEmpty(Grouped(init), it);
      if exists i :: 0 <= i < |items| && items[i].currency == code {
        var i :| 0 <= i < |items| && items[i].currency == code;
        if i < |init| {
          assert init[i].currency == code;
        }
      }
      if exists i :: 0 <= i < |init| && init[i].currency == code {
        var i :| 0 <= i < |init| && init[i].currency == code;
        assert items[i].currency == code;
      }
    }
  }

  lemma AddToGroupsNonEmpty(groups: seq<CurrencyGroup>, item: PaidItem)
    ensures AddToGroups(groups, item) != []
  {
  }

  // ---------------------------------------------------------------------
  // The loops of the calculator

  /**
   * The two passes of the calculator: collect the paid activities day by
   * day, then add each to its currency and type group.
   */
  method Tally(days: seq<Day>) returns (paid: seq<PaidItem>, groups: seq<CurrencyGroup>)
    ensures paid == PaidItems(days)
    ensures groups == Grouped(paid)
  {
    paid := [];
    var d := 0;
    while d < |days|
      invariant 0 <= d <= |days|
      invariant paid == PaidItems(days[..d])
    {
      var acts := days[d].activities;
      var before := paid;
      var k := 0;
      while k < |acts|
        invariant 0 <= k <= |acts|
        invariant paid == before + PaidIn(acts[..k])
      {
        var a := acts[k];
        if a.budget == "Paid" && a.price.Some? && a.price.value != 0 && a.currency != "" {
          paid := paid + [PaidItem(a.kind, a.name, a.price.value, a.currency)];
        }
        assert acts[..k + 1][..k] == acts[..k];
        k := k + 1;
      }
      assert acts[..k] == acts;
      assert days[..d + 1][..d] == days[..d];
      d := d + 1;
    }
    assert days[..d] == days;
    groups := [];
    var i := 0;
    while i < |paid|
      invariant 0 <= i <= |paid|
      invariant groups == Grouped(paid[..i])
    {
      groups := AddToGroups(groups, paid[i]);
      assert paid[..i + 1][..i] == paid[..i];
      i := i + 1;
    }
    assert paid[..i] == paid;
  }

  /** `Object.keys(groups).sort()`: the currency sections in display order. */
  function ByCode(groups: seq<CurrencyGroup>): (r: seq<CurrencyGroup>)
    ensures multiset(r) == multiset(groups)
  {
    SortByText(groups, (g: CurrencyGroup) => g.code)
  }

  /** `Object.keys(types).sort()`: the type rows of one currency in display order. */
  function ByKind(types: seq<TypeTotal>): (r: seq<TypeTotal>)
    ensures multiset(r) == multiset(types)
  {
    SortByText(types, (t: TypeTotal) => t.kind)
  }

  /** The currency sections appear in ascending code order, one per currency. */
  lemma ByCodeSorted(groups: seq<CurrencyGroup>)
    ensures SortedByText(ByCode(groups), (g: CurrencyGroup) => g.code)
  {
    SortByTextSorted(groups, (g: CurrencyGroup) => g.code);
  }

  /** The type rows of a currency appear in ascending name order. */
  lemma ByKindSorted(types: seq<TypeTotal>)
    ensures SortedByText(ByKind(types), (t: TypeTotal) => t.kind)
  {
    SortByTextSorted(types, (t: TypeTotal) => t.kind);
  }
}
