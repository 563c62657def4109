/**
 * Furniture recommendation by budget and residence type (the constraint filter): a filter over
 * the sample catalogue and a greedy bundle of at most one item per category within the budget.
 * Prices are whole won; the budget is in units of 10 000 won.
 */
module ConstraintFilter {
  import opened Wrappers
  import Selection

  /** 월세 (monthly rent), 전세 (lump-sum lease), 자가 (owner). */
  datatype ResidenceType = Monthly | Jeonse | Owned

  datatype Furniture = Furniture(
    id: string,
    name: string,
    price: int,
    category: string,
    tags: seq<string>,
    isRemovable: bool,   // no drilling needed
    imageUrl: string)

  datatype FilterOptions = FilterOptions(residenceType: ResidenceType, budget: int, moods: seq<string>)

  const WonPerBudgetUnit := 10000

  const SampleFurniture: seq<Furniture> := [
    Furniture("1", "무타공 벽선반 3단", 45000, "수납", ["minimal", "modern"], true,
      "https://images.unsplash.com/photo-1598300042247-d088f8ab3a91?w=200&h=200&fit=crop"),
    Furniture("2", "접착식 LED 조명", 25000, "조명", ["modern", "cozy"], true,
      "https://images.unsplash.com/photo-1507473885765-e6ed057f782c?w=200&h=200&fit=crop"),
    Furniture("3", "우드 책상 세트", 180000, "가구", ["wood", "natural"], false,
      "https://images.unsplash.com/photo-1518455027359-f3f8164ba6bd?w=200&h=200&fit=crop"),
    Furniture("4", "미니멀 행거", 89000, "수납", ["minimal", "modern"], true,
      "https://images.unsplash.com/photo-1558997519-83ea9252edf8?w=200&h=200&fit=crop"),
    Furniture("5", "빈티지 러그", 75000, "패브릭", ["vintage", "cozy"], true,
      "https://images.unsplash.com/photo-1600166898405-da9535204843?w=200&h=200&fit=crop")
  ]

  /** `tags.some((tag) => moods.includes(tag))`. */
  predicate SharesMood(tags: seq<string>, moods: seq<string>) {
    exists i :: 0 <= i < |tags| && tags[i] in moods
  }

  /** The filter callback, with its three early rejections in their order. */
  predicate Keeps(o: FilterOptions, f: Furniture) {
    if f.price > o.budget * WonPerBudgetUnit then false
    else if o.residenceType == Monthly && !f.isRemovable then false
    else if |o.moods| > 0 && !SharesMood(f.tags, o.moods) then false
    else true
  }

  function FilterItems(items: seq<Furniture>, o: FilterOptions): (r: seq<Furniture>)
    ensures Selection.IsSubsequence(r, items)
    ensures forall f :: f in r <==> f in items && Keeps(o, f)
  {
    if items == [] then []
    else if Keeps(o, items[0]) then [items[0]] + FilterItems(items[1..], o)
    else FilterItems(items[1..], o)
  }

  /** filterFurniture: the sample catalogue filtered. */
  function FilterFurniture(o: FilterOptions): seq<Furniture> {
    FilterItems(SampleFurniture, o)
  }

  /** The three constraints, stated one by one, and completeness: an item is returned exactly
      when it passes all three, in catalogue order. */
  lemma FilterFurnitureMeaning(o: FilterOptions)
    ensures var r := FilterFurniture(o);
      Selection.IsSubsequence(r, SampleFurniture) &&
      (forall f :: f in r ==> f.price <= o.budget * WonPerBudgetUnit) &&
      (o.residenceType == Monthly ==> forall f :: f in r ==> f.isRemovable) &&
      (|o.moods| > 0 ==> forall f :: f in r ==> SharesMood(f.tags, o.moods)) &&
      (forall f :: f in SampleFurniture ==>
        (f in r <==> f.price <= o.budget * WonPerBudgetUnit &&
                     (o.residenceType == Monthly ==> f.isRemovable) &&
                     (|o.moods| > 0 ==> SharesMood(f.tags, o.moods))))
  {
  }

  /** With no moods chosen, the mood constraint never rejects anything. */
  lemma NoMoodsNoMoodConstraint(o: FilterOptions, f: Furniture)
    requires o.moods == []
    ensures Keeps(o, f) <==> f.price <= o.budget * WonPerBudgetUnit && (o.residenceType == Monthly ==> f.isRemovable)
  {
  }

  const Categories := ["수납", "조명", "가구", "패브릭"]

  function Sum(items: seq<Furniture>): int {
    if items == [] then 0 else items[0].price + Sum(items[1..])
  }

  lemma {:induction false} SumAppend(items: seq<Furniture>, f: Furniture)
    ensures Sum(items + [f]) == Sum(items) + f.price
  {
    if items != [] {
      assert (items + [f])[1..] == items[1..] + [f];
      SumAppend(items[1..], f);
    }
  }

  predicate Affordable(f: Furniture, category: string, total: int, budgetWon: int) {
    f.category == category && total + f.price <= budgetWon
  }

  /** `affordable[0]` of the category: the index of the first item of that category that still fits. */
  function FirstAffordable(items: seq<Furniture>, category: string, total: int, budgetWon: int): (r: Option<nat>)
    ensures r.Some? ==> r.value < |items| && Affordable(items[r.value], category, total, budgetWon)
    ensures r.Some? ==> forall j :: 0 <= j < r.value ==> !Affordable(items[j], category, total, budgetWon)
    ensures r.None? ==> forall j :: 0 <= j < |items| ==> !Affordable(items[j], category, total, budgetWon)
  {
    if items == [] then None
    else if Affordable(items[0], category, total, budgetWon) then Some(0)
    else match FirstAffordable(items[1..], category, total, budgetWon)
      case None => None
      case Some(k) => Some(k + 1)
  }

  /** The greedy choice over the categories in order, with the running total. */
  function Greedy(items: seq<Furniture>, cats: seq<string>, budgetWon: int, total: int): seq<Furniture> {
    if cats == [] then []
    else match FirstAffordable(items, cats[0], total, budgetWon)
      case Some(k) => [items[k]] + Greedy(items, cats[1..], budgetWon, total + items[k].price)
      case None => Greedy(items, cats[1..], budgetWon, total)
  }

  function CategoriesOf(items: seq<Furniture>): (r: seq<string>)
    ensures |r| == |items|
    ensures forall i :: 0 <= i < |items| ==> r[i] == items[i].category
  {
    if items == [] then [] else [items[0].category] + CategoriesOf(items[1..])
  }

  /** The greedy bundle stays within budget, once it holds anything or when it starts within it. */
  lemma {:induction false} GreedyWithinBudget(items: seq<Furniture>, cats: seq<string>, budgetWon: int, total: int)
    ensures var g := Greedy(items, cats, budgetWon, total);
      (total <= budgetWon || g != []) ==> total + Sum(g) <= budgetWon
  {
    if cats != [] {
      match FirstAffordable(items, cats[0], total, budgetWon)
      case Some(k) =>
        GreedyWithinBudget(items, cats[1..], budgetWon, total + items[k].price);
      case None =>
        GreedyWithinBudget(items, cats[1..], budgetWon, total);
    }
  }

  /** Every chosen item comes from the list, and the chosen categories follow the category order. */
  lemma {:induction false} GreedyShape(items: seq<Furniture>, cats: seq<string>, budgetWon: int, total: int)
    ensures var g := Greedy(items, cats, budgetWon, total);
      (forall f :: f in g ==> f in items) && Selection.IsSubsequence(CategoriesOf(g), cats)
  {
    if cats != [] {
      var g := Greedy(items, cats, budgetWon, total);
      match FirstAffordable(items, cats[0], total, budgetWon)
      case Some(k) =>
        GreedyShape(items, cats[1..], budgetWon, total + items[k].price);
        assert CategoriesOf(g) == [cats[0]] + CategoriesOf(g[1..]);
      case None =>
        GreedyShape(items, cats[1..], budgetWon, total);
    }
  }

  /** A subsequence of a duplicate-free list is duplicate-free. */
  lemma {:induction false} SubsequenceDistinct(a: seq<string>, b: seq<string>)
    requires Selection.IsSubsequence(a, b) && Selection.Distinct(b)
    ensures Selection.Distinct(a)
    ensures forall x :: x in a ==> x in b
  {
    if a != [] {
      if Selection.IsSubsequence(a, b[1..]) {
        SubsequenceDistinct(a, b[1..]);
      } else {
        SubsequenceDistinct(a[1..], b[1..]);
        assert a[0] !in b[1..];
        Selection.DistinctCons(a[0], a[1..]);
        assert a == [a[0]] + a[1..];
      }
    }
  }

  /** generateFurnitureBundle: categories in the order 수납, 조명, 가구, 패브릭; for each, the first
      filtered item that fits what is left of the budget; the total kept as a running sum. */
  method GenerateFurnitureBundle(o: FilterOptions) returns (items: seq<Furniture>, totalPrice: int)
    ensures items == Greedy(FilterFurniture(o), Categories, o.budget * WonPerBudgetUnit, 0)
    ensures totalPrice == Sum(items)
  {
    items, totalPrice := PickPerCategory(FilterFurniture(o), Categories, o.budget * WonPerBudgetUnit);
  }

  /** The loop of generateFurnitureBundle over the filtered list and the category order. */
  method PickPerCategory(filtered: seq<Furniture>, categories: seq<string>, budgetWon: int)
    returns (items: seq<Furniture>, totalPrice: int)
    ensures items == Greedy(filtered, categories, budgetWon, 0)
    ensures totalPrice == Sum(items)
  {
    items, totalPrice := [], 0;
    assert categories[0..] == categories;
    for i := 0 to |categories|
      invariant items + Greedy(filtered, categories[i..], budgetWon, totalPrice) == Greedy(filtered, categories, budgetWon, 0)
      invariant totalPrice == Sum(items)
    {
      items, totalPrice := PickInCategory(filtered, categories, i, budgetWon, items, totalPrice);
    }
    assert categories[|categories|..] == [];
    assert items + [] == items;
  }

  /** One iteration of the bundle loop: the first affordable item of category i, if any, is
      pushed and its price added. */
  method PickInCategory(filtered: seq<Furniture>, categories: seq<string>, i: nat, budgetWon: int,
                        items: seq<Furniture>, totalPrice: int)
    returns (items': seq<Furniture>, totalPrice': int)
    requires i < |categories| && totalPrice == Sum(items)
    ensures items' + Greedy(filtered, categories[i + 1..], budgetWon, totalPrice') ==
            items + Greedy(filtered, categories[i..], budgetWon, totalPrice)
    ensures totalPrice' == Sum(items')
  {
    var pick := FirstAffordable(filtered, categories[i], totalPrice, budgetWon);
    GreedyAdvance(filtered, categories, i, budgetWon, items, totalPrice);
    items', totalPrice' := items, totalPrice;
    if pick.Some? {
      var selected := filtered[pick.value];
      SumAppend(items, selected);
      items' := items + [selected];
      totalPrice' := totalPrice + selected.price;
    }
  }

  /** What one iteration of the bundle loop does to the greedy remainder. */
  lemma GreedyAdvance(filtered: seq<Furniture>, cats: seq<string>, i: nat, budgetWon: int,
                      items: seq<Furniture>, total: int)
    requires i < |cats|
    ensures var pick := FirstAffordable(filtered, cats[i], total, budgetWon);
      items + Greedy(filtered, cats[i..], budgetWon, total) ==
        if pick.Some? then
          (items + [filtered[pick.value]]) +
            Greedy(filtered, cats[i + 1..], budgetWon, total + filtered[pick.value].price)
        else items + Greedy(filtered, cats[i + 1..], budgetWon, total)
  {
    assert cats[i..][1..] == cats[i + 1..];
    GreedyStep(filtered, cats[i..], budgetWon, total);
  }

  /** One step of the greedy choice: the first category's pick, then the rest. */
  lemma GreedyStep(items: seq<Furniture>, cats: seq<string>, budgetWon: int, total: int)
    requires cats != []
    ensures var pick := FirstAffordable(items, cats[0], total, budgetWon);
      Greedy(items, cats, budgetWon, total) ==
        if pick.Some? then [items[pick.value]] + Greedy(items, cats[1..], budgetWon, total + items[pick.value].price)
        else Greedy(items, cats[1..], budgetWon, total)
  {
  }

  /** What the bundle promises: its total is the sum of its prices and within the budget (when the
      budget is not negative); each item was filtered; at most one item per category, in category order. */
  lemma BundleProperties(o: FilterOptions)
    ensures var g := Greedy(FilterFurniture(o), Categories, o.budget * WonPerBudgetUnit, 0);
      (o.budget >= 0 || g != [] ==> Sum(g) <= o.budget * WonPerBudgetUnit) &&
      (forall f :: f in g ==> f in FilterFurniture(o)) &&
      Selection.IsSubsequence(CategoriesOf(g), Categories) &&
      Selection.Distinct(CategoriesOf(g))
  {
    var g := Greedy(FilterFurniture(o), Categories, o.budget * WonPerBudgetUnit, 0);
    GreedyWithinBudget(FilterFurniture(o), Categories, o.budget * WonPerBudgetUnit, 0);
    GreedyShape(FilterFurniture(o), Categories, o.budget * WonPerBudgetUnit, 0);
    SubsequenceDistinct(CategoriesOf(g), Categories);
  }

  /** getResidenceTypeMessage: one fixed message per residence type. */
  function ResidenceTypeMessage(t: ResidenceType): (m: string)
    ensures m != ""
  {
    match t
    case Monthly => "월세 거주자를 위한 무타공 상품 위주로 구성되었습니다"
    case Jeonse => "전세 거주자를 위한 반영구 설치 가능 상품을 추천드립니다"
    case Owned => "자유로운 시공이 가능한 다양한 상품을 추천드립니다"
  }

  /** Different residence types get different messages. */
  lemma ResidenceMessagesDistinct(a: ResidenceType, b: ResidenceType)
    ensures ResidenceTypeMessage(a) == ResidenceTypeMessage(b) <==> a == b
  {
  }
}
