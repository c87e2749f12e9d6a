/** The catalog filter panel of src/components/products/ProductFilters.tsx.
    The checkbox handlers build a new filter from the current one (the
    `filters` prop) and hand it to `onFilterChange`; here they return it.
    The panel's own state is the price range being edited. */
module ProductFilters {
  import opened Wrappers
  import opened Types

  /** `xs.filter(x => x !== id)`. */
  function Without(xs: seq<string>, id: string): (r: seq<string>)
    ensures id !in r
    ensures forall x :: x != id ==> multiset(r)[x] == multiset(xs)[x]
    ensures |r| <= |xs|
  {
    if xs == [] then []
    else
      assert xs == [xs[0]] + xs[1..];
      if xs[0] == id then Without(xs[1..], id)
      else [xs[0]] + Without(xs[1..], id)
  }

  /** Filtering distributes over concatenation, so the kept ids stay in order. */
  lemma {:induction false} WithoutConcat(a: seq<string>, b: seq<string>, id: string)
    ensures Without(a + b, id) == Without(a, id) + Without(b, id)
    decreases |a|
  {
    if a == [] {
      assert a + b == b;
    } else {
      assert (a + b)[0] == a[0];
      assert (a + b)[1..] == a[1..] + b;
      WithoutConcat(a[1..], b, id);
    }
  }

  /** Filtering out an id that is not there changes nothing. */
  lemma {:induction false} WithoutAbsent(xs: seq<string>, id: string)
    requires id !in xs
    ensures Without(xs, id) == xs
    decreases |xs|
  {
    if xs != [] {
      assert id !in xs[1..];
      WithoutAbsent(xs[1..], id);
      assert xs == [xs[0]] + xs[1..];
    }
  }

  /** Unchecking twice is unchecking once. */
  lemma WithoutIdempotent(xs: seq<string>, id: string)
    ensures Without(Without(xs, id), id) == Without(xs, id)
  {
    WithoutAbsent(Without(xs, id), id);
  }

  /** The shared body of the three checkbox handlers: append on check, remove
      every occurrence on uncheck, and store an empty list as undefined. */
  function ToggleList(current: Option<seq<string>>, id: string, checked: bool): (r: Option<seq<string>>)
    ensures r != Some([])
    ensures checked ==> r == Some(current.GetOr([]) + [id])
    ensures !checked ==> r.GetOr([]) == Without(current.GetOr([]), id)
  {
    var cur := current.GetOr([]);
    var next := if checked then cur + [id] else Without(cur, id);
    if |next| > 0 then Some(next) else None
  }

  /** Checking an id appends it at the end even when it is already selected:
      the list gains exactly one occurrence of it and nothing else. */
  lemma CheckAppendsWithoutDedup(current: Option<seq<string>>, id: string)
    ensures ToggleList(current, id, true).Some?
    ensures var after := ToggleList(current, id, true).value;
            after[..|after| - 1] == current.GetOr([]) && after[|after| - 1] == id &&
            multiset(after)[id] == multiset(current.GetOr([]))[id] + 1
  {
    var cur := current.GetOr([]);
    assert (cur + [id])[..|cur|] == cur;
  }

  /** Unchecking leaves no occurrence of the id and keeps every other id as
      often as it was there. */
  lemma UncheckRemovesAll(current: Option<seq<string>>, id: string, other: string)
    requires other != id
    ensures id !in ToggleList(current, id, false).GetOr([])
    ensures multiset(ToggleList(current, id, false).GetOr([]))[other] == multiset(current.GetOr([]))[other]
  {
  }

  /** A field as `{...filters}` would show it with empty lists undefined. */
  function Normalised(field: Option<seq<string>>): Option<seq<string>> {
    if field == Some([]) then None else field
  }

  /** For an id not yet selected, unchecking after checking restores the
      field (an empty list comes back undefined). */
  lemma CheckThenUncheckRestores(current: Option<seq<string>>, id: string)
    requires id !in current.GetOr([])
    ensures ToggleList(ToggleList(current, id, true), id, false) == Normalised(current)
  {
    var cur := current.GetOr([]);
    WithoutConcat(cur, [id], id);
    WithoutAbsent(cur, id);
    assert Without([id], id) == [];
    assert Without(cur + [id], id) == cur;
  }

  /** Unchecking is idempotent. */
  lemma UncheckIdempotent(current: Option<seq<string>>, id: string)
    ensures ToggleList(ToggleList(current, id, false), id, false) == ToggleList(current, id, false)
  {
    WithoutIdempotent(current.GetOr([]), id);
  }

  /** `handleCategoryChange`. */
  function HandleCategoryChange(filters: ProductFilter, categoryId: string, checked: bool): ProductFilter {
    filters.(categories := ToggleList(filters.categories, categoryId, checked))
  }

  /** `handleBrandChange`. */
  function HandleBrandChange(filters: ProductFilter, brand: string, checked: bool): ProductFilter {
    filters.(brands := ToggleList(filters.brands, brand, checked))
  }

  /** `handleConditionChange`. */
  function HandleConditionChange(filters: ProductFilter, condition: string, checked: bool): ProductFilter {
    filters.(conditions := ToggleList(filters.conditions, condition, checked))
  }

  /** Each toggle rewrites only its own list, and the brand and condition
      toggles treat their list exactly as the category toggle treats its own. */
  lemma TogglesTouchOnlyTheirField(f: ProductFilter, id: string, checked: bool)
    ensures var g := HandleCategoryChange(f, id, checked);
            g.brands == f.brands && g.conditions == f.conditions && g.compatibility == f.compatibility &&
            g.minPrice == f.minPrice && g.maxPrice == f.maxPrice
    ensures var g := HandleBrandChange(f, id, checked);
            g.categories == f.categories && g.conditions == f.conditions && g.compatibility == f.compatibility &&
            g.minPrice == f.minPrice && g.maxPrice == f.maxPrice
    ensures var g := HandleConditionChange(f, id, checked);
            g.categories == f.categories && g.brands == f.brands && g.compatibility == f.compatibility &&
            g.minPrice == f.minPrice && g.maxPrice == f.maxPrice
    ensures HandleBrandChange(f, id, checked).brands ==
            HandleCategoryChange(f.(categories := f.brands), id, checked).categories
    ensures HandleConditionChange(f, id, checked).conditions ==
            HandleCategoryChange(f.(categories := f.conditions), id, checked).categories
  {
  }

  const PriceCeiling := 100000.0

  /** The bounds typed into the two price inputs. */
  datatype PriceRange = PriceRange(min: real, max: real)

  const FullRange := PriceRange(0.0, PriceCeiling)

  /** The initial range, `filters.minPrice || 0` and `filters.maxPrice || 100000`:
      an undefined or zero bound falls back. */
  function InitialRange(filters: ProductFilter): (r: PriceRange)
    ensures r.min == filters.minPrice.GetOr(0.0)
    ensures r.max == (if filters.maxPrice.None? || filters.maxPrice.value == 0.0 then PriceCeiling else filters.maxPrice.value)
  {
    PriceRange(
      if filters.minPrice.Some? && filters.minPrice.value != 0.0 then filters.minPrice.value else 0.0,
      if filters.maxPrice.Some? && filters.maxPrice.value != 0.0 then filters.maxPrice.value else PriceCeiling)
  }

  /** `handlePriceChange`: a bound is kept only when it actually narrows the
      range (min above 0, max below 100000); everything else is kept. */
  function ApplyPrice(filters: ProductFilter, range: PriceRange): (r: ProductFilter)
    ensures r.minPrice.Some? <==> range.min > 0.0
    ensures r.minPrice.Some? ==> r.minPrice.value == range.min
    ensures r.maxPrice.Some? <==> range.max < PriceCeiling
    ensures r.maxPrice.Some? ==> r.maxPrice.value == range.max
    ensures r.(minPrice := filters.minPrice, maxPrice := filters.maxPrice) == filters
  {
    filters.(minPrice := if range.min > 0.0 then Some(range.min) else None,
             maxPrice := if range.max < PriceCeiling then Some(range.max) else None)
  }

  /** A range inside [0, 100000] with a positive maximum survives being
      applied and read back as the initial range. */
  lemma ApplyThenReadBack(filters: ProductFilter, range: PriceRange)
    requires 0.0 <= range.min && 0.0 < range.max <= PriceCeiling
    ensures InitialRange(ApplyPrice(filters, range)) == range
  {
  }

  /** A maximum of 0 is applied as a bound but, being falsy, reads back as the
      full 100000. */
  lemma ZeroMaxReadsBackUnbounded(filters: ProductFilter)
    ensures ApplyPrice(filters, PriceRange(0.0, 0.0)).maxPrice == Some(0.0)
    ensures InitialRange(ApplyPrice(filters, PriceRange(0.0, 0.0))).max == PriceCeiling
  {
  }

  /** `hasActiveFilters`: some key of the filter holds a defined value. */
  predicate HasActiveFilters(f: ProductFilter) {
    f.categories.Some? || f.brands.Some? || f.minPrice.Some? || f.maxPrice.Some? ||
    f.conditions.Some? || f.compatibility.Some?
  }

  /** Some filter is active exactly when the filter is not the empty `{}`. */
  lemma ActiveIffNotEmpty(f: ProductFilter)
    ensures HasActiveFilters(f) <==> f != EmptyFilter
  {
  }

  /** The panel's local state: the price range being edited. */
  class FilterPanel {
    var priceMin: real
    var priceMax: real

    function Range(): PriceRange
      reads this
    {
      PriceRange(priceMin, priceMax)
    }

    /** Mounting the panel with the current filters. */
    constructor (filters: ProductFilter)
      ensures Range() == InitialRange(filters)
    {
      var r := InitialRange(filters);
      priceMin, priceMax := r.min, r.max;
    }

    /** Typing into the minimum input. */
    method SetMin(value: real)
      modifies this
      ensures Range() == old(Range()).(min := value)
    {
      priceMin := value;
    }

    /** Typing into the maximum input. */
    method SetMax(value: real)
      modifies this
      ensures Range() == old(Range()).(max := value)
    {
      priceMax := value;
    }

    /** The Apply button: emits the filters with the normalised price bounds. */
    method HandlePriceChange(filters: ProductFilter) returns (emitted: ProductFilter)
      ensures emitted == ApplyPrice(filters, Range())
      ensures emitted.minPrice.Some? ==> emitted.minPrice.value > 0.0
      ensures emitted.maxPrice.Some? ==> emitted.maxPrice.value < PriceCeiling
    {
      emitted := ApplyPrice(filters, Range());
    }

    /** `clearAllFilters`: the range goes back to [0, 100000] and `{}` is emitted. */
    method ClearAllFilters() returns (emitted: ProductFilter)
      modifies this
      ensures Range() == FullRange
      ensures emitted == EmptyFilter && !HasActiveFilters(emitted)
    {
      priceMin, priceMax := 0.0, PriceCeiling;
      emitted := EmptyFilter;
    }
  }

  /** After clearing, applying the untouched range emits no price bound. */
  lemma ClearedRangeAppliesNothing(filters: ProductFilter)
    ensures ApplyPrice(filters, FullRange).minPrice.None?
    ensures ApplyPrice(filters, FullRange).maxPrice.None?
    ensures ApplyPrice(EmptyFilter, FullRange) == EmptyFilter
  {
  }
}
