// InventoryManager: the inventory screen. It keeps the shop's products as
// the Firestore listener last delivered them, shows the ones that pass the
// category, manufacturer and search filters in the chosen order, sums the
// shown stock and its value, and edits one product at a time. The dropdown
// and input widgets are fields holding what they show; the culture's
// lower-casing and string order, and the "N0" rendering of a number, are
// parameters.
module Inventory {
  import opened Wrappers
  import opened DotNetText
  import opened Products
  import Sorting
  import SalesFinalize

  const AllCategories: string := "Tất cả Danh mục"
  const AllManufacturers: string := "Tất cả Nhà sản xuất"
  const NotFoundMsg: string := "Không tìm thấy sản phẩm phù hợp với bộ lọc/tìm kiếm."
  const EmptyMsg: string := "Kho trống. Vui lòng thêm sản phẩm hoặc tạo từ kho mẫu."

  // ---------------------------------------------------------------------
  // Filters

  /** What a filter dropdown asks for: nothing, products whose field equals
      the selected label (C# string equality, so a null label selects the
      products without the field), or a selection past the options, where
      reading the label throws. */
  datatype Choice = NoFilter | Equal(selected: Option<string>) | PastOptions

  /** The dropdown filters only when its value is above 0 and its label is
      not the "all" entry. */
  function Choose(value: int, options: seq<Option<string>>, allLabel: string): (c: Choice)
    ensures c.Equal? <==> 0 < value < |options| && options[value] != Some(allLabel)
    ensures c.Equal? ==> c.selected == options[value]
    ensures c.PastOptions? <==> value > 0 && value >= |options|
  {
    if value <= 0 then NoFilter
    else if value >= |options| then PastOptions
    else if options[value] == Some(allLabel) then NoFilter
    else Equal(options[value])
  }

  predicate Keeps(c: Choice, field: Option<string>)
  {
    c.Equal? ==> field == c.selected
  }

  /** The search clause reads `productName.ToLower()` and, when the name
      does not match, `barcode.ToLower()`; a null one of these throws. */
  predicate SearchThrows(p: Product, lowered: string, lower: char -> char)
  {
    p.productName.None? || (!FieldContains(p.productName, lowered, lower) && p.barcode.None?)
  }

  predicate SearchKeeps(p: Product, lowered: string, lower: char -> char)
  {
    FieldContains(p.productName, lowered, lower) || FieldContains(p.barcode, lowered, lower)
  }

  /** All three filters: a product is shown exactly when this holds. */
  predicate Passes(p: Product, c: Choice, m: Choice, searchText: string, lower: char -> char)
  {
    Keeps(c, p.category) && Keeps(m, p.manufacturer)
    && (searchText == "" || SearchKeeps(p, MapChars(lower, searchText), lower))
  }

  // ---------------------------------------------------------------------
  // Sorting

  /** OrderBy on a string key: null sorts before every string. */
  function NullFirst(le: (string, string) -> bool): (Option<string>, Option<string>) -> bool
  {
    (a: Option<string>, b: Option<string>) => NameLe(a, b, le)
  }

  lemma NullFirstPreorder(le: (string, string) -> bool)
    requires Sorting.TotalPreorder(le)
    ensures Sorting.TotalPreorder(NullFirst(le))
  {
  }

  function ByPrice(): (Product, Product) -> bool
  {
    (a: Product, b: Product) => a.price <= b.price
  }

  function ByStock(): (Product, Product) -> bool
  {
    (a: Product, b: Product) => a.stock <= b.stock
  }

  function ById(le: (string, string) -> bool): (Product, Product) -> bool
  {
    (a: Product, b: Product) => NameLe(a.productId, b.productId, le)
  }

  /** The comparison behind sort options 0 to 6: name ascending and
      descending, price ascending and descending, stock ascending and
      descending, and newest (product id descending); any other value
      sorts nothing. */
  function SortOrder(option: int, le: (string, string) -> bool): Option<(Product, Product) -> bool>
  {
    if option == 0 then Some(ByName(le))
    else if option == 1 then Some(Sorting.Flip(ByName(le)))
    else if option == 2 then Some(ByPrice())
    else if option == 3 then Some(Sorting.Flip(ByPrice()))
    else if option == 4 then Some(ByStock())
    else if option == 5 then Some(Sorting.Flip(ByStock()))
    else if option == 6 then Some(Sorting.Flip(ById(le)))
    else None
  }

  lemma SortOrderPreorder(option: int, le: (string, string) -> bool)
    requires Sorting.TotalPreorder(le)
    ensures SortOrder(option, le).Some? <==> 0 <= option <= 6
    ensures SortOrder(option, le).Some? ==> Sorting.TotalPreorder(SortOrder(option, le).value)
  {
    ByNamePreorder(le);
    Sorting.FlipPreorder(ByName(le));
    Sorting.FlipPreorder(ByPrice());
    Sorting.FlipPreorder(ByStock());
    assert Sorting.TotalPreorder(ById(le));
    Sorting.FlipPreorder(ById(le));
  }

  // ---------------------------------------------------------------------
  // ApplyFiltersAndSearch

  /** The products left by the two dropdown filters, in list order. */
  function Dropdowned(all: seq<Product>, c: Choice, m: Choice): seq<Product>
  {
    var byCategory := Sorting.Filter((p: Product) => Keeps(c, p.category), all);
    Sorting.Filter((p: Product) => Keeps(m, p.manufacturer), byCategory)
  }

  /** The products the search keeps among those the dropdowns leave. */
  function Hits(all: seq<Product>, c: Choice, m: Choice, searchText: string, lower: char -> char): seq<Product>
  {
    var candidates := Dropdowned(all, c, m);
    if searchText == "" then candidates
    else Sorting.Filter((p: Product) => SearchKeeps(p, MapChars(lower, searchText), lower), candidates)
  }

  /** Whether the search throws on some product the dropdowns leave. */
  predicate SearchFails(all: seq<Product>, c: Choice, m: Choice, searchText: string, lower: char -> char)
  {
    var candidates := Dropdowned(all, c, m);
    searchText != ""
    && exists i :: 0 <= i < |candidates| && SearchThrows(candidates[i], MapChars(lower, searchText), lower)
  }

  /** The list ApplyFiltersAndSearch shows, or None where it throws. */
  function Displayed(all: seq<Product>, categoryValue: int, categoryOptions: seq<Option<string>>,
                     manufacturerValue: int, manufacturerOptions: seq<Option<string>>,
                     searchText: string, sortOption: int,
                     lower: char -> char, le: (string, string) -> bool): Option<seq<Product>>
  {
    var c := Choose(categoryValue, categoryOptions, AllCategories);
    var m := Choose(manufacturerValue, manufacturerOptions, AllManufacturers);
    if c.PastOptions? || m.PastOptions? || SearchFails(all, c, m, searchText, lower) then None
    else
      var hits := Hits(all, c, m, searchText, lower);
      match SortOrder(sortOption, le)
      case None => Some(hits)
      case Some(order) => Some(Sorting.SortBy(hits, order))
  }

  /** The search throws exactly when some product that passes the dropdowns
      has a null name, or a non-matching name and a null barcode. */
  lemma SearchFailsIff(all: seq<Product>, c: Choice, m: Choice, searchText: string, lower: char -> char)
    ensures SearchFails(all, c, m, searchText, lower) <==>
              searchText != "" && exists p :: p in all && Keeps(c, p.category) && Keeps(m, p.manufacturer)
                                              && SearchThrows(p, MapChars(lower, searchText), lower)
  {
    var candidates := Dropdowned(all, c, m);
    var byCategory := Sorting.Filter((p: Product) => Keeps(c, p.category), all);
    assert forall p :: p in candidates <==> p in byCategory && Keeps(m, p.manufacturer);
    assert forall p :: p in candidates <==> p in all && Keeps(c, p.category) && Keeps(m, p.manufacturer);
  }

  /** The search keeps, in list order, exactly the products that pass all
      three filters. */
  lemma HitsArePassing(all: seq<Product>, c: Choice, m: Choice, searchText: string, lower: char -> char)
    ensures Hits(all, c, m, searchText, lower)
            == Sorting.Filter((p: Product) => Passes(p, c, m, searchText, lower), all)
  {
    var lowered := MapChars(lower, searchText);
    var byC := (p: Product) => Keeps(c, p.category);
    var byM := (p: Product) => Keeps(m, p.manufacturer);
    var byS := (p: Product) => SearchKeeps(p, lowered, lower);
    var both := (p: Product) => Keeps(c, p.category) && Keeps(m, p.manufacturer);
    var pass := (p: Product) => Passes(p, c, m, searchText, lower);
    Sorting.FilterFilter(byC, byM, both, all);
    if searchText == "" {
      Sorting.FilterFilter(both, (p: Product) => true, pass, all);
      FilterAll(Sorting.Filter(both, all));
    } else {
      Sorting.FilterFilter(both, byS, pass, all);
    }
  }

  /** The list holds every product that passes the filters exactly as often
      as the inventory does, and nothing else; options 0 to 6 sort it and
      any other option keeps the inventory's order. It throws only for a
      selection past the options, or when a searched product that passes
      the dropdowns has a null name, or a non-matching name and a null
      barcode. */
  lemma DisplayedSpec(all: seq<Product>, categoryValue: int, categoryOptions: seq<Option<string>>,
                      manufacturerValue: int, manufacturerOptions: seq<Option<string>>,
                      searchText: string, sortOption: int,
                      lower: char -> char, le: (string, string) -> bool)
    requires Sorting.TotalPreorder(le)
    ensures var c := Choose(categoryValue, categoryOptions, AllCategories);
      var m := Choose(manufacturerValue, manufacturerOptions, AllManufacturers);
      var r := Displayed(all, categoryValue, categoryOptions, manufacturerValue, manufacturerOptions,
                         searchText, sortOption, lower, le);
      (r.None? <==>
         c.PastOptions? || m.PastOptions?
         || (searchText != "" && exists p :: p in all && Keeps(c, p.category) && Keeps(m, p.manufacturer)
                                             && SearchThrows(p, MapChars(lower, searchText), lower)))
      && (r.Some? ==>
            (forall p :: multiset(r.value)[p] == if Passes(p, c, m, searchText, lower) then multiset(all)[p] else 0)
            && match SortOrder(sortOption, le)
               case Some(order) => Sorting.SortedBy(r.value, order)
               case None => r.value == Sorting.Filter((p: Product) => Passes(p, c, m, searchText, lower), all))
  {
    var c := Choose(categoryValue, categoryOptions, AllCategories);
    var m := Choose(manufacturerValue, manufacturerOptions, AllManufacturers);
    SearchFailsIff(all, c, m, searchText, lower);
    HitsArePassing(all, c, m, searchText, lower);
    var pass := (p: Product) => Passes(p, c, m, searchText, lower);
    var hits := Hits(all, c, m, searchText, lower);
    forall p
      ensures multiset(hits)[p] == if Passes(p, c, m, searchText, lower) then multiset(all)[p] else 0
    {
      Sorting.FilterCount(pass, all, p);
    }
    SortOrderPreorder(sortOption, le);
    if SortOrder(sortOption, le).Some? {
      Sorting.SortBySorted(hits, SortOrder(sortOption, le).value);
    }
  }

  lemma {:induction false} FilterAll(s: seq<Product>)
    ensures Sorting.Filter((p: Product) => true, s) == s
  {
    if s != [] {
      FilterAll(s[1..]);
    }
  }

  // ---------------------------------------------------------------------
  // Summary

  /** Σ stock over a product list. */
  function StockTotal(ps: seq<Product>): int
  {
    if ps == [] then 0 else StockTotal(ps[..|ps| - 1]) + ps[|ps| - 1].stock
  }

  lemma {:induction false} StockTotalConcat(a: seq<Product>, b: seq<Product>)
    ensures StockTotal(a + b) == StockTotal(a) + StockTotal(b)
    decreases |b|
  {
    if b == [] {
      assert a + b == a;
    } else {
      assert (a + b)[..|a + b| - 1] == a + b[..|b| - 1];
      StockTotalConcat(a, b[..|b| - 1]);
    }
  }

  /** The stock total does not depend on the order of the list. */
  lemma {:induction false} StockTotalPermutation(a: seq<Product>, b: seq<Product>)
    requires multiset(a) == multiset(b)
    ensures StockTotal(a) == StockTotal(b)
    decreases |a|
  {
    if a != [] {
      var x := a[|a| - 1];
      assert a == a[..|a| - 1] + [x];
      assert x in multiset(b);
      var j :| 0 <= j < |b| && b[j] == x;
      assert b == b[..j] + [x] + b[j + 1..];
      var rest := b[..j] + b[j + 1..];
      assert multiset(b) == multiset(b[..j]) + multiset{x} + multiset(b[j + 1..]);
      assert multiset(a) == multiset(a[..|a| - 1]) + multiset{x};
      assert multiset(rest) == multiset(b[..j]) + multiset(b[j + 1..]);
      assert multiset(a[..|a| - 1]) == multiset(a) - multiset{x};
      assert multiset(rest) == multiset(b) - multiset{x};
      StockTotalPermutation(a[..|a| - 1], rest);
      StockTotalConcat(b[..j] + [x], b[j + 1..]);
      StockTotalConcat(b[..j], [x]);
      StockTotalConcat(b[..j], b[j + 1..]);
      assert ([] + [x])[..0] == [];
    } else {
      assert |b| == 0;
    }
  }

  /** The status line for `shown` products out of `total`. */
  function StatusText(shown: nat, total: nat): string
  {
    if shown == 0 && total > 0 then NotFoundMsg
    else if shown == 0 && total == 0 then EmptyMsg
    else "Hiển thị " + LongToString(shown) + " sản phẩm."
  }

  /** The totals shown do not depend on the sort option: every option shows
      the same value and quantity. */
  lemma SummaryIgnoresSort(all: seq<Product>, categoryValue: int, categoryOptions: seq<Option<string>>,
                           manufacturerValue: int, manufacturerOptions: seq<Option<string>>,
                           searchText: string, option1: int, option2: int,
                           lower: char -> char, le: (string, string) -> bool)
    requires Sorting.TotalPreorder(le)
    ensures var r1 := Displayed(all, categoryValue, categoryOptions, manufacturerValue, manufacturerOptions,
                                searchText, option1, lower, le);
      var r2 := Displayed(all, categoryValue, categoryOptions, manufacturerValue, manufacturerOptions,
                          searchText, option2, lower, le);
      r1.Some? == r2.Some?
      && (r1.Some? ==>
            |r1.value| == |r2.value|
            && SalesFinalize.Subtotal(r1.value) == SalesFinalize.Subtotal(r2.value)
            && StockTotal(r1.value) == StockTotal(r2.value))
  {
    var r1 := Displayed(all, categoryValue, categoryOptions, manufacturerValue, manufacturerOptions,
                        searchText, option1, lower, le);
    var r2 := Displayed(all, categoryValue, categoryOptions, manufacturerValue, manufacturerOptions,
                        searchText, option2, lower, le);
    DisplayedSpec(all, categoryValue, categoryOptions, manufacturerValue, manufacturerOptions,
                  searchText, option1, lower, le);
    DisplayedSpec(all, categoryValue, categoryOptions, manufacturerValue, manufacturerOptions,
                  searchText, option2, lower, le);
    if r1.Some? {
      assert multiset(r1.value) == multiset(r2.value);
      assert |r1.value| == |multiset(r1.value)|;
      SalesFinalize.SubtotalPermutation(r1.value, r2.value);
      StockTotalPermutation(r1.value, r2.value);
    }
  }

  // ---------------------------------------------------------------------
  // Filter dropdowns

  /** Select(p => p.category). */
  function Categories(all: seq<Product>): (r: seq<Option<string>>)
    ensures |r| == |all| && forall i :: 0 <= i < |all| ==> r[i] == all[i].category
  {
    if all == [] then [] else [all[0].category] + Categories(all[1..])
  }

  /** Select(p => p.manufacturer). */
  function Manufacturers(all: seq<Product>): (r: seq<Option<string>>)
    ensures |r| == |all| && forall i :: 0 <= i < |all| ==> r[i] == all[i].manufacturer
  {
    if all == [] then [] else [all[0].manufacturer] + Manufacturers(all[1..])
  }

  /** A filter dropdown's options: the "all" entry, then the distinct
      values of the field sorted with null first. */
  function FilterOptions(allLabel: string, values: seq<Option<string>>,
                         le: (string, string) -> bool): seq<Option<string>>
  {
    [Some(allLabel)] + Sorting.SortBy(Sorting.Distinct(values), NullFirst(le))
  }

  /** After the "all" entry each value some product holds appears exactly
      once, in order, and nothing else appears. */
  lemma FilterOptionsSpec(allLabel: string, values: seq<Option<string>>, le: (string, string) -> bool)
    requires Sorting.TotalPreorder(le)
    ensures var o := FilterOptions(allLabel, values, le);
      |o| >= 1 && o[0] == Some(allLabel)
      && Sorting.SortedBy(o[1..], NullFirst(le))
      && forall x :: multiset(o[1..])[x] == if x in values then 1 else 0
  {
    NullFirstPreorder(le);
    Sorting.SortedDistinct(values, NullFirst(le));
    var o := FilterOptions(allLabel, values, le);
    assert o[1..] == Sorting.SortBy(Sorting.Distinct(values), NullFirst(le));
  }

  // ---------------------------------------------------------------------
  // Editing one product

  /** The edit panel's input texts. */
  datatype EditForm = EditForm(name: string, unit: string, price: string, importPrice: string,
                               barcode: string, imageUrl: string, stock: string,
                               category: string, manufacturer: string)

  /** HandleEditProductRequest fills the inputs; a null string shows as "". */
  function FormOf(p: Product): EditForm
  {
    EditForm(OrEmpty(p.productName), OrEmpty(p.unit), LongToString(p.price),
             LongToString(p.importPrice), OrEmpty(p.barcode), OrEmpty(p.imageUrl),
             LongToString(p.stock), OrEmpty(p.category), OrEmpty(p.manufacturer))
  }

  /** SaveEditedProduct overwrites every field but the id from the inputs;
      a number that does not parse becomes 0. */
  function Edited(p: Product, f: EditForm): Product
  {
    Product(p.productId, Some(f.name), Some(f.unit), ParseLongOrZero(f.price),
            ParseLongOrZero(f.importPrice), Some(f.barcode), Some(f.imageUrl),
            ParseLongOrZero(f.stock), Some(f.category), Some(f.manufacturer))
  }

  /** Saving the form as it was filled changes nothing but null strings,
      which become "". */
  lemma EditRoundTrip(p: Product)
    requires InLongRange(p.price) && InLongRange(p.importPrice) && InLongRange(p.stock)
    ensures Edited(p, FormOf(p))
            == p.(productName := Some(OrEmpty(p.productName)), unit := Some(OrEmpty(p.unit)),
                  barcode := Some(OrEmpty(p.barcode)), imageUrl := Some(OrEmpty(p.imageUrl)),
                  category := Some(OrEmpty(p.category)), manufacturer := Some(OrEmpty(p.manufacturer)))
  {
    ParseLongToString(p.price);
    ParseLongToString(p.importPrice);
    ParseLongToString(p.stock);
  }

  /** The saved product depends on the old one only through its id. */
  lemma EditedForgetsOld(p: Product, q: Product, f: EditForm)
    requires p.productId == q.productId
    ensures Edited(p, f) == Edited(q, f)
    ensures Edited(p, f).productName == Some(f.name)
    ensures TryParseLong(f.price).None? ==> Edited(p, f).price == 0
    ensures TryParseLong(f.stock).None? ==> Edited(p, f).stock == 0
  {
  }

  datatype SaveOutcome = NotEditing | Offline | NameEmpty | Saved | SaveFailed

  class InventoryManager {
    /** allProducts, as the listener last delivered them. */
    var allProducts: seq<Product>
    /** The list UpdateInventoryUI last showed. */
    var displayed: seq<Product>
    var categoryValue: int
    var categoryOptions: seq<Option<string>>
    var manufacturerValue: int
    var manufacturerOptions: seq<Option<string>>
    var searchText: string
    var sortOption: int
    var valueText: string
    var quantityText: string
    var statusText: string
    /** currentEditingProduct, and the edit panel's state. */
    var editing: ProductData?
    var editPanelActive: bool
    var form: EditForm
    /** The products SetAsync stored, in order. */
    var saved: seq<Product>

    /** The screen before the listener fires; PopulateSortDropdown selects
        option 0. */
    constructor()
      ensures allProducts == [] && displayed == [] && editing == null && saved == []
      ensures categoryOptions == [] && manufacturerOptions == [] && sortOption == 0
      ensures categoryValue == 0 && manufacturerValue == 0 && searchText == ""
    {
      allProducts := [];
      displayed := [];
      categoryValue := 0;
      categoryOptions := [];
      manufacturerValue := 0;
      manufacturerOptions := [];
      searchText := "";
      sortOption := 0;
      valueText := "";
      quantityText := "";
      statusText := "";
      editing := null;
      editPanelActive := false;
      form := EditForm("", "", "", "", "", "", "", "", "");
      saved := [];
    }

    /** The summary loop over the shown products and the status line. */
    method CalculateInventorySummary(products: seq<Product>, n0: int -> string)
      modifies this`valueText, this`quantityText, this`statusText
      ensures valueText == n0(SalesFinalize.Subtotal(products)) + " VNĐ"
      ensures quantityText == " " + n0(StockTotal(products))
      ensures statusText == StatusText(|products|, |allProducts|)
    {
      var totalValue := 0;
      var totalQuantity := 0;
      var i := 0;
      while i < |products|
        invariant 0 <= i <= |products|
        invariant totalValue == SalesFinalize.Subtotal(products[..i])
        invariant totalQuantity == StockTotal(products[..i])
      {
        assert products[..i + 1][..i] == products[..i];
        totalValue := totalValue + products[i].price * products[i].stock;
        totalQuantity := totalQuantity + products[i].stock;
        i := i + 1;
      }
      assert products[..i] == products;
      valueText := n0(totalValue) + " VNĐ";
      quantityText := " " + n0(totalQuantity);
      statusText := StatusText(|products|, |allProducts|);
    }

    /** Filters, sorts and shows the products; `threw` when the search or a
        dropdown read throws, which leaves the screen as it was. */
    method ApplyFiltersAndSearch(lower: char -> char, le: (string, string) -> bool, n0: int -> string)
      returns (shown: Option<seq<Product>>)
      modifies this`displayed, this`valueText, this`quantityText, this`statusText
      ensures shown == old(Displayed(allProducts, categoryValue, categoryOptions, manufacturerValue,
                                     manufacturerOptions, searchText, sortOption, lower, le))
      ensures shown.None? ==> displayed == old(displayed) && valueText == old(valueText)
                              && quantityText == old(quantityText) && statusText == old(statusText)
      ensures shown.Some? ==> displayed == shown.value
                              && valueText == n0(SalesFinalize.Subtotal(shown.value)) + " VNĐ"
                              && quantityText == " " + n0(StockTotal(shown.value))
                              && statusText == StatusText(|shown.value|, |allProducts|)
    {
      shown := Displayed(allProducts, categoryValue, categoryOptions, manufacturerValue,
                         manufacturerOptions, searchText, sortOption, lower, le);
      if shown.Some? {
        displayed := shown.value;
        CalculateInventorySummary(shown.value, n0);
      }
    }

    /** The dropdowns get the "all" entry and the distinct values; clearing
        a dropdown's options resets its value to 0. */
    method PopulateFilterDropdowns(le: (string, string) -> bool)
      modifies this`categoryOptions, this`categoryValue, this`manufacturerOptions, this`manufacturerValue
      ensures categoryOptions == FilterOptions(AllCategories, Categories(allProducts), le)
      ensures manufacturerOptions == FilterOptions(AllManufacturers, Manufacturers(allProducts), le)
      ensures categoryValue == 0 && manufacturerValue == 0
    {
      categoryOptions := FilterOptions(AllCategories, Categories(allProducts), le);
      manufacturerOptions := FilterOptions(AllManufacturers, Manufacturers(allProducts), le);
      categoryValue, manufacturerValue := 0, 0;
    }

    /** The listener's body: the new product list is filtered and shown,
        then the filter dropdowns are rebuilt, unless the filtering
        throws. */
    method OnProductsChanged(products: seq<Product>, lower: char -> char,
                             le: (string, string) -> bool, n0: int -> string)
      modifies this`allProducts, this`displayed, this`valueText, this`quantityText, this`statusText
      modifies this`categoryOptions, this`categoryValue, this`manufacturerOptions, this`manufacturerValue
      ensures allProducts == products
      ensures var r := old(Displayed(products, categoryValue, categoryOptions, manufacturerValue,
                                     manufacturerOptions, searchText, sortOption, lower, le));
        (r.Some? ==> displayed == r.value
                     && categoryOptions == FilterOptions(AllCategories, Categories(products), le)
                     && manufacturerOptions == FilterOptions(AllManufacturers, Manufacturers(products), le))
        && (r.None? ==> displayed == old(displayed) && categoryOptions == old(categoryOptions)
                        && manufacturerOptions == old(manufacturerOptions))
    {
      allProducts := products;
      var shown := ApplyFiltersAndSearch(lower, le, n0);
      if shown.Some? {
        PopulateFilterDropdowns(le);
      }
    }

    /** HandleEditProductRequest: the product to edit and its form. */
    method HandleEditProductRequest(product: ProductData)
      modifies this`editing, this`editPanelActive, this`form
      ensures editing == product && editPanelActive
      ensures form == FormOf(product.product)
    {
      editing := product;
      editPanelActive := true;
      form := FormOf(product.product);
    }

    /** SaveEditedProduct. Without a user, a collection path or a product
        it does nothing; offline it only warns. Otherwise it overwrites the
        product from the form before it checks the name, so a product
        rejected for an empty name stays changed in memory. `stored` is
        whether SetAsync succeeds. */
    method SaveEditedProduct(hasUser: bool, hasPath: bool, online: bool, stored: bool)
      returns (outcome: SaveOutcome)
      modifies this`saved, this`editPanelActive, editing
      ensures outcome == NotEditing <==> !hasUser || !hasPath || editing == null
      ensures outcome == Offline <==> hasUser && hasPath && editing != null && !online
      ensures outcome.NotEditing? || outcome.Offline? ==>
                saved == old(saved) && editPanelActive == old(editPanelActive)
                && (editing != null ==> editing.product == old(editing.product))
      ensures !outcome.NotEditing? && !outcome.Offline? ==> editing.product == Edited(old(editing.product), form)
      ensures outcome == NameEmpty <==> hasUser && hasPath && editing != null && online && form.name == ""
      ensures outcome == NameEmpty ==> saved == old(saved) && editPanelActive == old(editPanelActive)
      ensures outcome == Saved <==>
                hasUser && hasPath && editing != null && online && form.name != "" && stored
      ensures outcome == Saved ==> saved == old(saved) + [editing.product] && !editPanelActive
      ensures outcome == SaveFailed ==> saved == old(saved) && editPanelActive == old(editPanelActive)
    {
      if !hasUser || !hasPath || editing == null {
        return NotEditing;
      }
      if !online {
        return Offline;
      }
      editing.product := Edited(editing.product, form);
      if form.name == "" {
        return NameEmpty;
      }
      if stored {
        saved := saved + [editing.product];
        editPanelActive := false;
        outcome := Saved;
      } else {
        outcome := SaveFailed;
      }
    }
  }
}
