/** `public/app.js`: the single-page admin panel. Modelled are the products table's
    rendered cells, the search and category filters that show and hide its rows, the
    category options, tab switching and logout. DOM nodes become sequences and arrays;
    requests, toasts' timing and the data each tab loads are left out. */
module AdminPanel {
  import opened Wrappers
  import opened Text
  import opened Database
  import opened Http

  // ---------------------------------------------------------------- rendering

  /** `description.substring(0, 50)` followed by `...` when the text is longer. */
  function DescriptionCell(description: string): (cell: string)
    ensures |description| <= 50 ==> cell == description
    ensures |description| > 50 ==> |cell| == 53 && cell[..50] == description[..50] && cell[50..] == "..."
  {
    Prefix(description, 50) + (if |description| > 50 then "..." else "")
  }

  datatype Badge = DangerBadge | SuccessBadge

  /** `badge-${product.stock < 10 ? 'danger' : 'success'}` */
  function StockBadge(stock: int): (b: Badge)
    ensures b == DangerBadge <==> stock < 10
  {
    if stock < 10 then DangerBadge else SuccessBadge
  }

  /** The text of the cells the filters read (columns 1, 2 and 5). */
  datatype Row = Row(name: string, description: string, category: string, badge: Badge)

  /** `renderProductsTable`: one row per product, in order. */
  function RenderRows(products: seq<ApiProduct>): (rows: seq<Row>)
    ensures |rows| == |products|
    ensures forall i :: 0 <= i < |products| ==>
      rows[i] == Row(products[i].name, DescriptionCell(products[i].description), products[i].category,
                     StockBadge(products[i].stock))
  {
    seq(|products|, i requires 0 <= i < |products| =>
      Row(products[i].name, DescriptionCell(products[i].description), products[i].category,
          StockBadge(products[i].stock)))
  }

  // ---------------------------------------------------------------- filters

  /** A row the search shows: the lower-cased term occurs in the lower-cased name or
      description cell. */
  predicate SearchShows(row: Row, term: string) {
    Contains(ToLower(row.name), ToLower(term)) || Contains(ToLower(row.description), ToLower(term))
  }

  /** A row the category filter shows: no selection, or exactly (case-sensitively) the
      selected category. */
  predicate CategoryShows(row: Row, selected: string) {
    selected == "" || row.category == selected
  }

  /** An empty search term shows every row. */
  lemma EmptySearchShowsAll(row: Row)
    ensures SearchShows(row, "")
  {
    assert OccursAt(ToLower(row.name), ToLower(""), 0);
  }

  /** The search reads the truncated cell: a term longer than 53 characters can only be
      found in the name, however long the description is. */
  lemma LongTermNeedsName(p: ApiProduct, term: string)
    requires |term| > 53
    ensures SearchShows(RenderRows([p])[0], term) <==> Contains(ToLower(p.name), ToLower(term))
  {
    var cell := ToLower(DescriptionCell(p.description));
    assert |cell| <= 53 < |ToLower(term)|;
    forall i | 0 <= i <= |cell|
      ensures !OccursAt(cell, ToLower(term), i)
    {
    }
  }

  /** The products table as the DOM holds it: its rows and whether each is displayed. */
  class ProductsTable {
    const rows: seq<Row>
    const shown: array<bool>

    ghost predicate Valid()
      reads this
    {
      shown.Length == |rows|
    }

    constructor (products: seq<ApiProduct>)
      ensures Valid() && rows == RenderRows(products) && fresh(shown)
      ensures forall i :: 0 <= i < shown.Length ==> shown[i]
    {
      rows := RenderRows(products);
      shown := new bool[|products|](_ => true);
    }

    /** `handleProductSearch`: every row is shown exactly when the search finds the term
        in it. */
    method Search(term: string)
      requires Valid()
      modifies shown
      ensures forall i :: 0 <= i < shown.Length ==> (shown[i] <==> SearchShows(rows[i], term))
    {
      var lower := ToLower(term);
      var i := 0;
      while i < shown.Length
        invariant 0 <= i <= shown.Length
        invariant forall k :: 0 <= k < i ==> (shown[k] <==> SearchShows(rows[k], term))
      {
        var name := ToLower(rows[i].name);
        var description := ToLower(rows[i].description);
        shown[i] := Contains(name, lower) || Contains(description, lower);
        i := i + 1;
      }
    }

    /** `handleCategoryFilter`: every row is shown exactly when it has the selected
        category, or when nothing is selected. */
    method FilterCategory(selected: string)
      requires Valid()
      modifies shown
      ensures forall i :: 0 <= i < shown.Length ==> (shown[i] <==> CategoryShows(rows[i], selected))
    {
      var i := 0;
      while i < shown.Length
        invariant 0 <= i <= shown.Length
        invariant forall k :: 0 <= k < i ==> (shown[k] <==> CategoryShows(rows[k], selected))
      {
        shown[i] := selected == "" || rows[i].category == selected;
        i := i + 1;
      }
    }
  }

  // ---------------------------------------------------------------- category options

  /** `[...new Set(xs)]`: each value once, in the order of its first occurrence. */
  function Distinct(xs: seq<string>): (r: seq<string>)
    ensures forall x :: x in r <==> x in xs
    ensures forall i, j :: 0 <= i < j < |r| ==> r[i] != r[j]
    decreases |xs|
  {
    if |xs| == 0 then []
    else
      var d := Distinct(xs[..|xs| - 1]);
      assert forall x :: x in xs <==> x in xs[..|xs| - 1] || x == xs[|xs| - 1];
      if xs[|xs| - 1] in d then d else d + [xs[|xs| - 1]]
  }

  /** The index of the first occurrence of `x` in `xs`. */
  function FirstIndex(xs: seq<string>, x: string): (k: nat)
    requires x in xs
    ensures k < |xs| && xs[k] == x && forall j :: 0 <= j < k ==> xs[j] != x
  {
    if xs[0] == x then 0 else 1 + FirstIndex(xs[1..], x)
  }

  /** A value's first occurrence is unaffected by appending. */
  lemma FirstIndexPrefix(xs: seq<string>, y: string, x: string)
    requires x in xs
    ensures FirstIndex(xs + [y], x) == FirstIndex(xs, x)
  {
    var k := FirstIndex(xs, x);
    assert (xs + [y])[k] == x;
    assert forall j :: 0 <= j < k ==> (xs + [y])[j] == xs[j];
  }

  /** The distinct values come in the order of their first occurrence. */
  lemma {:induction false} DistinctFirstOccurrenceOrder(xs: seq<string>)
    ensures forall i, j :: 0 <= i < j < |Distinct(xs)| ==>
      FirstIndex(xs, Distinct(xs)[i]) < FirstIndex(xs, Distinct(xs)[j])
    decreases |xs|
  {
    if |xs| > 0 {
      var init, last := xs[..|xs| - 1], xs[|xs| - 1];
      assert xs == init + [last];
      DistinctFirstOccurrenceOrder(init);
      var d, r := Distinct(init), Distinct(xs);
      forall i, j | 0 <= i < j < |r|
        ensures FirstIndex(xs, r[i]) < FirstIndex(xs, r[j])
      {
        FirstIndexPrefix(init, last, r[i]);
        if j < |d| {
          FirstIndexPrefix(init, last, r[j]);
        } else {
          assert r[j] == last && last !in init;
          assert FirstIndex(xs, r[j]) == |init|;
        }
      }
    }
  }

  /** An `<option>` of the category select. */
  datatype SelectOption = SelectOption(value: string, text: string)

  /** `products.map(p => p.category)` */
  function Categories(products: seq<ApiProduct>): (cs: seq<string>)
    ensures |cs| == |products| && forall k :: 0 <= k < |products| ==> cs[k] == products[k].category
  {
    seq(|products|, k requires 0 <= k < |products| => products[k].category)
  }

  /** One option per value, its text the value itself. */
  function OptionsFor(d: seq<string>): (options: seq<SelectOption>)
    ensures |options| == |d| && forall i :: 0 <= i < |d| ==> options[i] == SelectOption(d[i], d[i])
  {
    seq(|d|, i requires 0 <= i < |d| => SelectOption(d[i], d[i]))
  }

  /** Every product's category is among the distinct categories. */
  lemma CategoryListed(products: seq<ApiProduct>, k: int)
    requires 0 <= k < |products|
    ensures exists i :: 0 <= i < |Distinct(Categories(products))|
                        && Distinct(Categories(products))[i] == products[k].category
  {
    var cs := Categories(products);
    assert cs[k] == products[k].category && cs[k] in cs;
    assert products[k].category in Distinct(cs);
  }

  /** Every distinct category is some product's category. */
  lemma ListedIsCategory(products: seq<ApiProduct>, i: int)
    requires 0 <= i < |Distinct(Categories(products))|
    ensures exists k :: 0 <= k < |products| && products[k].category == Distinct(Categories(products))[i]
  {
    var cs := Categories(products);
    var d := Distinct(cs);
    assert d[i] in d;
    assert d[i] in cs;
    var k :| 0 <= k < |cs| && cs[k] == d[i];
    assert products[k].category == d[i];
  }

  const AllCategories := SelectOption("", "Todas las categorías")

  /** The options after the first name exactly the products' categories. */
  lemma OptionsCoverCategories(products: seq<ApiProduct>, c: string)
    ensures SelectOption(c, c) in ([AllCategories] + OptionsFor(Distinct(Categories(products))))[1..]
      <==> (exists k :: 0 <= k < |products| && products[k].category == c)
  {
    var d := Distinct(Categories(products));
    var options := [AllCategories] + OptionsFor(d);
    if exists k :: 0 <= k < |products| && products[k].category == c {
      var k :| 0 <= k < |products| && products[k].category == c;
      CategoryListed(products, k);
      var i :| 0 <= i < |d| && d[i] == c;
      assert options[1..][i] == SelectOption(c, c);
    }
    if SelectOption(c, c) in options[1..] {
      var i :| 0 <= i < |options[1..]| && options[1..][i] == SelectOption(c, c);
      assert options[1..][i] == SelectOption(d[i], d[i]);
      ListedIsCategory(products, i);
    }
  }

  /** Each option after the first is its own text and one of the products' categories. */
  lemma OptionsAreCategories(products: seq<ApiProduct>, options: seq<SelectOption>)
    requires options == [AllCategories] + OptionsFor(Distinct(Categories(products)))
    ensures forall i :: 1 <= i < |options| ==>
      options[i].text == options[i].value && options[i].value in Categories(products)
  {
    var d := Distinct(Categories(products));
    forall i | 1 <= i < |options|
      ensures options[i].text == options[i].value && options[i].value in Categories(products)
    {
      assert options[i] == SelectOption(d[i - 1], d[i - 1]) && d[i - 1] in d;
    }
  }

  /** The options after the first come in the order of their categories' first
      occurrence. */
  lemma OptionsInFirstOccurrenceOrder(products: seq<ApiProduct>, options: seq<SelectOption>)
    requires options == [AllCategories] + OptionsFor(Distinct(Categories(products)))
    requires forall i :: 1 <= i < |options| ==> options[i].value in Categories(products)
    ensures forall i, j :: 1 <= i < j < |options| ==>
      FirstIndex(Categories(products), options[i].value) < FirstIndex(Categories(products), options[j].value)
  {
    var cs := Categories(products);
    var d := Distinct(cs);
    DistinctFirstOccurrenceOrder(cs);
    forall i, j | 1 <= i < j < |options|
      ensures FirstIndex(cs, options[i].value) < FirstIndex(cs, options[j].value)
    {
      assert options[i].value == d[i - 1] && options[j].value == d[j - 1];
    }
  }

  /** `updateCategoryFilter`: "Todas las categorías" with the empty value, then one option
      per distinct category, in the order in which the categories first occur. */
  function CategoryOptions(products: seq<ApiProduct>): (options: seq<SelectOption>)
    ensures |options| >= 1 && options[0] == SelectOption("", "Todas las categorías")
    ensures forall c :: SelectOption(c, c) in options[1..]
                        <==> (exists k :: 0 <= k < |products| && products[k].category == c)
    ensures forall i, j :: 1 <= i < j < |options| ==> options[i] != options[j]
    ensures forall i :: 1 <= i < |options| ==>
      options[i].text == options[i].value && options[i].value in Categories(products)
    ensures forall i, j :: 1 <= i < j < |options| ==>
      FirstIndex(Categories(products), options[i].value) < FirstIndex(Categories(products), options[j].value)
  {
    forall c
      ensures SelectOption(c, c) in ([AllCategories] + OptionsFor(Distinct(Categories(products))))[1..]
        <==> (exists k :: 0 <= k < |products| && products[k].category == c)
    {
      OptionsCoverCategories(products, c);
    }
    var options := [AllCategories] + OptionsFor(Distinct(Categories(products)));
    OptionsAreCategories(products, options);
    OptionsInFirstOccurrenceOrder(products, options);
    options
  }

  // ---------------------------------------------------------------- tabs and session

  /** The navigation items (their `data-tab`) and tab panes (their `id`), with whether
      each carries the `active` class. */
  class Navigation {
    const navTabs: seq<string>
    const navActive: array<bool>
    const paneIds: seq<string>
    const paneActive: array<bool>

    ghost predicate Valid()
      reads this
    {
      navActive.Length == |navTabs| && paneActive.Length == |paneIds| && navActive != paneActive
    }

    constructor (navTabs: seq<string>, paneIds: seq<string>)
      ensures Valid() && this.navTabs == navTabs && this.paneIds == paneIds
      ensures fresh(navActive) && fresh(paneActive)
    {
      this.navTabs := navTabs;
      this.paneIds := paneIds;
      navActive := new bool[|navTabs|];
      paneActive := new bool[|paneIds|];
    }

    /** `switchTab`: an item is active iff its tab is `tabName`, a pane iff its id is
        `tabName + "Tab"`. */
    method SwitchTab(tabName: string)
      requires Valid()
      modifies navActive, paneActive
      ensures forall i :: 0 <= i < navActive.Length ==> (navActive[i] <==> navTabs[i] == tabName)
      ensures forall i :: 0 <= i < paneActive.Length ==> (paneActive[i] <==> paneIds[i] == tabName + "Tab")
    {
      var i := 0;
      while i < navActive.Length
        invariant 0 <= i <= navActive.Length
        invariant forall k :: 0 <= k < i ==> (navActive[k] <==> navTabs[k] == tabName)
      {
        navActive[i] := navTabs[i] == tabName;
        i := i + 1;
      }
      var pane := tabName + "Tab";
      var j := 0;
      while j < paneActive.Length
        invariant 0 <= j <= paneActive.Length
        invariant forall k :: 0 <= k < j ==> (paneActive[k] <==> paneIds[k] == pane)
        invariant forall k :: 0 <= k < navActive.Length ==> (navActive[k] <==> navTabs[k] == tabName)
      {
        paneActive[j] := paneIds[j] == pane;
        j := j + 1;
      }
    }

    /** Exactly one pane is active after switching to a tab whose pane exists once. */
    lemma OnePaneActive(tabName: string, i: int)
      requires Valid() && 0 <= i < |paneIds| && paneIds[i] == tabName + "Tab"
      requires forall k :: 0 <= k < paneActive.Length ==> (paneActive[k] <==> paneIds[k] == tabName + "Tab")
      requires forall j :: 0 <= j < |paneIds| && j != i ==> paneIds[j] != paneIds[i]
      ensures forall k :: 0 <= k < paneActive.Length ==> (paneActive[k] <==> k == i)
    {
    }
  }

  /** Which of the three sections is displayed. */
  datatype Section = LoginSection | RegisterSection | DashboardSection

  /** The panel's globals and the browser storage it uses. */
  class Session {
    var authToken: Option<string>
    var currentUser: Option<UserView>
    var storage: map<string, string>
    var section: Section
    var toasts: seq<(string, string)>

    constructor (storage: map<string, string>)
      ensures this.storage == storage && currentUser.None? && toasts == []
      ensures authToken == (if "authToken" in storage then Some(storage["authToken"]) else None)
      ensures section == LoginSection
    {
      this.storage := storage;
      authToken := if "authToken" in storage then Some(storage["authToken"]) else None;
      currentUser := None;
      section := LoginSection;
      toasts := [];
    }

    /** `handleLogout`: both stored keys and both globals are cleared, the login section
        is shown and an info toast says so. */
    method HandleLogout()
      modifies this
      ensures authToken.None? && currentUser.None? && section == LoginSection
      ensures storage == old(storage) - {"authToken", "userData"}
      ensures "authToken" !in storage && "userData" !in storage
      ensures toasts == old(toasts) + [("Sesión cerrada", "info")]
    {
      storage := storage - {"authToken"};
      storage := storage - {"userData"};
      authToken := None;
      currentUser := None;
      section := LoginSection;
      toasts := toasts + [("Sesión cerrada", "info")];
    }
  }
}
