/** The price catalogue: its rows, the cleaning the loader applies to their text cells, and
    the theme-keyed filter that picks the rows shown for a sidebar selection (app.py,
    `load_data_direct` and the "フィルタリング" block). */
module Catalogue {
  import opened Text
  import opened Masks
  import opened Selection

  /** One line item of the catalogue spreadsheet. Text cells are compared as they are;
      `hours` is the estimated effort, possibly fractional. */
  datatype Row = Row(
    theme: string,
    category: string,
    planType: string,
    scope: string,
    item: string,
    hours: real)

  /** The loader's treatment of one row: every text column is stripped and has its
      parentheses rewritten to half width; the numeric `hours` column is untouched. */
  function LoadRow(raw: Row): Row {
    Row(CleanCell(raw.theme), CleanCell(raw.category), CleanCell(raw.planType),
        CleanCell(raw.scope), CleanCell(raw.item), raw.hours)
  }

  predicate IsLoaded(row: Row) {
    IsClean(row.theme) && IsClean(row.category) && IsClean(row.planType)
    && IsClean(row.scope) && IsClean(row.item)
  }

  /** The loaded catalogue: the spreadsheet rows, in order, each cleaned. */
  function Load(raw: seq<Row>): (rows: seq<Row>)
    ensures |rows| == |raw|
    ensures forall i :: 0 <= i < |raw| ==> rows[i] == LoadRow(raw[i])
  {
    seq(|raw|, i requires 0 <= i < |raw| => LoadRow(raw[i]))
  }

  /** Every loaded row is clean, its hours are those of the spreadsheet, and loading an
      already loaded catalogue changes nothing. */
  lemma LoadCleans(raw: seq<Row>)
    ensures forall i :: 0 <= i < |raw| ==> IsLoaded(Load(raw)[i]) && Load(raw)[i].hours == raw[i].hours
    ensures Load(Load(raw)) == Load(raw)
  {
    forall i | 0 <= i < |raw| ensures IsLoaded(Load(raw)[i]) && LoadRow(Load(raw)[i]) == Load(raw)[i] {
      var r := raw[i];
      CleanCellIsClean(r.theme);
      CleanCellIsClean(r.category);
      CleanCellIsClean(r.planType);
      CleanCellIsClean(r.scope);
      CleanCellIsClean(r.item);
      var l := LoadRow(r);
      CleanCellIsClean(l.theme);
      CleanCellIsClean(l.category);
      CleanCellIsClean(l.planType);
      CleanCellIsClean(l.scope);
      CleanCellIsClean(l.item);
    }
  }

  /** The filter-time rewrite of a scope cell leaves a loaded row's scope as it is. */
  lemma LoadedScopeIsNormal(row: Row)
    requires IsLoaded(row)
    ensures HalfWidthParens(row.scope) == row.scope
  {
    HalfWidthParensKeeps(row.scope);
  }

  /** The boolean mask each theme's branch builds over one row. */
  predicate Keeps(row: Row, theme: Theme, category: Category, plan: PlanType, scope: string) {
    var searchScope := HalfWidthParens(scope);
    match theme
    case Climate =>
      row.theme == ClimateLabel && row.category == category.Label() && row.planType == plan.Label()
      && HalfWidthParens(row.scope) == searchScope
    case Water =>
      row.theme == WaterLabel && row.category == category.Label() && row.planType == plan.Label()
      && HalfWidthParens(row.scope) == DefaultScope
    case ClimateAndWater =>
      (row.theme == ClimateLabel || row.theme == WaterLabel)
      && row.category == category.Label() && row.planType == plan.Label()
      && HalfWidthParens(row.scope) == searchScope
  }

  function FilterMask(rows: seq<Row>, theme: Theme, category: Category, plan: PlanType, scope: string): (m: seq<bool>)
    ensures |m| == |rows|
  {
    seq(|rows|, i requires 0 <= i < |rows| => Keeps(rows[i], theme, category, plan, scope))
  }

  /** The displayed rows, `df_display`: the catalogue rows the theme's mask keeps, in catalogue order. */
  function Filter(rows: seq<Row>, theme: Theme, category: Category, plan: PlanType, scope: string): seq<Row> {
    Select(rows, FilterMask(rows, theme, category, plan, scope))
  }

  /** A row is displayed exactly when it is in the catalogue and the theme's mask keeps it. */
  lemma FilterMembership(rows: seq<Row>, theme: Theme, category: Category, plan: PlanType, scope: string, x: Row)
    ensures x in Filter(rows, theme, category, plan, scope) <==> x in rows && Keeps(x, theme, category, plan, scope)
  {
    var m := FilterMask(rows, theme, category, plan, scope);
    SelectMembership(rows, m, x);
    if x in rows && Keeps(x, theme, category, plan, scope) {
      var i :| 0 <= i < |rows| && rows[i] == x;
      assert m[i];
    }
  }

  /** The displayed rows are the kept catalogue rows in catalogue order: filtering a
      catalogue made of two parts gives the first part's rows, then the second's. */
  lemma FilterKeepsOrder(a: seq<Row>, b: seq<Row>, theme: Theme, category: Category, plan: PlanType, scope: string)
    ensures Filter(a + b, theme, category, plan, scope)
         == Filter(a, theme, category, plan, scope) + Filter(b, theme, category, plan, scope)
  {
    var ma := FilterMask(a, theme, category, plan, scope);
    var mb := FilterMask(b, theme, category, plan, scope);
    assert FilterMask(a + b, theme, category, plan, scope) == ma + mb;
    SelectAppend(a, b, ma, mb);
  }

  /** Climate change alone: the displayed rows are exactly the catalogue rows of that theme,
      category and plan type whose normalised scope is the normalised chosen scope. */
  lemma ClimateFilter(rows: seq<Row>, category: Category, plan: PlanType, scope: string, x: Row)
    ensures x in Filter(rows, Climate, category, plan, scope)
        <==> x in rows && x.theme == ClimateLabel && x.category == category.Label()
             && x.planType == plan.Label() && HalfWidthParens(x.scope) == HalfWidthParens(scope)
  {
    FilterMembership(rows, Climate, category, plan, scope, x);
  }

  /** Water security alone: rows of that theme, category and plan type in the fixed default
      scope; the scope argument plays no part. */
  lemma WaterFilter(rows: seq<Row>, category: Category, plan: PlanType, scope1: string, scope2: string, x: Row)
    ensures x in Filter(rows, Water, category, plan, scope1)
        <==> x in rows && x.theme == WaterLabel && x.category == category.Label()
             && x.planType == plan.Label() && HalfWidthParens(x.scope) == DefaultScope
    ensures Filter(rows, Water, category, plan, scope1) == Filter(rows, Water, category, plan, scope2)
  {
    FilterMembership(rows, Water, category, plan, scope1, x);
    assert FilterMask(rows, Water, category, plan, scope1) == FilterMask(rows, Water, category, plan, scope2);
  }

  /** The bundle: rows of either theme, each still matching category, plan type and the chosen
      scope. A water row is displayed in the bundle exactly when its scope is the chosen one. */
  lemma CombinedFilter(rows: seq<Row>, category: Category, plan: PlanType, scope: string, x: Row)
    ensures x in Filter(rows, ClimateAndWater, category, plan, scope)
        <==> x in Filter(rows, Climate, category, plan, scope)
             || (x in rows && x.theme == WaterLabel && x.category == category.Label()
                 && x.planType == plan.Label() && HalfWidthParens(x.scope) == HalfWidthParens(scope))
  {
    FilterMembership(rows, ClimateAndWater, category, plan, scope, x);
    FilterMembership(rows, Climate, category, plan, scope, x);
  }

  /** With the default scope the bundle shows precisely the rows either single theme shows. */
  lemma CombinedFilterAtDefaultScope(rows: seq<Row>, category: Category, plan: PlanType, x: Row)
    ensures x in Filter(rows, ClimateAndWater, category, plan, DefaultScope)
        <==> x in Filter(rows, Climate, category, plan, DefaultScope)
             || x in Filter(rows, Water, category, plan, DefaultScope)
  {
    DefaultScopeIsNormal();
    CombinedFilter(rows, category, plan, DefaultScope, x);
    FilterMembership(rows, Water, category, plan, DefaultScope, x);
  }

  /** A scope spelled with full-width parentheses selects the same rows as its half-width
      spelling, for every theme. */
  lemma FilterIgnoresParenWidth(rows: seq<Row>, theme: Theme, category: Category, plan: PlanType, s: string, t: string)
    requires SameUpToParenWidth(s, t)
    ensures Filter(rows, theme, category, plan, s) == Filter(rows, theme, category, plan, t)
  {
    HalfWidthParensEqualIff(s, t);
    assert FilterMask(rows, theme, category, plan, s) == FilterMask(rows, theme, category, plan, t);
  }

  /** A catalogue scope cell spelled with full-width parentheses is kept exactly when its
      half-width spelling would be. */
  lemma KeepsIgnoresCellParenWidth(row: Row, cellScope: string, theme: Theme, category: Category, plan: PlanType, scope: string)
    requires SameUpToParenWidth(row.scope, cellScope)
    ensures Keeps(row, theme, category, plan, scope) == Keeps(row.(scope := cellScope), theme, category, plan, scope)
  {
    HalfWidthParensEqualIff(row.scope, cellScope);
  }

  /** The rows displayed for a sidebar state. For water security alone neither the scope toggle
      nor the scope radio has any effect on them. */
  function Displayed(catalogue: seq<Row>, sb: Sidebar): seq<Row> {
    Filter(catalogue, sb.theme, sb.category, sb.plan, Scope(sb))
  }

  lemma WaterIgnoresScopeWidgets(catalogue: seq<Row>, sb: Sidebar, toggle: bool, choice: ScopeChoice)
    requires sb.theme == Water
    ensures Displayed(catalogue, sb) == Displayed(catalogue, sb.(limitToggle := toggle, scopeChoice := choice))
    ensures Displayed(catalogue, sb) == Filter(catalogue, Water, sb.category, sb.plan, DefaultScope)
  {
  }
}
