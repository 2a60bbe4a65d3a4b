/** The CSV export of a quote (app.py, the block under `if grand_total_h > 0`): the list of
    two-cell rows handed to `csv.writer`. It is built only for a positive grand total and holds a
    nine-row header, one row per selected item, and a footer with the optional option and
    discount rows and the two totals. A reader for that layout shows that the export carries
    everything it was built from. */
module Export {
  import opened Wrappers
  import opened Text
  import opened Selection
  import opened Quote

  /** One CSV cell. `Str` and `Num` are written as they are; the other three stand for the
      formatted strings the source writes: `f"{n:,}"` (`Grouped`), `f"{h} h"` (`HoursTotal`)
      and `f"¥{int(y):,}"` (`Yen`). Their textual rendering is not modelled. */
  datatype Cell =
    | Str(s: string)
    | Num(x: real)
    | Grouped(n: nat)
    | HoursTotal(h: real)
    | Yen(amount: real)

  datatype CsvRow = CsvRow(key: Cell, value: Cell)

  const BlankRow: CsvRow := CsvRow(Str(""), Str(""))
  const DiscountLabel: string := "セット割引"
  const OptionLabelPrefix: string := "追加レビューオプション("
  const OptionLabelSuffix: string := "回)"

  /** What the header records besides the rows: the creation timestamp (a clock reading,
      passed in), the client name and the sidebar's choices. */
  datatype Meta = Meta(
    timestamp: string,
    client: string,
    theme: Theme,
    category: Category,
    plan: PlanType,
    hourlyRate: nat)

  /** `header_info`: six labelled values, a blank row, the section title and the column titles. */
  function HeaderRows(m: Meta): (rows: seq<CsvRow>)
    ensures |rows| == 9
  {
    [ CsvRow(Str("見積作成日時"), Str(m.timestamp)),
      CsvRow(Str("顧客名"), Str(m.client)),
      CsvRow(Str("対象回答項目"), Str(m.theme.Label())),
      CsvRow(Str("支援対象"), Str(m.category.Label())),
      CsvRow(Str("支援スタイル"), Str(m.plan.Label())),
      CsvRow(Str("適用単価 (円/h)"), Grouped(m.hourlyRate)),
      BlankRow,
      CsvRow(Str("【選択された工程の内訳】"), Str("")),
      CsvRow(Str("工程名"), Str("工数(h)")) ]
  }

  function ItemRow(item: SelectedItem): CsvRow {
    CsvRow(Str(item.name), Num(item.hours))
  }

  /** `body_data`: one row per selected item, in order. */
  function BodyRows(items: seq<SelectedItem>): (rows: seq<CsvRow>)
    ensures |rows| == |items|
    ensures forall i :: 0 <= i < |items| ==> rows[i] == ItemRow(items[i])
  {
    seq(|items|, i requires 0 <= i < |items| => ItemRow(items[i]))
  }

  /** The label of the option row, `f"追加レビューオプション({extra_reviews}回)"`. */
  function OptionRowLabel(extraReviews: nat): string {
    OptionLabelPrefix + NatToString(extraReviews) + OptionLabelSuffix
  }

  function OptionRow(extraReviews: nat, q: Quote): CsvRow {
    CsvRow(Str(OptionRowLabel(extraReviews)), Num(q.optionH as real))
  }

  function DiscountRow(q: Quote): CsvRow {
    CsvRow(Str(DiscountLabel), Num(-(q.discountH as real)))
  }

  function TotalRows(q: Quote): seq<CsvRow> {
    [BlankRow, CsvRow(Str("合計工数"), HoursTotal(q.grandTotalH)), CsvRow(Str("合計金額 (税抜)"), Yen(q.price))]
  }

  /** The footer as the layout prescribes it: a blank row, the option row when extra reviews
      were bought, the discount row when a discount applies, a blank row and the two totals. */
  function FooterRows(extraReviews: nat, q: Quote): (rows: seq<CsvRow>)
    ensures |rows| == 4 + (if extraReviews > 0 then 1 else 0) + (if q.discountH > 0 then 1 else 0)
  {
    [BlankRow]
    + (if extraReviews > 0 then [OptionRow(extraReviews, q)] else [])
    + (if q.discountH > 0 then [DiscountRow(q)] else [])
    + TotalRows(q)
  }

  /** `footer_info`, built by appending the optional rows and then extending with the totals. */
  method BuildFooter(extraReviews: nat, q: Quote) returns (footer: seq<CsvRow>)
    ensures footer == FooterRows(extraReviews, q)
  {
    footer := [BlankRow];
    if extraReviews > 0 {
      footer := footer + [OptionRow(extraReviews, q)];
    }
    if q.discountH > 0 {
      footer := footer + [DiscountRow(q)];
    }
    footer := footer + TotalRows(q);
  }

  /** `all_csv_rows`: present only when the grand total is positive. */
  function ExportRows(m: Meta, items: seq<SelectedItem>, extraReviews: nat, q: Quote): Option<seq<CsvRow>> {
    if q.grandTotalH > 0.0 then Some(HeaderRows(m) + BodyRows(items) + FooterRows(extraReviews, q)) else None
  }

  method BuildExport(m: Meta, items: seq<SelectedItem>, extraReviews: nat, q: Quote) returns (rows: Option<seq<CsvRow>>)
    ensures rows == ExportRows(m, items, extraReviews, q)
  {
    if q.grandTotalH > 0.0 {
      var headerInfo := HeaderRows(m);
      var bodyData := BodyRows(items);
      var footerInfo := BuildFooter(extraReviews, q);
      rows := Some(headerInfo + bodyData + footerInfo);
    } else {
      rows := None;
    }
  }

  /** The footer's layout: a blank row first; the option row right after it when extra
      reviews were bought; the discount row, carrying the negated discount, fourth from the
      end when a discount applies; then a blank row, the total hours and the total price. */
  lemma FooterLayout(extraReviews: nat, q: Quote)
    ensures var f := FooterRows(extraReviews, q);
      && f[0] == BlankRow
      && (extraReviews > 0 ==> f[1] == CsvRow(Str(OptionRowLabel(extraReviews)), Num(q.optionH as real)))
      && (q.discountH > 0 ==> f[|f| - 4] == CsvRow(Str(DiscountLabel), Num(-(q.discountH as real))))
      && f[|f| - 3..] == TotalRows(q)
  {
  }

  /** The export exists exactly when the grand total is positive. */
  lemma ExportOnlyForPositiveTotal(m: Meta, items: seq<SelectedItem>, extraReviews: nat, q: Quote)
    ensures ExportRows(m, items, extraReviews, q).Some? <==> q.grandTotalH > 0.0
  {
  }

  /** An export holds 13 + n rows plus one per optional row: the header, the n items in
      order, then the footer. */
  lemma ExportLayout(m: Meta, items: seq<SelectedItem>, extraReviews: nat, q: Quote, rows: seq<CsvRow>)
    requires ExportRows(m, items, extraReviews, q) == Some(rows)
    ensures |rows| == 13 + |items| + (if extraReviews > 0 then 1 else 0) + (if q.discountH > 0 then 1 else 0)
    ensures rows[..9] == HeaderRows(m)
    ensures rows[9..9 + |items|] == BodyRows(items)
    ensures rows[9 + |items|..] == FooterRows(extraReviews, q)
  {
    var h, b, f := HeaderRows(m), BodyRows(items), FooterRows(extraReviews, q);
    assert q.grandTotalH > 0.0;
    assert rows == h + b + f;
    assert rows[..9] == h;
    assert rows[9..9 + |b|] == b;
    assert rows[9 + |b|..] == f;
  }

  // ---- reading an export back ----

  /** What an export records. */
  datatype Summary = Summary(
    timestamp: string,
    client: string,
    themeLabel: string,
    categoryLabel: string,
    planLabel: string,
    hourlyRate: nat,
    items: seq<SelectedItem>,
    extraReviews: nat,
    optionH: real,
    discountH: real,
    grandTotalH: real,
    price: real)

  /** The text value of a row with the given text label. */
  function TextValue(row: CsvRow, key: string): Option<string> {
    match row
    case CsvRow(Str(l), Str(v)) => if l == key then Some(v) else None
    case _ => None
  }

  predicate IsItemRow(row: CsvRow) {
    row.key.Str? && row.value.Num?
  }

  /** The leading item rows (a text label and a number) and what follows them. */
  function ParseItems(rows: seq<CsvRow>): (seq<SelectedItem>, seq<CsvRow>) {
    if rows != [] && IsItemRow(rows[0]) then
      var (items, rest) := ParseItems(rows[1..]);
      ([SelectedItem(rows[0].key.s, rows[0].value.x)] + items, rest)
    else ([], rows)
  }

  /** The review count spelled inside an option row label. */
  function ParseOptionLabel(s: string): Option<nat> {
    var p, q := |OptionLabelPrefix|, |OptionLabelSuffix|;
    if |s| >= p + q && s[..p] == OptionLabelPrefix && s[|s| - q..] == OptionLabelSuffix
    then ParseNat(s[p..|s| - q]) else None
  }

  /** An option row: its review count and its hours. */
  function ParseOptionRow(row: CsvRow): Option<(nat, real)> {
    match row
    case CsvRow(Str(l), Num(v)) =>
      (match ParseOptionLabel(l)
       case Some(n) => Some((n, v))
       case None => None)
    case _ => None
  }

  /** A discount row: the discount in hours (the negation of the value written). */
  function ParseDiscountRow(row: CsvRow): Option<real> {
    match row
    case CsvRow(Str(l), Num(v)) => if l == DiscountLabel then Some(-v) else None
    case _ => None
  }

  /** The optional rows between the footer's two blank rows: review count, option hours, discount. */
  function ParseAdjustments(mid: seq<CsvRow>): Option<(nat, real, real)> {
    if |mid| == 0 then Some((0, 0.0, 0.0))
    else if |mid| == 1 then
      match ParseDiscountRow(mid[0])
      case Some(d) => Some((0, 0.0, d))
      case None =>
        (match ParseOptionRow(mid[0])
         case Some((n, o)) => Some((n, o, 0.0))
         case None => None)
    else if |mid| == 2 then
      match (ParseOptionRow(mid[0]), ParseDiscountRow(mid[1]))
      case (Some((n, o)), Some(d)) => Some((n, o, d))
      case _ => None
    else None
  }

  /** The footer: blank row, adjustments, blank row, total hours, total price. */
  function ParseFooter(f: seq<CsvRow>): Option<(nat, real, real, real, real)> {
    if |f| < 4 || f[0] != BlankRow || f[|f| - 3] != BlankRow then None
    else
      match (f[|f| - 2], f[|f| - 1], ParseAdjustments(f[1..|f| - 3]))
      case (CsvRow(Str("合計工数"), HoursTotal(g)), CsvRow(Str("合計金額 (税抜)"), Yen(p)), Some((n, o, d))) =>
        Some((n, o, d, g, p))
      case _ => None
  }

  /** Reads an exported row list back; `None` when it does not have the export's layout. */
  function ParseExport(rows: seq<CsvRow>): Option<Summary> {
    if |rows| < 9 then None
    else
      match (TextValue(rows[0], "見積作成日時"), TextValue(rows[1], "顧客名"), TextValue(rows[2], "対象回答項目"),
             TextValue(rows[3], "支援対象"), TextValue(rows[4], "支援スタイル"), rows[5])
      case (Some(ts), Some(client), Some(theme), Some(category), Some(plan), CsvRow(Str("適用単価 (円/h)"), Grouped(rate))) =>
        if rows[6..9] != HeaderRows(Meta("", "", Climate, FirstResponse, FullPackage, 0))[6..9] then None
        else
          var (items, footer) := ParseItems(rows[9..]);
          (match ParseFooter(footer)
           case Some((n, o, d, g, p)) => Some(Summary(ts, client, theme, category, plan, rate, items, n, o, d, g, p))
           case None => None)
      case _ => None
  }

  /** Item rows are read back as the items they were written from, up to the first row that
      is not an item row. */
  lemma {:induction false} ParseItemsBody(items: seq<SelectedItem>, rest: seq<CsvRow>)
    requires rest == [] || !IsItemRow(rest[0])
    ensures ParseItems(BodyRows(items) + rest) == (items, rest)
    decreases |items|
  {
    if items == [] {
      assert BodyRows(items) + rest == rest;
    } else {
      var rows := BodyRows(items) + rest;
      assert rows[1..] == BodyRows(items[1..]) + rest;
      ParseItemsBody(items[1..], rest);
      assert [items[0]] + items[1..] == items;
    }
  }

  /** The option row label gives back its review count. */
  lemma OptionLabelRoundTrip(n: nat)
    ensures ParseOptionLabel(OptionRowLabel(n)) == Some(n)
  {
    var s := OptionRowLabel(n);
    var p, q := |OptionLabelPrefix|, |OptionLabelSuffix|;
    assert s[..p] == OptionLabelPrefix;
    assert s[|s| - q..] == OptionLabelSuffix;
    assert s[p..|s| - q] == NatToString(n);
    ParseNatToString(n);
  }

  /** The footer gives back the review count (zero when no option row was written), the option
      hours (likewise), the discount and the two totals. */
  lemma FooterRoundTrip(extraReviews: nat, q: Quote)
    ensures ParseFooter(FooterRows(extraReviews, q))
         == Some((extraReviews, if extraReviews > 0 then q.optionH as real else 0.0,
                  q.discountH as real, q.grandTotalH, q.price))
  {
    var f := FooterRows(extraReviews, q);
    var mid := f[1..|f| - 3];
    assert f[|f| - 3..] == TotalRows(q);
    if extraReviews > 0 {
      OptionLabelRoundTrip(extraReviews);
      assert mid[0] == OptionRow(extraReviews, q);
      assert ParseDiscountRow(mid[0]) == None by {
        assert |OptionRowLabel(extraReviews)| != |DiscountLabel|;
      }
    }
    if q.discountH > 0 {
      assert mid[|mid| - 1] == DiscountRow(q);
    }
  }

  /** Reading an export back recovers everything it was built from: the header values, the
      selected items in order, the review count, the option hours, the discount and the totals. */
  lemma ExportRoundTrip(m: Meta, items: seq<SelectedItem>, extraReviews: nat, q: Quote)
    requires q.grandTotalH > 0.0
    ensures ParseExport(ExportRows(m, items, extraReviews, q).value)
         == Some(Summary(m.timestamp, m.client, m.theme.Label(), m.category.Label(), m.plan.Label(),
                         m.hourlyRate, items, extraReviews,
                         if extraReviews > 0 then q.optionH as real else 0.0,
                         q.discountH as real, q.grandTotalH, q.price))
  {
    var h, b, f := HeaderRows(m), BodyRows(items), FooterRows(extraReviews, q);
    var rows := h + b + f;
    assert rows[9..] == b + f;
    assert rows[6..9] == HeaderRows(Meta("", "", Climate, FirstResponse, FullPackage, 0))[6..9];
    ParseItemsBody(items, f);
    FooterRoundTrip(extraReviews, q);
  }
}
