/** One run of the quoting page, top to bottom: load the catalogue, read the sidebar, filter,
    tally the ticked rows, compute the quote and, for a positive total, assemble the export. */
module Estimate {
  import opened Wrappers
  import opened Masks
  import opened Selection
  import opened Catalogue
  import opened Quote
  import opened Export

  /** The export header for a sidebar state and a creation timestamp. */
  function MetaOf(sb: Sidebar, timestamp: string): Meta {
    Meta(timestamp, sb.client, sb.theme, sb.category, sb.plan, sb.hourlyRate)
  }

  /** A whole run. `checks` holds the checkbox of every displayed row; `timestamp` stands for the
      clock reading the export header records. The quote is computed from the ticked displayed
      rows; the export is the header, item and footer layout of `ExportRows`, and when there is
      one it reads back as exactly that quote and those items. */
  method Run(raw: seq<Row>, sb: Sidebar, checks: seq<bool>, timestamp: string)
    returns (q: Quote, selected: seq<SelectedItem>, csvRows: Option<seq<CsvRow>>)
    requires |checks| == |Displayed(Load(raw), sb)|
    ensures selected == ItemsOf(Checked(Displayed(Load(raw), sb), checks))
    ensures q == ComputeQuote(SumHours(Checked(Displayed(Load(raw), sb), checks)), ExtraReviews(sb), sb.theme, sb.hourlyRate)
    ensures csvRows == ExportRows(MetaOf(sb, timestamp), selected, ExtraReviews(sb), q)
    ensures csvRows.Some? <==> q.grandTotalH > 0.0
    ensures csvRows.Some? ==>
              ParseExport(csvRows.value)
              == Some(Summary(timestamp, sb.client, sb.theme.Label(), sb.category.Label(), sb.plan.Label(),
                              sb.hourlyRate, selected, ExtraReviews(sb), q.optionH as real,
                              q.discountH as real, q.grandTotalH, q.price))
  {
    var catalogue := Load(raw);
    var scope := Scope(sb);
    var extraReviews := ExtraReviews(sb);
    var display := Filter(catalogue, sb.theme, sb.category, sb.plan, scope);
    var totalH;
    totalH, selected := TallyChecked(display, checks);
    q := ComputeQuote(totalH, extraReviews, sb.theme, sb.hourlyRate);
    csvRows := BuildExport(MetaOf(sb, timestamp), selected, extraReviews, q);
    if q.grandTotalH > 0.0 {
      ExportRoundTrip(MetaOf(sb, timestamp), selected, extraReviews, q);
    }
  }

  /** With nothing displayed, or nothing ticked, and no extra reviews, the total is zero for
      every theme and no export is offered. */
  lemma NothingTickedNoExport(m: Meta, display: seq<Row>, checks: seq<bool>, t: Theme, rate: nat)
    requires |checks| == |display|
    requires forall i :: 0 <= i < |checks| ==> !checks[i]
    ensures ComputeQuote(SumHours(Checked(display, checks)), 0, t, rate).grandTotalH == 0.0
    ensures ExportRows(m, ItemsOf(Checked(display, checks)), 0,
                       ComputeQuote(SumHours(Checked(display, checks)), 0, t, rate)).None?
  {
    SelectAllFalse(display, checks);
  }
}
