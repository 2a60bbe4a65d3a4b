/** The quote: the hours of the checked displayed rows, the extra review option, the bundle
    discount, the grand total clamped at zero and the price at the chosen hourly rate
    (app.py, the checkbox loop of "支援工程の選択" and the "御見積サマリー" computation). */
module Quote {
  import opened Text
  import opened Masks
  import opened Selection
  import opened Catalogue

  /** One entry of `selected_items`: the item name ("工程") and its hours ("工数(h)"). */
  datatype SelectedItem = SelectedItem(name: string, hours: real)

  function ItemOf(row: Row): SelectedItem {
    SelectedItem(row.item, row.hours)
  }

  /** The selected-item entries of some rows, in the same order. */
  function ItemsOf(rows: seq<Row>): (items: seq<SelectedItem>)
    ensures |items| == |rows|
    ensures forall i :: 0 <= i < |rows| ==> items[i] == ItemOf(rows[i])
  {
    seq(|rows|, i requires 0 <= i < |rows| => ItemOf(rows[i]))
  }

  /** The sum of the `hours` of some rows. */
  function SumHours(rows: seq<Row>): real
    decreases |rows|
  {
    if rows == [] then 0.0 else SumHours(rows[..|rows| - 1]) + rows[|rows| - 1].hours
  }

  /** The checked rows: those displayed rows whose checkbox is ticked, in display order. */
  function Checked(display: seq<Row>, checks: seq<bool>): seq<Row>
    requires |checks| == |display|
  {
    Select(display, checks)
  }

  /** The loop over the displayed rows: each ticked row adds its hours to `total_h` and its
      entry to `selected_items`. */
  method TallyChecked(display: seq<Row>, checks: seq<bool>) returns (totalH: real, selected: seq<SelectedItem>)
    requires |checks| == |display|
    ensures totalH == SumHours(Checked(display, checks))
    ensures selected == ItemsOf(Checked(display, checks))
  {
    totalH := 0.0;
    selected := [];
    var i := 0;
    while i < |display|
      invariant 0 <= i <= |display|
      invariant totalH == SumHours(Checked(display[..i], checks[..i]))
      invariant selected == ItemsOf(Checked(display[..i], checks[..i]))
    {
      var row := display[i];
      CheckedStep(display, checks, i);
      if checks[i] {
        totalH := totalH + row.hours;
        selected := selected + [ItemOf(row)];
      }
      i := i + 1;
    }
    assert display[..i] == display && checks[..i] == checks;
  }

  /** One more displayed row: the checked rows grow by that row when it is ticked, and the
      hours and the item entries grow with them. */
  lemma CheckedStep(display: seq<Row>, checks: seq<bool>, i: nat)
    requires |checks| == |display| && i < |display|
    ensures var before, after := Checked(display[..i], checks[..i]), Checked(display[..i + 1], checks[..i + 1]);
      && after == before + (if checks[i] then [display[i]] else [])
      && SumHours(after) == SumHours(before) + (if checks[i] then display[i].hours else 0.0)
      && ItemsOf(after) == ItemsOf(before) + (if checks[i] then [ItemOf(display[i])] else [])
  {
    var before := Checked(display[..i], checks[..i]);
    assert display[..i + 1][..i] == display[..i] && checks[..i + 1][..i] == checks[..i];
    if checks[i] {
      assert (before + [display[i]])[..|before|] == before;
    } else {
      assert before + [] == before;
    }
  }

  /** Hours add up over a catalogue split in two. */
  lemma {:induction false} SumHoursAppend(a: seq<Row>, b: seq<Row>)
    ensures SumHours(a + b) == SumHours(a) + SumHours(b)
    decreases |b|
  {
    if b != [] {
      var n := |b| - 1;
      SumHoursAppend(a, b[..n]);
      assert (a + b)[..|a| + n] == a + b[..n];
    } else {
      assert a + b == a;
    }
  }

  predicate HoursNonNegative(rows: seq<Row>) {
    forall i :: 0 <= i < |rows| ==> rows[i].hours >= 0.0
  }

  /** Unticking boxes never raises the base hours when no row has negative hours: the
      checked hours of a smaller selection are at most those of a larger one, and at most
      the hours of all displayed rows. */
  lemma {:induction false} UncheckingNeverAddsHours(display: seq<Row>, m1: seq<bool>, m2: seq<bool>)
    requires HoursNonNegative(display)
    requires |m1| == |display| && SubMask(m1, m2)
    ensures 0.0 <= SumHours(Checked(display, m1)) <= SumHours(Checked(display, m2)) <= SumHours(display)
    decreases |display|
  {
    if display != [] {
      var n := |display| - 1;
      assert display[..n + 1] == display && m1[..n + 1] == m1 && m2[..n + 1] == m2;
      CheckedStep(display, m1, n);
      CheckedStep(display, m2, n);
      assert SubMask(m1[..n], m2[..n]);
      assert HoursNonNegative(display[..n]);
      UncheckingNeverAddsHours(display[..n], m1[..n], m2[..n]);
    }
  }

  /** With every checkbox at its default (ticked), the base hours are the hours of all displayed
      rows and the selected items are all of them; with nothing displayed, both are empty. */
  lemma DefaultChecksSelectAll(display: seq<Row>)
    ensures Checked(display, AllTrue(|display|)) == display
    ensures display == [] ==> SumHours(Checked(display, AllTrue(|display|))) == 0.0
  {
    SelectAllTrue(display);
  }

  /** The base hours are the hours of the ticked rows, counted at their positions in increasing order. */
  lemma CheckedAreTickedRowsInOrder(display: seq<Row>, checks: seq<bool>)
    requires |checks| == |display|
    ensures |Checked(display, checks)| == |TrueIndices(checks)|
    ensures forall k :: 0 <= k < |TrueIndices(checks)| ==>
              Checked(display, checks)[k] == display[TrueIndices(checks)[k]]
  {
    SelectAtTrueIndices(display, checks);
  }

  /** Hours one extra review adds, by theme. */
  function ReviewRate(t: Theme): (rate: nat)
    ensures rate > 0
  {
    match t
    case Climate => 10
    case Water => 5
    case ClimateAndWater => 15
  }

  /** The hours of the extra review option. */
  function OptionHours(extraReviews: nat, t: Theme): nat {
    extraReviews * ReviewRate(t)
  }

  /** The bundle discount in hours, granted for the combined theme only. */
  function DiscountHours(t: Theme): (d: nat)
    ensures d > 0 <==> t == ClimateAndWater
  {
    if t == ClimateAndWater then 25 else 0
  }

  /** The derived quote: base hours, option hours, discount hours, grand total hours and price. */
  datatype Quote = Quote(baseH: real, optionH: nat, discountH: nat, grandTotalH: real, price: real)

  function ComputeQuote(baseH: real, extraReviews: nat, t: Theme, hourlyRate: nat): (q: Quote)
    ensures q.baseH == baseH && q.optionH == OptionHours(extraReviews, t) && q.discountH == DiscountHours(t)
    ensures q.grandTotalH >= 0.0
    ensures q.grandTotalH >= baseH + q.optionH as real - q.discountH as real
    ensures baseH + q.optionH as real - q.discountH as real >= 0.0
            ==> q.grandTotalH == baseH + q.optionH as real - q.discountH as real
    ensures baseH + q.optionH as real - q.discountH as real <= 0.0 ==> q.grandTotalH == 0.0
    ensures q.price == q.grandTotalH * hourlyRate as real && q.price >= 0.0
  {
    var optionH := OptionHours(extraReviews, t);
    var discountH := DiscountHours(t);
    var net := baseH + optionH as real - discountH as real;
    var grandTotalH := if net > 0.0 then net else 0.0;
    Quote(baseH, optionH, discountH, grandTotalH, grandTotalH * hourlyRate as real)
  }

  /** The caption of the review-count input states the same hours per review the quote charges. */
  lemma OptionLabelStatesRate(t: Theme)
    ensures OptionLabel(t) == OptionLabelFor(ReviewRate(t))
  {
    match t
    case Climate =>
      assert NatToString(10) == "10";
    case Water =>
      assert NatToString(5) == "5";
    case ClimateAndWater =>
      assert NatToString(15) == "15";
  }

  /** One review for the bundle costs what one review for each theme costs together. */
  lemma BundleReviewCostsBoth(n: nat)
    ensures OptionHours(n, ClimateAndWater) == OptionHours(n, Climate) + OptionHours(n, Water)
  {
  }

  /** Outside the limited-review plan no option hours are charged, whatever the review input held,
      and the total is then the base hours less the discount, clamped at zero. */
  lemma NoOptionOutsideLimitedPlan(sb: Sidebar, baseH: real)
    requires sb.plan != LimitedReviews
    ensures ComputeQuote(baseH, ExtraReviews(sb), sb.theme, sb.hourlyRate).optionH == 0
    ensures ComputeQuote(baseH, ExtraReviews(sb), sb.theme, sb.hourlyRate)
         == ComputeQuote(baseH, 0, sb.theme, sb.hourlyRate)
  {
  }

  /** More base hours, or more extra reviews, never lower the grand total or the price. */
  lemma QuoteMonotone(b1: real, b2: real, e1: nat, e2: nat, t: Theme, rate: nat)
    requires b1 <= b2 && e1 <= e2
    ensures ComputeQuote(b1, e1, t, rate).grandTotalH <= ComputeQuote(b2, e2, t, rate).grandTotalH
    ensures ComputeQuote(b1, e1, t, rate).price <= ComputeQuote(b2, e2, t, rate).price
  {
  }

  /** For the single themes the grand total is just base plus option hours; the bundle's total
      is 25 hours lower, but never below zero. */
  lemma DiscountOnlyForBundle(baseH: real, extraReviews: nat, t: Theme, rate: nat)
    requires baseH >= 0.0
    ensures t != ClimateAndWater
            ==> ComputeQuote(baseH, extraReviews, t, rate).grandTotalH == baseH + OptionHours(extraReviews, t) as real
    ensures t == ClimateAndWater
            ==> ComputeQuote(baseH, extraReviews, t, rate).grandTotalH
                == if baseH + OptionHours(extraReviews, t) as real >= 25.0
                   then baseH + OptionHours(extraReviews, t) as real - 25.0 else 0.0
  {
  }

  /** Worked cases: two ticked climate rows of 8 and 12 hours at 40000 yen; a bundle of 50 base
      hours with two extra reviews; a bundle of 10 base hours that the discount wipes out. */
  lemma WorkedQuotes()
    ensures ComputeQuote(SumHours([Row(ClimateLabel, FirstResponse.Label(), FullPackage.Label(), DefaultScope, "a", 8.0),
                                   Row(ClimateLabel, FirstResponse.Label(), FullPackage.Label(), DefaultScope, "b", 12.0)]),
                         0, Climate, 40000)
         == Quote(20.0, 0, 0, 20.0, 800000.0)
    ensures ComputeQuote(50.0, 2, ClimateAndWater, DefaultHourlyRate).grandTotalH == 55.0
    ensures ComputeQuote(10.0, 0, ClimateAndWater, DefaultHourlyRate) == Quote(10.0, 0, 25, 0.0, 0.0)
  {
    var a := Row(ClimateLabel, FirstResponse.Label(), FullPackage.Label(), DefaultScope, "a", 8.0);
    var b := Row(ClimateLabel, FirstResponse.Label(), FullPackage.Label(), DefaultScope, "b", 12.0);
    assert [a][..0] == [];
    assert SumHours([a]) == 8.0;
    assert [a, b][..1] == [a];
    assert SumHours([a, b]) == 20.0;
  }
}
