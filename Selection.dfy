/** The sidebar's choices (app.py, the `with st.sidebar` block): support category, plan
    type, target theme, the optional scope narrowing, the extra review count and the hourly
    rate. The widgets themselves are not modelled; what they return is an input here, and
    the rules that decide which of those returns are used are functions. */
module Selection {
  import opened Text

  /** Support category, "1. 支援対象". */
  datatype Category = FirstResponse | ExistingResponse {
    function Label(): string {
      match this
      case FirstResponse => "初回答支援"
      case ExistingResponse => "既回答支援"
    }
  }

  /** Support style, "2. 支援スタイル": unlimited support, or a capped number of reviews. */
  datatype PlanType = FullPackage | LimitedReviews {
    function Label(): string {
      match this
      case FullPackage => "フルパッケージ"
      case LimitedReviews => "回数制限プラン"
    }
  }

  const ClimateLabel: string := "気候変動"
  const WaterLabel: string := "水セキュリティ"

  /** Target theme, "3. 対象回答項目"; the third choice is the bundle of both. */
  datatype Theme = Climate | Water | ClimateAndWater {
    function Label(): string {
      match this
      case Climate => ClimateLabel
      case Water => WaterLabel
      case ClimateAndWater => "気候変動＋水セキュリティ"
    }
  }

  /** The two narrower scopes offered once "支援範囲を限定する" is switched on. */
  datatype ScopeChoice = Modules1To6And13 | Module7Only {
    function Label(): string {
      match this
      case Modules1To6And13 => "M1-6,13"
      case Module7Only => "M7のみ"
    }
  }

  /** The scope used unless it is narrowed; the water-only theme always uses it. */
  const DefaultScope: string := "全Module(気候変動)"

  /** The default scope is already in half-width form, so normalising it changes nothing. */
  lemma DefaultScopeIsNormal()
    ensures HalfWidthParens(DefaultScope) == DefaultScope
  {
    assert forall i :: 0 <= i < |DefaultScope| ==> DefaultScope[i] != FullWidthOpen && DefaultScope[i] != FullWidthClose;
    HalfWidthParensKeeps(DefaultScope);
  }

  /** The hourly rates the slider offers, in yen per hour, and the one it starts at. */
  const HourlyRates: seq<nat> := [10000, 20000, 30000, 40000, 50000, 60000]
  const DefaultHourlyRate: nat := 40000

  /** The slider starts at one of the rates it offers, and every offered rate is positive. */
  lemma DefaultHourlyRateOffered()
    ensures DefaultHourlyRate in HourlyRates
    ensures forall i :: 0 <= i < |HourlyRates| ==> HourlyRates[i] > 0
  {
    assert HourlyRates[3] == DefaultHourlyRate;
  }

  /** What the sidebar widgets returned. `limitToggle` and `scopeChoice` are what the toggle and
      the scope radio would return if shown; `requestedReviews` what the number input would return. */
  datatype Sidebar = Sidebar(
    client: string,
    category: Category,
    plan: PlanType,
    theme: Theme,
    limitToggle: bool,
    scopeChoice: ScopeChoice,
    requestedReviews: nat,
    hourlyRate: nat)

  /** The scope toggle is shown for every theme except water security alone. */
  predicate ScopeToggleShown(t: Theme) {
    t != Water
  }

  /** The scope the sidebar leaves in `scope`: the default, unless the toggle is shown and on,
      in which case the chosen narrower scope. */
  function Scope(sb: Sidebar): (scope: string)
    ensures scope == DefaultScope || scope == sb.scopeChoice.Label()
    ensures scope == sb.scopeChoice.Label() <==> ScopeToggleShown(sb.theme) && sb.limitToggle
    ensures sb.theme == Water ==> scope == DefaultScope
  {
    var limitScope := if ScopeToggleShown(sb.theme) then sb.limitToggle else false;
    if limitScope then sb.scopeChoice.Label() else DefaultScope
  }

  /** The extra review count: zero unless the plan is the limited-review plan, whose number
      input (minimum 0, start 0) supplies it. */
  function ExtraReviews(sb: Sidebar): (n: nat)
    ensures sb.plan != LimitedReviews ==> n == 0
    ensures sb.plan == LimitedReviews ==> n == sb.requestedReviews
  {
    if sb.plan == LimitedReviews then sb.requestedReviews else 0
  }

  /** The caption of the extra review input, which tells the user the hours one review adds. */
  function OptionLabel(t: Theme): string {
    match t
    case Climate => "追加レビュー回数 (+10h/回)"
    case Water => "追加レビュー回数 (+5h/回)"
    case ClimateAndWater => "追加レビュー回数 (+15h/回)"
  }

  /** The caption of the extra review input spelled from a per-review hour count. */
  function OptionLabelFor(hoursPerReview: nat): string {
    "追加レビュー回数 (+" + NatToString(hoursPerReview) + "h/回)"
  }
}
