/** What the result view derives from an `AnalysisResult` before drawing it
    (components/AnalysisDisplay.tsx): the abnormal/normal partition of the
    indicators, the value table's lookups by parameter name, the status badges,
    the score colour bands, the gauge's clamped score and counts, and the
    suggested-question chips. Markup, CSS classes and SVG geometry are not modelled. */
module Projection {

  import opened Types
  import opened JsBuiltins

  // ---------------------------------------------------------------------------
  // Abnormal / normal partition of the indicators

  /** The filter of `abnormalItems`: neither `Normal` nor `Unknown`. */
  predicate IsAbnormal(s: IndicatorStatus) {
    s != Normal && s != IndicatorStatus.Unknown
  }

  /** `abnormalItems`: the abnormal indicators, as `{parameter, status}` records, in order. */
  function AbnormalItems(inds: seq<Indicator>): (r: seq<Indicator>)
    ensures forall x :: multiset(r)[x] == if IsAbnormal(x.status) then multiset(inds)[x] else 0
    ensures forall x :: x in r <==> x in inds && IsAbnormal(x.status)
  {
    if inds == [] then []
    else
      assert inds == [inds[0]] + inds[1..];
      (if IsAbnormal(inds[0].status) then [inds[0]] else []) + AbnormalItems(inds[1..])
  }

  /** `normalItems`: the parameter names of the `Normal` indicators, in order. */
  function NormalItems(inds: seq<Indicator>): (r: seq<string>)
    ensures |r| <= |inds|
    ensures forall p :: p in r <==> Indicator(p, Normal) in inds
  {
    if inds == [] then []
    else
      assert inds == [inds[0]] + inds[1..];
      (if inds[0].status == Normal then [inds[0].parameter] else []) + NormalItems(inds[1..])
  }

  /** Number of indicators carrying status `s`: zero exactly when none does. */
  function CountStatus(inds: seq<Indicator>, s: IndicatorStatus): (n: nat)
    ensures n == 0 <==> forall k :: 0 <= k < |inds| ==> inds[k].status != s
  {
    if inds == [] then 0
    else (if inds[0].status == s then 1 else 0) + CountStatus(inds[1..], s)
  }

  /** `abnormalItems` keeps the original order: it distributes over concatenation. */
  lemma {:induction false} AbnormalItemsKeepOrder(a: seq<Indicator>, b: seq<Indicator>)
    ensures AbnormalItems(a + b) == AbnormalItems(a) + AbnormalItems(b)
  {
    if a == [] {
      assert a + b == b;
    } else {
      var ab := a + b;
      assert ab[0] == a[0] && ab[1..] == a[1..] + b;
      AbnormalItemsKeepOrder(a[1..], b);
      var h := if IsAbnormal(a[0].status) then [a[0]] else [];
      calc {
        AbnormalItems(ab);
        h + AbnormalItems(a[1..] + b);
        h + (AbnormalItems(a[1..]) + AbnormalItems(b));
        (h + AbnormalItems(a[1..])) + AbnormalItems(b);
      }
    }
  }

  /** `normalItems` keeps the original order: it distributes over concatenation. */
  lemma {:induction false} NormalItemsKeepOrder(a: seq<Indicator>, b: seq<Indicator>)
    ensures NormalItems(a + b) == NormalItems(a) + NormalItems(b)
  {
    if a == [] {
      assert a + b == b;
    } else {
      var ab := a + b;
      assert ab[0] == a[0] && ab[1..] == a[1..] + b;
      NormalItemsKeepOrder(a[1..], b);
      var h := if a[0].status == Normal then [a[0].parameter] else [];
      calc {
        NormalItems(ab);
        h + NormalItems(a[1..] + b);
        h + (NormalItems(a[1..]) + NormalItems(b));
        (h + NormalItems(a[1..])) + NormalItems(b);
      }
    }
  }

  /** Every indicator lands in exactly one of the abnormal list, the normal list
      or neither (status `Unknown`): the lengths add up to the indicator count. */
  lemma {:induction false} PartitionCounts(inds: seq<Indicator>)
    ensures |AbnormalItems(inds)| + |NormalItems(inds)| + CountStatus(inds, IndicatorStatus.Unknown) == |inds|
    ensures |NormalItems(inds)| == CountStatus(inds, Normal)
  {
    if inds != [] {
      PartitionCounts(inds[1..]);
    }
  }

  // ---------------------------------------------------------------------------
  // Status badges

  /** What `StatusBadge` draws: a fixed label for four statuses, or the raw text. */
  datatype Badge = NormalBadge | HighBadge | LowBadge | AbnormalBadge | RawBadge(text: string)

  /** `StatusBadge`: compares the lower-cased status against four names. */
  function StatusBadge(status: string): (b: Badge)
    ensures b.RawBadge? ==> b.text == status
    ensures b.RawBadge? <==> ToLower(status) !in {"normal", "high", "low", "slightly abnormal"}
  {
    var s := ToLower(status);
    if s == "normal" then NormalBadge
    else if s == "high" then HighBadge
    else if s == "low" then LowBadge
    else if s == "slightly abnormal" then AbnormalBadge
    else RawBadge(status)
  }

  /** The text the badge shows: the raw text, or a fixed label which, read back as
      a status, gets the same badge again (except "Abnormal", which is not one of
      the four names compared against). */
  function BadgeLabel(b: Badge): (t: string)
    ensures b.RawBadge? ==> t == b.text
    ensures b.NormalBadge? || b.HighBadge? || b.LowBadge? ==> StatusBadge(t) == b
    ensures b.AbnormalBadge? ==> StatusBadge(t) == RawBadge(t)
  {
    match b
    case NormalBadge => "Normal"
    case HighBadge => "High"
    case LowBadge => "Low"
    case AbnormalBadge => "Abnormal"
    case RawBadge(t) => t
  }

  /** Statuses that differ only in letter case get the same fixed badge. */
  lemma BadgeIgnoresCase(s: string, t: string)
    requires ToLower(s) == ToLower(t)
    ensures StatusBadge(s).RawBadge? == StatusBadge(t).RawBadge?
    ensures !StatusBadge(s).RawBadge? ==> StatusBadge(s) == StatusBadge(t)
  {
  }

  /** A status written in any case is badged as its lower-case form is. */
  lemma BadgeOfLowerCase(s: string)
    ensures StatusBadge(ToLower(s)).RawBadge? == StatusBadge(s).RawBadge?
    ensures !StatusBadge(s).RawBadge? ==> StatusBadge(ToLower(s)) == StatusBadge(s)
  {
  }

  /** The badge each of the five schema statuses receives: `Slightly Abnormal` is
      labelled "Abnormal", `Unknown` falls through to its raw text. */
  lemma BadgeOfStatus(s: IndicatorStatus)
    ensures StatusBadge(StatusText(s)) == match s
      case Normal => NormalBadge
      case High => HighBadge
      case Low => LowBadge
      case SlightlyAbnormal => AbnormalBadge
      case Unknown => RawBadge("Unknown")
    ensures BadgeLabel(StatusBadge(StatusText(s))) == if s == SlightlyAbnormal then "Abnormal" else StatusText(s)
  {
  }

  // ---------------------------------------------------------------------------
  // The value table: lookups by parameter name

  /** `indicators.find(i => i.parameter === p)`: nothing when no indicator has
      parameter `p`, else the first one that has. */
  function FindIndicator(inds: seq<Indicator>, p: string): (r: Option<Indicator>)
    ensures r.None? <==> forall k :: 0 <= k < |inds| ==> inds[k].parameter != p
    ensures forall k :: 0 <= k < |inds| && inds[k].parameter == p
                        && (forall j :: 0 <= j < k ==> inds[j].parameter != p)
                        ==> r == Some(inds[k])
  {
    var pred := (i: Indicator) => i.parameter == p;
    forall k | 0 <= k < |inds| && inds[k].parameter == p && (forall j :: 0 <= j < k ==> inds[j].parameter != p)
      ensures Find(inds, pred) == Some(inds[k])
    {
      FindIsFirst(inds, pred, k);
    }
    Find(inds, pred)
  }

  /** `simpleExplanations.find(e => e.parameter === p)?.text`: nothing when no
      explanation has parameter `p`, else the text of the first one that has. */
  function FindExplanation(exps: seq<Explanation>, p: string): (r: Option<string>)
    ensures r.None? <==> forall k :: 0 <= k < |exps| ==> exps[k].parameter != p
    ensures forall k :: 0 <= k < |exps| && exps[k].parameter == p
                        && (forall j :: 0 <= j < k ==> exps[j].parameter != p)
                        ==> r == Some(exps[k].text)
  {
    var pred := (e: Explanation) => e.parameter == p;
    forall k | 0 <= k < |exps| && exps[k].parameter == p && (forall j :: 0 <= j < k ==> exps[j].parameter != p)
      ensures Find(exps, pred) == Some(exps[k])
    {
      FindIsFirst(exps, pred, k);
    }
    match Find(exps, pred)
    case Some(e) => Some(e.text)
    case None => None
  }

  /** `indicator?.status || 'Unknown'`: the status text handed to the row's badge. */
  function RowStatus(inds: seq<Indicator>, p: string): (t: string)
    ensures (forall k :: 0 <= k < |inds| ==> inds[k].parameter != p) ==> t == "Unknown"
    ensures forall k :: 0 <= k < |inds| && inds[k].parameter == p
                        && (forall j :: 0 <= j < k ==> inds[j].parameter != p)
                        ==> t == StatusText(inds[k].status)
  {
    match FindIndicator(inds, p)
    case Some(i) => if StatusText(i.status) != "" then StatusText(i.status) else "Unknown"
    case None => "Unknown"
  }

  /** The explanation a row shows, as tooltip and in print: the first matching
      explanation's text, and only when that text is not empty. */
  function RowExplanation(exps: seq<Explanation>, p: string): (e: Option<string>)
    ensures (forall k :: 0 <= k < |exps| ==> exps[k].parameter != p) ==> e.None?
    ensures forall k :: 0 <= k < |exps| && exps[k].parameter == p
                        && (forall j :: 0 <= j < k ==> exps[j].parameter != p)
                        ==> e == if exps[k].text != "" then Some(exps[k].text) else None
  {
    match FindExplanation(exps, p)
    case Some(t) => if t != "" then Some(t) else None
    case None => None
  }

  /** One row of the "Extracted Values & Analysis" table. */
  datatype ValueRow = ValueRow(item: ExtractedValue, explanation: Option<string>, badge: Badge)

  /** The table: one row per extracted value, in order, joined by parameter name. */
  function ValueRows(r: AnalysisResult): (rows: seq<ValueRow>)
    ensures |rows| == |r.extractedValues|
    ensures forall k :: 0 <= k < |rows| ==>
      var p := r.extractedValues[k].parameter;
      && rows[k].item == r.extractedValues[k]
      && rows[k].explanation == RowExplanation(r.simpleExplanations, p)
      && rows[k].badge == StatusBadge(RowStatus(r.indicators, p))
  {
    seq(|r.extractedValues|, k requires 0 <= k < |r.extractedValues| =>
      var item := r.extractedValues[k];
      ValueRow(item, RowExplanation(r.simpleExplanations, item.parameter),
               StatusBadge(RowStatus(r.indicators, item.parameter))))
  }

  /** A row without a matching indicator shows the raw "Unknown" badge; one with a
      matching indicator shows the badge of the FIRST match's status. */
  lemma RowBadge(r: AnalysisResult, k: nat)
    requires k < |r.extractedValues|
    ensures var p := r.extractedValues[k].parameter;
      && ((forall j :: 0 <= j < |r.indicators| ==> r.indicators[j].parameter != p)
            ==> ValueRows(r)[k].badge == RawBadge("Unknown"))
      && (forall i :: 0 <= i < |r.indicators| && r.indicators[i].parameter == p
            && (forall j :: 0 <= j < i ==> r.indicators[j].parameter != p)
            ==> ValueRows(r)[k].badge == StatusBadge(StatusText(r.indicators[i].status)))
  {
  }

  // ---------------------------------------------------------------------------
  // Score colours and the gauge

  /** The three colour bands of `getScoreColor` and the gauge. */
  datatype Band = Green | Yellow | Red

  /** `getScoreColor`: at least 80 is green, at least 60 yellow, anything lower red. */
  function ScoreBand(score: int): (b: Band)
    ensures b == Green <==> score >= 80
    ensures b == Yellow <==> 60 <= score < 80
    ensures b == Red <==> score < 60
  {
    if score >= 80 then Green else if score >= 60 then Yellow else Red
  }

  function BandRank(b: Band): nat {
    match b
    case Red => 0
    case Yellow => 1
    case Green => 2
  }

  /** A higher score never gets a worse colour. */
  lemma ScoreBandMonotone(s: int, t: int)
    requires s <= t
    ensures BandRank(ScoreBand(s)) <= BandRank(ScoreBand(t))
  {
  }

  /** `Math.min(100, Math.max(0, score))`: the point of [0, 100] nearest the score. */
  function ClampScore(score: int): (c: int)
    ensures 0 <= c <= 100
    ensures 0 <= score <= 100 ==> c == score
    ensures forall v :: 0 <= v <= 100 ==> Distance(c, score) <= Distance(v, score)
  {
    if score < 0 then 0 else if score > 100 then 100 else score
  }

  function Distance(a: int, b: int): nat {
    if a <= b then b - a else a - b
  }

  /** Clamping never changes the colour band a score falls in. */
  lemma ClampKeepsBand(score: int)
    ensures ScoreBand(ClampScore(score)) == ScoreBand(score)
  {
  }

  /** What the health-score gauge derives from its inputs. `score` is shown as
      given; the arc is drawn for the clamped score; the tooltip lists at most five
      abnormal items and, past five, how many more there are. */
  datatype GaugeView = GaugeView(
    score: int,
    arcScore: int,
    band: Band,
    abnormalCount: nat,
    normalCount: nat,
    safeTotal: nat,
    listed: seq<Indicator>,
    moreIssues: Option<nat>,
    allGood: bool)

  /** `HealthScoreGauge`: score colours with the same thresholds as `getScoreColor`,
      a clamped arc, a divisor that is never zero, and a capped tooltip list. */
  function Gauge(score: int, abnormalItems: seq<Indicator>, normalItems: seq<string>): (g: GaugeView)
    ensures g.score == score && 0 <= g.arcScore <= 100
    ensures 0 <= score <= 100 ==> g.arcScore == score
    ensures g.band == ScoreBand(score)
    ensures g.abnormalCount == |abnormalItems| && g.normalCount == |normalItems|
    ensures 1 <= g.safeTotal && g.abnormalCount + g.normalCount <= g.safeTotal
    ensures g.abnormalCount + g.normalCount > 0 ==> g.safeTotal == g.abnormalCount + g.normalCount
    ensures |g.listed| <= 5 && g.listed <= abnormalItems
    ensures |abnormalItems| <= 5 ==> g.listed == abnormalItems && g.moreIssues.None?
    ensures |abnormalItems| > 5 ==> g.moreIssues == Some(|abnormalItems| - 5)
    ensures |g.listed| + (if g.moreIssues.Some? then g.moreIssues.value else 0) == |abnormalItems|
    ensures g.allGood <==> abnormalItems == []
  {
    var total := |abnormalItems| + |normalItems|;
    var n := |abnormalItems|;
    GaugeView(
      score,
      ClampScore(score),
      if score >= 80 then Green else if score >= 60 then Yellow else Red,
      n,
      |normalItems|,
      if total < 1 then 1 else total,
      abnormalItems[..if n < 5 then n else 5],
      if n > 5 then Some(n - 5) else None,
      n == 0)
  }

  /** The gauge as the result view instantiates it. Its counts are exactly the
      partition's: abnormal plus normal is the indicator count less the `Unknown` ones. */
  lemma GaugeOfResult(r: AnalysisResult)
    ensures var g := Gauge(r.healthScore.currentScore, AbnormalItems(r.indicators), NormalItems(r.indicators));
      g.abnormalCount + g.normalCount == |r.indicators| - CountStatus(r.indicators, IndicatorStatus.Unknown)
  {
    PartitionCounts(r.indicators);
  }

  // ---------------------------------------------------------------------------
  // Suggested-question chips

  /** A suggestion chip: the full question it sends and the caption it shows. */
  datatype Chip = Chip(question: string, caption: string)

  /** "Try asking" chips: only before the first chat turn, the first three doctor
      questions, each captioned with at most 50 characters plus "...". */
  function SuggestionChips(history: seq<ChatMessage>, questions: seq<string>): (chips: seq<Chip>)
    ensures history != [] ==> chips == []
    ensures history == [] ==> |chips| == if |questions| < 3 then |questions| else 3
    ensures forall k :: 0 <= k < |chips| ==>
      && chips[k].question == questions[k]
      && |chips[k].caption| <= 53
      && (|questions[k]| <= 50 ==> chips[k].caption == questions[k])
      && (|questions[k]| > 50 ==> chips[k].caption == questions[k][..50] + "...")
  {
    if history != [] then []
    else
      var shown := questions[..if |questions| < 3 then |questions| else 3];
      seq(|shown|, k requires 0 <= k < |shown| => Chip(shown[k], Ellipsize(shown[k], 50)))
  }
}
