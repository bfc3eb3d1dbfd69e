/** The main dashboard (`/dashboard`): one `handleAnalyze` for the three scans,
    which stores the answer tagged with its scan type and appends it to the
    history; an effect that turns the background red or green once a result is in;
    and the cards that present the result. */
module Dashboard {
  import opened Js
  import opened Scan
  import opened Http
  import Analytics
  import ResultCard
  import PhishingRoute
  import IpRoute
  import DataLeakRoute

  const ErrorMessage := "Error analyzing input. Please try again."
  const NoSummary := "AI analysis summary not available."

  /** `{ ...res?.data, type }` */
  function Entry(t: ScanType, data: Value): Record {
    Spread(data)["type" := Str(TypeName(t))]
  }

  function ErrorRecord(): Record {
    map["error" := Str(ErrorMessage)]
  }

  /** `result.isSuspicious || result.maliciousCount > 0 || result.breached` */
  predicate Risky(result: Value) {
    Truthy(Get(result, "isSuspicious")) || Positive(Get(result, "maliciousCount")) || Truthy(Get(result, "breached"))
  }

  /** The colour the effect leaves: nothing changes for a missing or error result,
      red for a risky one, and green for a safe one once loading is over. */
  function EffectColor(result: Value, loading: bool, current: Color): Color {
    if !Truthy(result) || Truthy(Get(result, "error")) then current
    else if Risky(result) then Red
    else if !loading then Green
    else current
  }

  /** The `result` a scan leaves behind. */
  function Outcome(t: ScanType, response: Fetch): Value {
    match response
    case Rejected => Obj(ErrorRecord())
    case Delivered(data) => Obj(Entry(t, data))
  }

  /** The `history` a scan leaves behind: one entry more exactly when it succeeded. */
  function HistoryAfter(t: ScanType, response: Fetch, history: seq<Record>): seq<Record> {
    match response
    case Rejected => history
    case Delivered(data) => history + [Entry(t, data)]
  }

  /** The background a scan leaves: the scan's start colour, unless the stored
      answer is one the effect acts on, which makes it red or green. */
  function FinalColor(t: ScanType, response: Fetch): Color {
    EffectColor(Outcome(t, response), false, StartColor(t))
  }

  /** `loading={loading && activeScan === type}` on each input card. */
  predicate CardLoading(loading: bool, activeScan: Option<ScanType>, t: ScanType) {
    loading && activeScan == Some(t)
  }

  class Page {
    var url: string
    var ip: string
    var email: string
    var result: Value
    var history: seq<Record>
    var loading: bool
    var activeScan: Option<ScanType>
    var scanColor: Color

    constructor ()
      ensures url == "" && ip == "" && email == "" && result == Null && history == []
      ensures !loading && activeScan == None && scanColor == Purple
    {
      url, ip, email := "", "", "";
      result := Null;
      history := [];
      loading := false;
      activeScan := None;
      scanColor := Purple;
    }

    /** The statements of `handleAnalyze` before the request is awaited. */
    method StartAnalyze(t: ScanType)
      modifies this`loading, this`activeScan, this`result, this`scanColor
      ensures loading && activeScan == Some(t) && result == Null && scanColor == StartColor(t)
    {
      loading := true;
      activeScan := Some(t);
      result := Null;
      scanColor := StartColor(t);
    }

    /** The statements after the request settles, with the `finally`. */
    method FinishAnalyze(t: ScanType, response: Fetch)
      modifies this`result, this`history, this`loading, this`activeScan
      ensures result == Outcome(t, response)
      ensures history == HistoryAfter(t, response, old(history))
      ensures !loading && activeScan == None
    {
      match response {
        case Delivered(data) =>
          var entry := Entry(t, data);
          result := Obj(entry);
          history := history + [entry];
        case Rejected =>
          result := Obj(ErrorRecord());
      }
      loading := false;
      activeScan := None;
    }

    /** The effect on `[result, loading]`. */
    method ApplyEffect()
      modifies this`scanColor
      ensures scanColor == EffectColor(result, loading, old(scanColor))
    {
      if !Truthy(result) || Truthy(Get(result, "error")) {
        return;
      }
      if Risky(result) {
        scanColor := Red;
      } else if !loading {
        scanColor := Green;
      }
    }

    /** A whole scan, with the effect run after each batch of state updates. */
    method HandleAnalyze(t: ScanType, response: Fetch)
      modifies this`result, this`history, this`loading, this`activeScan, this`scanColor
      ensures result == Outcome(t, response)
      ensures history == HistoryAfter(t, response, old(history))
      ensures !loading && activeScan == None
      ensures scanColor == FinalColor(t, response)
      ensures url == old(url) && ip == old(ip) && email == old(email)
    {
      StartAnalyze(t);
      ApplyEffect();
      FinishAnalyze(t, response);
      ApplyEffect();
    }
  }

  /** A successful scan appends one entry, tagged with its type, after the earlier
      ones; a failed one leaves the history as it was. */
  lemma HistoryGrowsByOne(t: ScanType, response: Fetch, history: seq<Record>)
    ensures response.Delivered? ==>
              && |HistoryAfter(t, response, history)| == |history| + 1
              && HistoryAfter(t, response, history)[..|history|] == history
              && Field(HistoryAfter(t, response, history)[|history|], "type") == Str(TypeName(t))
    ensures response.Rejected? ==> HistoryAfter(t, response, history) == history
  {
    if response.Delivered? {
      assert HistoryAfter(t, response, history)[..|history|] == history;
    }
  }

  /** The tagged entry keeps every field of the answer except `type`. */
  lemma EntryKeepsFields(t: ScanType, data: Value, key: string)
    ensures key != "type" ==> Field(Entry(t, data), key) == Field(Spread(data), key)
    ensures Entry(t, data).Keys == Spread(data).Keys + {"type"}
  {
  }

  /** On the final colour: a failure keeps the start colour; an answer without a
      truthy `error` is red exactly when it is risky and green otherwise. */
  lemma FinalColorRule(t: ScanType, response: Fetch)
    ensures response.Rejected? ==> FinalColor(t, response) == StartColor(t)
    ensures response.Delivered? && !Truthy(Field(Spread(response.data), "error")) ==>
              FinalColor(t, response) == if Risky(Obj(Entry(t, response.data))) then Red else Green
    ensures response.Delivered? && Truthy(Field(Spread(response.data), "error")) ==>
              FinalColor(t, response) == StartColor(t)
  {
    if response.Delivered? {
      assert Get(Outcome(t, response), "error") == Field(Spread(response.data), "error");
    }
  }

  /** While a scan runs, exactly the card of that scan shows its spinner; after
      it, none does. */
  lemma OneCardLoading(t: ScanType, u: ScanType)
    ensures CardLoading(true, Some(t), u) <==> u == t
    ensures !CardLoading(false, None, u)
  {
  }

  /** A recorded scan raises its own bar of the analytics by one and no other. */
  lemma HistoryFeedsCategory(t: ScanType, data: Value, history: seq<Record>, u: ScanType, k: int)
    requires 0 <= k < 3
    ensures Analytics.CategoryCount(history + [Entry(t, data)], TypeName(u))
            == Analytics.CategoryCount(history, TypeName(u)) + (if u == t then 1 else 0)
    ensures Analytics.CategoryData(history + [Entry(t, data)])[k].value
            == Analytics.CategoryData(history)[k].value + (if Analytics.CategoryTypes[k] == TypeName(t) then 1 else 0)
  {
    Analytics.CategoryAppend(history, Entry(t, data), TypeName(u));
    TypeNamesDistinct(t, u);
    Analytics.BarAppend(history, Entry(t, data), k);
  }

  /** The summary card on a route's answer: the phishing and data-leak texts are
      shown as they are when non-empty; an empty IP explanation, which `??` lets
      through, is replaced by the dashboard's fixed text. */
  lemma SummaryShowsRouteText(p: PhishingRoute.Report, i: IpRoute.Report, d: DataLeakRoute.Report)
    ensures p.explanation != "" ==> SummaryText(Obj(Entry(Phishing, PhishingRoute.ReportJson(p)))) == Str(p.explanation)
    ensures i.explanation != "" ==> SummaryText(Obj(Entry(Ip, IpRoute.ReportJson(i)))) == Str(i.explanation)
    ensures i.explanation == "" ==> SummaryText(Obj(Entry(Ip, IpRoute.ReportJson(i)))) == Str(NoSummary)
    ensures d.aiSummary != "" ==> SummaryText(Obj(Entry(DataLeak, DataLeakRoute.ReportJson(d)))) == Str(d.aiSummary)
  {
    assert Get(Obj(Entry(Phishing, PhishingRoute.ReportJson(p))), "explanation") == Str(p.explanation);
    assert Get(Obj(Entry(Ip, IpRoute.ReportJson(i))), "explanation") == Str(i.explanation);
    assert Get(Obj(Entry(Ip, IpRoute.ReportJson(i))), "aiSummary") == Undefined;
    var e := Entry(DataLeak, DataLeakRoute.ReportJson(d));
    assert Get(Obj(e), "explanation") == Undefined;
    assert Get(Obj(e), "aiSummary") == Str(d.aiSummary);
  }

  /** No route puts `riskScore` or `isRisky` into its answer, so every entry the
      dashboard records from a route counts as safe in the analytics, even one the
      dashboard itself shows in red. */
  lemma RouteEntriesCountSafe(p: PhishingRoute.Report, i: IpRoute.Report, d: DataLeakRoute.Report)
    ensures Analytics.IsSafe(Entry(Phishing, PhishingRoute.ReportJson(p)))
    ensures Analytics.IsSafe(Entry(Ip, IpRoute.ReportJson(i)))
    ensures Analytics.IsSafe(Entry(DataLeak, DataLeakRoute.ReportJson(d)))
    ensures p.isSuspicious ==> FinalColor(Phishing, Delivered(PhishingRoute.ReportJson(p))) == Red
  {
    var e := Entry(Phishing, PhishingRoute.ReportJson(p));
    assert Field(e, "riskScore") == Undefined && Field(e, "isRisky") == Undefined;
    assert Field(e, "isSuspicious") == Bool(p.isSuspicious);
    assert Field(e, "error") == Undefined;
    var e2 := Entry(Ip, IpRoute.ReportJson(i));
    assert Field(e2, "riskScore") == Undefined && Field(e2, "isRisky") == Undefined;
    var e3 := Entry(DataLeak, DataLeakRoute.ReportJson(d));
    assert Field(e3, "riskScore") == Undefined && Field(e3, "isRisky") == Undefined;
  }

  /** The "AI Threat Summary" text: `explanation`, else `aiSummary`, else a fixed
      text. */
  function SummaryText(result: Value): (v: Value)
    ensures Truthy(v)
    ensures Truthy(Get(result, "explanation")) ==> v == Get(result, "explanation")
    ensures !Truthy(Get(result, "explanation")) && Truthy(Get(result, "aiSummary")) ==> v == Get(result, "aiSummary")
    ensures !Truthy(Get(result, "explanation")) && !Truthy(Get(result, "aiSummary")) ==> v == Str(NoSummary)
  {
    Or(Or(Get(result, "explanation"), Get(result, "aiSummary")), Str(NoSummary))
  }

  /** A card's description and colour. */
  datatype CardFace = CardFace(description: string, color: Color)

  /** The "Risk Level" card, present when `isSuspicious` is defined. */
  function RiskCard(result: Value): Option<CardFace> {
    var s := Get(result, "isSuspicious");
    if s == Undefined then None
    else if Truthy(s) then Some(CardFace("Suspicious activity detected", Red))
    else Some(CardFace("No major threats found", Green))
  }

  /** The colour of the "IP / Domain Report" card, present when `maliciousCount` is
      defined. */
  function IpCardColor(result: Value): Option<Color> {
    var m := Get(result, "maliciousCount");
    if m == Undefined then None else if Positive(m) then Some(Red) else Some(Green)
  }

  /** The "Data Leak Status" card, present when `breached` is defined: `null` is
      blue, truthy red, any other value green. */
  function BreachCard(result: Value): Option<CardFace> {
    var b := Get(result, "breached");
    if b == Undefined then None
    else if b == Null then Some(CardFace("RapidAPI Breach Directory — AI risk assessment applied.", Blue))
    else if Truthy(b) then Some(CardFace("⚠️ This email appears in known breaches!", Red))
    else Some(CardFace("✅ No breaches found for this email.", Green))
  }

  /** The three-way split of the breach card, and the agreement of each card's
      colour with the background the effect paints for a result of one scan. */
  lemma CardsMatchBackground(result: Value)
    ensures BreachCard(result).Some? ==>
              && (BreachCard(result).value.color == Blue <==> Get(result, "breached") == Null)
              && (BreachCard(result).value.color == Red <==> Truthy(Get(result, "breached")))
              && (BreachCard(result).value.color == Green <==> !Truthy(Get(result, "breached")) && Get(result, "breached") != Null)
    ensures RiskCard(result).Some? && RiskCard(result).value.color == Red ==> Risky(result)
    ensures IpCardColor(result) == Some(Red) ==> Risky(result)
    ensures Risky(result) && Truthy(result) && !Truthy(Get(result, "error")) ==> EffectColor(result, false, Purple) == Red
  {
  }

  /** A leak line of the dashboard's own card: no default for the domain, and the
      same badge rule as the shared card. */
  function DashboardLine(l: Value): ResultCard.LeakLine {
    ResultCard.LeakLine(Or(Get(l, "name"), Str("Unknown Source")), Get(l, "domain"),
                        Or(Get(l, "date"), Str("Date Unknown")), ResultCard.Badges(l))
  }

  /** `leaks?.length ? leaks.slice(0, 5).map(...) : null`, without a toggle. */
  function DashboardLeaks(leaks: Value): (lines: seq<ResultCard.LeakLine>)
    ensures |lines| <= 5
    ensures !HasEntries(leaks) ==> lines == []
  {
    if leaks.Arr? && HasEntries(leaks) then
      var k := if |leaks.items| < 5 then |leaks.items| else 5;
      seq(k, i requires 0 <= i < k => DashboardLine(leaks.items[i]))
    else []
  }

  /** The dashboard's leak list is the shared card's, shown without a toggle: the
      same leaks, names, dates and badge colours, and the same domain whenever the
      leak has a truthy one. */
  lemma LeakLinesAgree(leaks: seq<Value>, i: int)
    requires |leaks| > 0
    ensures |DashboardLeaks(Arr(leaks))| == |ResultCard.DisplayedLeaks(leaks)|
    ensures 0 <= i < |DashboardLeaks(Arr(leaks))| ==>
              var ours := DashboardLeaks(Arr(leaks))[i];
              var theirs := ResultCard.DisplayedLeaks(leaks)[i];
              && ours.name == theirs.name && ours.date == theirs.date && ours.badges == theirs.badges
              && (Truthy(Get(leaks[i], "domain")) ==> ours.domain == theirs.domain)
  {
  }
}
