/** The three scanner pages (`/dashboard/phishing`, `/dashboard/ip`,
    `/dashboard/dataleak`). Each posts its input, turns the loosely typed answer into
    a score and a colour, and stores the answer with `riskScore` and `riskColor`
    added; on failure it stores a fixed error record. The pages differ only in their
    start colour, fallback score, colour list literal and error text. */
module ScannerPages {
  import opened Js
  import opened Text
  import opened Http
  import opened Scan
  import PhishingRoute
  import IpRoute
  import DataLeakRoute

  /** The property under which each page posts its input. */
  function InputKey(t: ScanType): string {
    match t
    case Phishing => "url"
    case Ip => "ip"
    case DataLeak => "email"
  }

  function RequestBody(t: ScanType, input: string): Body {
    Json(Obj(map[InputKey(t) := Str(input)]))
  }

  /** `res.data || {}`, as the object whose fields the page reads and spreads. */
  function Base(data: Value): Record {
    Spread(Or(data, Obj(map[])))
  }

  /** The page's own risk signal: `isSuspicious`, `maliciousCount > 0`, `breached`. */
  predicate Flagged(t: ScanType, base: Record) {
    match t
    case Phishing => Truthy(Field(base, "isSuspicious"))
    case Ip => Positive(Field(base, "maliciousCount"))
    case DataLeak => Truthy(Field(base, "breached"))
  }

  /** The score used when the answer carries no numeric score. */
  function FallbackScore(t: ScanType, base: Record): int {
    if !Flagged(t, base) then 20
    else if t == DataLeak then 75
    else 70
  }

  /** `finalScore`, else `riskScore`, else the fallback: the first that is a number. */
  function Score(t: ScanType, base: Record): int {
    var f := Field(base, "finalScore");
    var r := Field(base, "riskScore");
    if f.Num? then f.n else if r.Num? then r.n else FallbackScore(t, base)
  }

  /** The colour list literal each page tests the answer's `color` against. */
  function Palette(t: ScanType): seq<string> {
    match t
    case Phishing => ["purple", "blue", "red", "green"]
    case Ip => ["purple", "blue", "red", "green"]
    case DataLeak => ["red", "purple", "green", "blue"]
  }

  function ThresholdColor(score: int): Color {
    if score >= 70 then Red else if score >= 35 then Purple else Green
  }

  /** The answer's `color` when the page's list includes it, else the colour of the
      score. */
  function PageColor(t: ScanType, base: Record, score: int): Color {
    var c := Field(base, "color");
    if c.Str? && c.s in Palette(t) then ParseColor(c).value else ThresholdColor(score)
  }

  /** `{ ...base, riskScore: score, riskColor: color }` */
  function Scored(base: Record, score: int, color: Color): Record {
    base["riskScore" := Num(score)]["riskColor" := Str(ColorName(color))]
  }

  function FailureMessage(t: ScanType): string {
    match t
    case Phishing => "Scan failed. Please try again."
    case Ip => "Failed to analyze IP. Try again later."
    case DataLeak => "Failed to check data leak. Please try again."
  }

  function FailureRecord(t: ScanType): Record {
    map["error" := Str(FailureMessage(t)), "isSuspicious" := Bool(true), "riskScore" := Num(70), "riskColor" := Str("red")]
  }

  /** The `result` a scan leaves behind. */
  function Outcome(t: ScanType, response: Fetch): Value {
    match response
    case Rejected => Obj(FailureRecord(t))
    case Delivered(data) =>
      var base := Base(data);
      var score := Score(t, base);
      Obj(Scored(base, score, PageColor(t, base, score)))
  }

  /** The `scanColor` a scan leaves behind: a failure does not touch it. */
  function ColorAfter(t: ScanType, response: Fetch, before: Color): Color {
    match response
    case Rejected => before
    case Delivered(data) =>
      var base := Base(data);
      PageColor(t, base, Score(t, base))
  }

  class ScannerPage {
    const scanner: ScanType
    var input: string
    var result: Value
    var loading: bool
    var scanColor: Color

    constructor (scanner: ScanType)
      ensures this.scanner == scanner && input == "" && result == Null && !loading
      ensures scanColor == StartColor(scanner)
    {
      this.scanner := scanner;
      input := "";
      result := Null;
      loading := false;
      scanColor := StartColor(scanner);
    }

    /** The input's `onChange`. */
    method Edit(text: string)
      modifies this`input
      ensures input == text
    {
      input := text;
    }

    /** `disabled={!input.trim() || loading}` */
    predicate ScanDisabled()
      reads this
    {
      Trim(input) == "" || loading
    }

    /** The statements of `handleScan` before the request is awaited. */
    method StartScan()
      modifies this`loading, this`result, this`scanColor
      ensures loading && result == Null && scanColor == StartColor(scanner)
    {
      loading := true;
      result := Null;
      scanColor := StartColor(scanner);
    }

    /** The statements after the request settles, with the `finally`. */
    method FinishScan(response: Fetch)
      modifies this`loading, this`result, this`scanColor
      ensures result == Outcome(scanner, response)
      ensures scanColor == ColorAfter(scanner, response, old(scanColor))
      ensures !loading
    {
      match response {
        case Delivered(data) =>
          var base := Base(data);
          var score := Score(scanner, base);
          var color := PageColor(scanner, base, score);
          scanColor := color;
          result := Obj(Scored(base, score, color));
        case Rejected =>
          result := Obj(FailureRecord(scanner));
      }
      loading := false;
    }

    method HandleScan(response: Fetch)
      modifies this`loading, this`result, this`scanColor
      ensures result == Outcome(scanner, response)
      ensures scanColor == ColorAfter(scanner, response, StartColor(scanner))
      ensures !loading && input == old(input)
    {
      StartScan();
      FinishScan(response);
    }
  }

  /** The button is disabled exactly while loading or when the input is all white
      space. */
  lemma ScanDisabledIff(input: string, loading: bool)
    ensures (Trim(input) == "" || loading) <==> loading || forall i :: 0 <= i < |input| ==> IsSpace(input[i])
  {
    TrimEmptyIff(input);
  }

  /** The three colour lists accept the same four names. */
  lemma PalettesAgree(t: ScanType, v: Value)
    ensures (v.Str? && v.s in Palette(t)) <==> ParseColor(v).Some?
  {
  }

  /** The colour is the answer's own when it names one of the four, else red from
      70, purple from 35, green below. */
  lemma ColorRule(t: ScanType, base: Record, score: int)
    ensures ParseColor(Field(base, "color")).Some? ==> PageColor(t, base, score) == ParseColor(Field(base, "color")).value
    ensures ParseColor(Field(base, "color")).None? ==>
              (PageColor(t, base, score) == Red <==> score >= 70)
              && (PageColor(t, base, score) == Purple <==> 35 <= score < 70)
              && (PageColor(t, base, score) == Green <==> score < 35)
  {
  }

  /** With neither a numeric score nor a colour in the answer, a flagged answer is
      red (70 or 75 are at least 70) and an unflagged one green (20 is below 35). */
  lemma DefaultColors(t: ScanType, base: Record)
    requires !Field(base, "finalScore").Num? && !Field(base, "riskScore").Num?
    requires ParseColor(Field(base, "color")).None?
    ensures PageColor(t, base, Score(t, base)) == if Flagged(t, base) then Red else Green
    ensures Score(t, base) == if !Flagged(t, base) then 20 else if t == DataLeak then 75 else 70
  {
  }

  /** `finalScore` wins over `riskScore`, which wins over the page's own signal. */
  lemma ScorePriority(t: ScanType, base: Record, final: int, risk: int)
    ensures Score(t, base["finalScore" := Num(final)]) == final
    ensures !Field(base, "finalScore").Num? ==> Score(t, base["riskScore" := Num(risk)]) == risk
  {
  }

  /** The stored result keeps every field of the answer except the two it sets. */
  lemma ScoredKeepsFields(base: Record, score: int, color: Color, key: string)
    ensures Field(Scored(base, score, color), "riskScore") == Num(score)
    ensures Field(Scored(base, score, color), "riskColor") == Str(ColorName(color))
    ensures key != "riskScore" && key != "riskColor" ==> Field(Scored(base, score, color), key) == Field(base, key)
    ensures Scored(base, score, color).Keys == base.Keys + {"riskScore", "riskColor"}
  {
  }

  /** After a scan, the stored result's `riskColor` is the background colour when
      the request succeeded; a failure stores red and leaves the background at the
      page's start colour. */
  lemma ResultColorMatchesBackground(t: ScanType, response: Fetch)
    ensures Outcome(t, response).Obj?
    ensures response.Delivered? ==> Field(Outcome(t, response).fields, "riskColor") == Str(ColorName(ColorAfter(t, response, StartColor(t))))
    ensures response.Rejected? ==>
              && ColorAfter(t, response, StartColor(t)) == StartColor(t)
              && Field(Outcome(t, response).fields, "riskScore") == Num(70)
              && Field(Outcome(t, response).fields, "riskColor") == Str("red")
  {
  }

  /** Any phishing report, as the page reads it: the verdict alone decides. */
  lemma PhishingReportShown(rep: PhishingRoute.Report)
    ensures var response := Delivered(PhishingRoute.ReportJson(rep));
            && ColorAfter(Phishing, response, Purple) == (if rep.isSuspicious then Red else Green)
            && Field(Outcome(Phishing, response).fields, "riskScore") == Num(if rep.isSuspicious then 70 else 20)
  {
    var base := Base(PhishingRoute.ReportJson(rep));
    assert Field(base, "isSuspicious") == Bool(rep.isSuspicious);
    DefaultColors(Phishing, base);
  }

  /** End to end with the phishing route: whenever the route answers 200, the
      page shows 70 and red for a suspicious URL and 20 and green otherwise. */
  lemma PhishingPageVerdict(input: string, ai: bool, c: Completion)
    requires PhishingRoute.Post(RequestBody(Phishing, input), ai, c).Success?
    ensures var response := Deliver(PhishingRoute.Post(RequestBody(Phishing, input), ai, c), PhishingRoute.ReportJson);
            var suspicious := PhishingRoute.IsSuspicious(input);
            && ColorAfter(Phishing, response, Purple) == (if suspicious then Red else Green)
            && Field(Outcome(Phishing, response).fields, "riskScore") == Num(if suspicious then 70 else 20)
  {
    var r := PhishingRoute.Post(RequestBody(Phishing, input), ai, c);
    assert r.body.isSuspicious == PhishingRoute.IsSuspicious(input);
    PhishingReportShown(r.body);
  }

  /** End to end with the IP route: red and 70 exactly when the reported malicious
      count compares greater than 0. */
  lemma IpPageVerdict(input: string, k: bool, l: Lookup, ai: bool, c: Completion)
    requires IpRoute.Post(RequestBody(Ip, input), k, l, ai, c).Success?
    ensures var r := IpRoute.Post(RequestBody(Ip, input), k, l, ai, c);
            var response := Deliver(r, IpRoute.ReportJson);
            var risky := Positive(r.body.maliciousCount);
            && ColorAfter(Ip, response, Blue) == (if risky then Red else Green)
            && Field(Outcome(Ip, response).fields, "riskScore") == Num(if risky then 70 else 20)
  {
    var r := IpRoute.Post(RequestBody(Ip, input), k, l, ai, c);
    var base := Base(IpRoute.ReportJson(r.body));
    assert Field(base, "maliciousCount") == r.body.maliciousCount;
    DefaultColors(Ip, base);
  }

  /** End to end with the data-leak route: red and 75 exactly when the route found
      breaches, green and 20 otherwise. */
  lemma DataLeakPageVerdict(input: string, k: bool, l: Lookup, ai: bool, c: Completion)
    requires DataLeakRoute.Post(RequestBody(DataLeak, input), k, l, ai, c).Success?
    ensures var r := DataLeakRoute.Post(RequestBody(DataLeak, input), k, l, ai, c);
            var response := Deliver(r, DataLeakRoute.ReportJson);
            && ColorAfter(DataLeak, response, Red) == (if r.body.breached then Red else Green)
            && Field(Outcome(DataLeak, response).fields, "riskScore") == Num(if r.body.breached then 75 else 20)
  {
    var r := DataLeakRoute.Post(RequestBody(DataLeak, input), k, l, ai, c);
    var base := Base(DataLeakRoute.ReportJson(r.body));
    assert Field(base, "breached") == Bool(r.body.breached);
    DefaultColors(DataLeak, base);
  }
}
