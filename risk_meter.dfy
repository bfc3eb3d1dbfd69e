/** The `RiskMeter` component: a score taken from the result by its own priority
    chain, clamped to 0..100, bucketed into three levels unless the result names a
    level, and shown in the level's colour. */
module RiskMeter {
  import opened Js
  import opened Scan
  import ScannerPages
  import Http

  datatype Level = Low | Medium | High

  function LevelName(l: Level): string {
    match l
    case Low => "Low"
    case Medium => "Medium"
    case High => "High"
  }

  /** `riskScore`, else `finalScore`, else 70 for a suspicious result, else 20. */
  function RawScore(result: Record): int {
    var r := Field(result, "riskScore");
    var f := Field(result, "finalScore");
    if r.Num? then r.n else if f.Num? then f.n
    else if Truthy(Field(result, "isSuspicious")) then 70 else 20
  }

  /** `Math.max(0, Math.min(100, raw))` */
  function Percent(raw: int): (p: int)
    ensures 0 <= p <= 100
    ensures 0 <= raw <= 100 ==> p == raw
    ensures raw < 0 ==> p == 0
    ensures raw > 100 ==> p == 100
  {
    var capped := if raw < 100 then raw else 100;
    if capped > 0 then capped else 0
  }

  function BucketLevel(percent: int): Level {
    if percent >= 70 then High else if percent >= 35 then Medium else Low
  }

  /** `result.riskLevel ?? bucket`, as a key of `colorMap`: None when a supplied
      level is not one of the three keys, so the lookup finds no entry. */
  function MeterLevel(result: Record): Option<Level> {
    var supplied := Field(result, "riskLevel");
    if Nullish(supplied) then Some(BucketLevel(Percent(RawScore(result))))
    else if supplied == Str("High") then Some(High)
    else if supplied == Str("Medium") then Some(Medium)
    else if supplied == Str("Low") then Some(Low)
    else None
  }

  /** The colour family of each `colorMap` entry. */
  function LevelColor(l: Level): Color {
    match l
    case High => Red
    case Medium => Purple
    case Low => Green
  }

  lemma BucketIff(p: int)
    ensures BucketLevel(p) == High <==> p >= 70
    ensures BucketLevel(p) == Medium <==> 35 <= p < 70
    ensures BucketLevel(p) == Low <==> p < 35
  {
  }

  function Rank(l: Level): int {
    match l
    case Low => 0
    case Medium => 1
    case High => 2
  }

  /** A higher percentage never gives a lower level. */
  lemma BucketMonotone(p: int, q: int)
    requires p <= q
    ensures Rank(BucketLevel(p)) <= Rank(BucketLevel(q))
  {
  }

  /** A supplied level names the level shown, whatever the score. */
  lemma SuppliedLevelWins(result: Record, l: Level)
    ensures MeterLevel(result["riskLevel" := Str(LevelName(l))]) == Some(l)
  {
  }

  /** The meter prefers `riskScore` to `finalScore`: the reverse of the pages. */
  lemma ReversedPriority(final: int, risk: int)
    requires final != risk
    ensures var r := map["finalScore" := Num(final), "riskScore" := Num(risk)];
            RawScore(r) == risk && ScannerPages.Score(Phishing, r) == final
  {
  }

  /** Clamping keeps the bucket of the raw score: the level of the percentage is the
      threshold colour the pages give the same score. */
  lemma LevelMatchesPageColor(score: int)
    ensures LevelColor(BucketLevel(Percent(score))) == ScannerPages.ThresholdColor(score)
  {
  }

  /** On a page's stored result the meter shows the page's own score (clamped), and
      with no backend colour or level the meter's colour is the page's colour. The
      reversed priority does not show, because the page writes its score into
      `riskScore`. */
  lemma MeterAgreesWithPage(t: ScanType, data: Value)
    ensures var result := ScannerPages.Outcome(t, Http.Delivered(data)).fields;
            var base := ScannerPages.Base(data);
            && RawScore(result) == ScannerPages.Score(t, base)
            && (Nullish(Field(base, "riskLevel")) && ParseColor(Field(base, "color")).None? ==>
                  MeterLevel(result).Some?
                  && LevelColor(MeterLevel(result).value) == ScannerPages.ColorAfter(t, Http.Delivered(data), StartColor(t)))
  {
    var base := ScannerPages.Base(data);
    var score := ScannerPages.Score(t, base);
    var result := ScannerPages.Outcome(t, Http.Delivered(data)).fields;
    assert Field(result, "riskScore") == Num(score);
    assert Field(result, "riskLevel") == Field(base, "riskLevel");
    LevelMatchesPageColor(score);
  }
}
