/** The `Analytics` component: over the scan history it counts safe and risky
    entries for the pie chart, maps each entry to a numbered point of the line
    chart, and counts the entries of each scan type for the bar chart. */
module Analytics {
  import opened Js
  import opened Text

  /** An entry is safe when its numeric `riskScore` is below 40; without a numeric
      score, when `isRisky` is falsy. */
  predicate IsSafe(d: Record) {
    var r := Field(d, "riskScore");
    if r.Num? then r.n < 40 else !Truthy(Field(d, "isRisky"))
  }

  /** `data.filter(isSafe).length` */
  function SafeCount(data: seq<Record>): (n: nat)
    ensures n <= |data|
  {
    if data == [] then 0
    else SafeCount(data[..|data| - 1]) + (if IsSafe(data[|data| - 1]) then 1 else 0)
  }

  /** `totalScans - safeCount` */
  function RiskyCount(data: seq<Record>): int {
    |data| - SafeCount(data)
  }

  /** The number of entries that are not safe, counted on their own. */
  function UnsafeCount(data: seq<Record>): nat {
    if data == [] then 0
    else UnsafeCount(data[..|data| - 1]) + (if IsSafe(data[|data| - 1]) then 0 else 1)
  }

  /** Both counts are non-negative, they add up to the number of scans, and the
      risky count is the number of entries that are not safe. */
  lemma {:induction false} PartitionCounts(data: seq<Record>)
    ensures 0 <= SafeCount(data) && 0 <= RiskyCount(data)
    ensures SafeCount(data) + RiskyCount(data) == |data|
    ensures RiskyCount(data) == UnsafeCount(data)
  {
    if data != [] {
      PartitionCounts(data[..|data| - 1]);
    }
  }

  /** The safe count of a history grows by one exactly when the added entry is safe. */
  lemma SafeCountAppend(data: seq<Record>, d: Record)
    ensures SafeCount(data + [d]) == SafeCount(data) + (if IsSafe(d) then 1 else 0)
  {
    assert (data + [d])[..|data + [d]| - 1] == data;
  }

  datatype Slice = Slice(name: string, value: int)

  /** The pie has the Safe slice and then the Risky slice; both are non-negative,
      they cover every scan once, and the Risky slice is the number of entries
      that are not safe. */
  function PieData(data: seq<Record>): (pie: seq<Slice>)
    ensures |pie| == 2 && pie[0].name == "Safe" && pie[1].name == "Risky"
    ensures pie[0].value >= 0 && pie[1].value >= 0
    ensures pie[0].value + pie[1].value == |data|
    ensures pie[1].value == UnsafeCount(data)
  {
    PartitionCounts(data);
    [Slice("Safe", SafeCount(data)), Slice("Risky", RiskyCount(data))]
  }

  datatype Point = Point(scan: string, score: int)

  /** `riskScore` when it is a number, else 70 for a risky entry, else 20. */
  function LineScore(d: Record): int {
    var r := Field(d, "riskScore");
    if r.Num? then r.n else if Truthy(Field(d, "isRisky")) then 70 else 20
  }

  function Label(i: nat): string {
    "#" + NatToString(i + 1)
  }

  /** `data.map((d, i) => ({ scan: "#" + (i + 1), Score: ... }))` */
  function LineData(data: seq<Record>): (line: seq<Point>)
    ensures |line| == |data|
  {
    seq(|data|, i requires 0 <= i < |data| => Point(Label(i), LineScore(data[i])))
  }

  /** One point per entry, in order, labelled by its position counted from 1. */
  lemma LinePoints(data: seq<Record>, i: int)
    requires 0 <= i < |data|
    ensures LineData(data)[i].score == LineScore(data[i])
    ensures LineData(data)[i].scan == Label(i) && DigitsValue(LineData(data)[i].scan[1..]) == i + 1
  {
    DigitsRoundTrip(i + 1);
    assert Label(i)[1..] == NatToString(i + 1);
  }

  /** No two points share a label. */
  lemma LabelsDistinct(data: seq<Record>, i: int, j: int)
    requires 0 <= i < |data| && 0 <= j < |data| && i != j
    ensures LineData(data)[i].scan != LineData(data)[j].scan
  {
    var a, b := Label(i), Label(j);
    if a == b {
      assert a[1..] == b[1..];
      assert Label(i)[1..] == NatToString(i + 1) && Label(j)[1..] == NatToString(j + 1);
      NatToStringInjective(i + 1, j + 1);
    }
  }

  /** The pie and the line agree: an entry is counted safe exactly when its point
      lies below 40. */
  lemma SafeIffLowPoint(d: Record)
    ensures IsSafe(d) <==> LineScore(d) < 40
  {
  }

  /** `data.filter((d) => d.type === name).length` */
  function CategoryCount(data: seq<Record>, name: string): (n: nat)
    ensures n <= |data|
  {
    if data == [] then 0
    else CategoryCount(data[..|data| - 1], name) + (if Field(data[|data| - 1], "type") == Str(name) then 1 else 0)
  }

  /** The scan types the bars count, and the bars' names, in bar order. */
  const CategoryTypes: seq<string> := ["phishing", "ip", "dataleak"]
  const CategoryNames: seq<string> := ["Phishing", "IP Check", "Data Leak"]

  /** Three bars, named in order, each counting the entries of its type; together
      they count each typed entry once, so at most every scan. */
  function CategoryData(data: seq<Record>): (bars: seq<Slice>)
    ensures |bars| == 3
    ensures forall k :: 0 <= k < 3 ==> bars[k].name == CategoryNames[k] && bars[k].value == CategoryCount(data, CategoryTypes[k])
    ensures bars[0].value + bars[1].value + bars[2].value == TypedCount(data) <= |data|
  {
    BarsSum(data);
    [Slice("Phishing", CategoryCount(data, "phishing")),
     Slice("IP Check", CategoryCount(data, "ip")),
     Slice("Data Leak", CategoryCount(data, "dataleak"))]
  }

  /** Entries whose `type` is one of the three names. */
  function TypedCount(data: seq<Record>): nat {
    if data == [] then 0
    else
      var t := Field(data[|data| - 1], "type");
      TypedCount(data[..|data| - 1]) + (if t in {Str("phishing"), Str("ip"), Str("dataleak")} then 1 else 0)
  }

  /** The three bars count each typed entry once, so they add up to at most the
      number of scans, and to exactly that when every entry carries one of the
      three types. */
  lemma {:induction false} BarsSum(data: seq<Record>)
    ensures CategoryCount(data, "phishing") + CategoryCount(data, "ip") + CategoryCount(data, "dataleak") == TypedCount(data)
    ensures TypedCount(data) <= |data|
    ensures (forall i :: 0 <= i < |data| ==> Field(data[i], "type") in {Str("phishing"), Str("ip"), Str("dataleak")})
              ==> TypedCount(data) == |data|
  {
    if data != [] {
      var init := data[..|data| - 1];
      BarsSum(init);
      assert forall i :: 0 <= i < |init| ==> init[i] == data[i];
    }
  }

  /** Adding an entry raises its own bar by one and leaves the others alone. */
  lemma CategoryAppend(data: seq<Record>, d: Record, name: string)
    ensures CategoryCount(data + [d], name) == CategoryCount(data, name) + (if Field(d, "type") == Str(name) then 1 else 0)
  {
    assert (data + [d])[..|data + [d]| - 1] == data;
  }

  /** The same for the bars as drawn: only the bar of the new entry's type grows. */
  lemma BarAppend(data: seq<Record>, d: Record, k: int)
    requires 0 <= k < 3
    ensures CategoryData(data + [d])[k].value
            == CategoryData(data)[k].value + (if Field(d, "type") == Str(CategoryTypes[k]) then 1 else 0)
  {
    CategoryAppend(data, d, CategoryTypes[k]);
  }
}
