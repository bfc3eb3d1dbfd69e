/** The three kinds of scan and the four colours the client pages use for a
    scan's background and verdict. */
module Scan {
  import opened Js

  datatype ScanType = Phishing | Ip | DataLeak

  /** The `type` strings of the dashboard's scan history. */
  function TypeName(t: ScanType): string {
    match t
    case Phishing => "phishing"
    case Ip => "ip"
    case DataLeak => "dataleak"
  }

  lemma TypeNamesDistinct(t: ScanType, u: ScanType)
    ensures TypeName(t) == TypeName(u) ==> t == u
  {
  }

  datatype Color = Purple | Blue | Red | Green

  function ColorName(c: Color): string {
    match c
    case Purple => "purple"
    case Blue => "blue"
    case Red => "red"
    case Green => "green"
  }

  /** The colour a value names, if it names one of the four. */
  function ParseColor(v: Value): (r: Option<Color>)
    ensures r.Some? ==> v == Str(ColorName(r.value))
    ensures r.None? ==> forall c :: v != Str(ColorName(c))
  {
    if v == Str("purple") then Some(Purple)
    else if v == Str("blue") then Some(Blue)
    else if v == Str("red") then Some(Red)
    else if v == Str("green") then Some(Green)
    else None
  }

  /** The background colour a scan starts with, on its own page and on the
      dashboard alike. */
  function StartColor(t: ScanType): Color {
    match t
    case Phishing => Purple
    case Ip => Blue
    case DataLeak => Red
  }
}
