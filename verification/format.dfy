/** `formatPercentage`: how a metric of the metrics response becomes the text
    of a table cell. */
module Format {
  import opened Records

  /** `null` and `undefined` become `"-"`; a number `v` becomes
      `fixed2(v * 100)` followed by `%`, where `fixed2` stands for
      JavaScript's `toFixed(2)`. */
  function FormatPercentage(v: Metric, fixed2: real -> string): (s: string)
    ensures s == "-" <==> !v.Number?
    ensures v.Number? ==> |s| > 0 && s[|s| - 1] == '%' && s[..|s| - 1] == fixed2(v.x * 100.0)
  {
    match v
    case Null => "-"
    case Undefined => "-"
    case Number(x) =>
      var s := fixed2(x * 100.0) + "%";
      assert s[|s| - 1] == '%';
      s
  }
}
