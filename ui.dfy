/**
 * The integer formatting helpers of the dashboard (src/ui.rs): uptime as
 * hours, minutes and seconds, and memory sizes with a unit.
 */
module Ui {
  import opened Base
  import opened Text

  // ---------------------------------------------------------------------
  // format_duration
  // ---------------------------------------------------------------------

  /** A duration split into hours, minutes and seconds. */
  datatype Clock = Clock(hours: nat, mins: nat, secs: nat)

  /** Splits a number of seconds the way `format_duration` does. */
  function SplitDuration(secs: u64): (c: Clock)
    ensures c.hours * 3600 + c.mins * 60 + c.secs == secs
    ensures c.mins < 60 && c.secs < 60
  {
    Clock(secs / 3600, (secs % 3600) / 60, secs % 60)
  }

  /** Hours, minutes below 60 and seconds below 60 are determined by the total. */
  lemma SplitDurationUnique(secs: u64, c: Clock)
    requires c.hours * 3600 + c.mins * 60 + c.secs == secs
    requires c.mins < 60 && c.secs < 60
    ensures c == SplitDuration(secs)
  {
    DivModUnique(secs, 3600, c.hours, c.mins * 60 + c.secs);
    DivModUnique(c.mins * 60 + c.secs, 60, c.mins, c.secs);
    DivModUnique(secs, 60, c.hours * 60 + c.mins, c.secs);
  }

  /** Rust's `{:02}`: decimal, zero-padded to at least two digits. */
  function Pad2(n: nat): (r: string)
    ensures IsDigits(r) && |r| >= 2
    ensures |r| == 2 <==> n < 100
    ensures |r| == if n < 10 then 2 else |NatToString(n)|
    ensures DecimalValue(r) == n
  {
    DecimalRoundTrip(n);
    if n < 10 then
      LeadingZero(NatToString(n));
      "0" + NatToString(n)
    else
      NatToStringWidth(n, 2);
      NatToString(n)
  }

  /**
   * `format_duration`: `HH:MM:SS`, each field padded to two digits. The
   * hours field is as wide as the hours need; minutes and seconds take two.
   */
  function FormatDuration(secs: u64): (r: string)
    ensures |r| >= 8
    ensures r[|r| - 3] == ':' && r[|r| - 6] == ':'
    ensures var c := SplitDuration(secs);
      IsDigits(r[..|r| - 6]) && DecimalValue(r[..|r| - 6]) == c.hours &&
      |r| - 6 == (if c.hours < 10 then 2 else |NatToString(c.hours)|)
    ensures var c := SplitDuration(secs);
      IsDigits(r[|r| - 5..|r| - 3]) && DecimalValue(r[|r| - 5..|r| - 3]) == c.mins
    ensures var c := SplitDuration(secs);
      IsDigits(r[|r| - 2..]) && DecimalValue(r[|r| - 2..]) == c.secs
    ensures secs < 100 * 3600 ==> |r| == 8
  {
    var c := SplitDuration(secs);
    var h, m, s := Pad2(c.hours), Pad2(c.mins), Pad2(c.secs);
    ClockFields(h, m, s);
    h + ":" + m + ":" + s
  }

  /** Where the fields of `h:m:s` sit, counted from the end. */
  lemma ClockFields(h: string, m: string, s: string)
    requires |m| == 2 && |s| == 2
    ensures var r := h + ":" + m + ":" + s;
      r[..|r| - 6] == h && r[|r| - 5..|r| - 3] == m && r[|r| - 2..] == s &&
      r[|r| - 3] == ':' && r[|r| - 6] == ':'
  {
    var r := h + ":" + m + ":" + s;
    assert r[..|r| - 6] == h;
    assert r[|r| - 5..|r| - 3] == m;
    assert r[|r| - 2..] == s;
  }

  /**
   * Reads a clock text back: the last two digits are seconds, the two
   * before the second colon from the end are minutes, the rest hours.
   */
  function ParseDuration(t: string): Option<nat> {
    if |t| < 8 || t[|t| - 3] != ':' || t[|t| - 6] != ':' then None
    else Some(DecimalValue(t[..|t| - 6]) * 3600
              + DecimalValue(t[|t| - 5..|t| - 3]) * 60
              + DecimalValue(t[|t| - 2..]))
  }

  /** The text `format_duration` prints reads back as the same number of seconds. */
  lemma FormatDurationRoundTrip(secs: u64)
    ensures ParseDuration(FormatDuration(secs)) == Some(secs)
  {
  }

  // ---------------------------------------------------------------------
  // format_memory
  // ---------------------------------------------------------------------

  const KB: nat := 1024
  const MB: nat := KB * 1024
  const GB: nat := MB * 1024

  /**
   * What `format_memory` shows: gigabytes or megabytes (rendered with two
   * decimals, which the model does not reproduce), or the text of the
   * whole number of kilobytes.
   */
  datatype MemoryText = Gigabytes(bytes: u64) | Megabytes(bytes: u64) | Kilobytes(text: string)

  /** Reads the number back from a `"<n> KB"` text. */
  function ParseKb(t: string): Option<nat> {
    if |t| >= 4 && t[|t| - 3..] == " KB" && IsDigits(t[..|t| - 3]) then Some(DecimalValue(t[..|t| - 3]))
    else None
  }

  /** `format_memory`: the largest unit not above the size; kilobytes are rounded down. */
  function FormatMemory(bytes: u64): (r: MemoryText)
    ensures r.Gigabytes? <==> bytes >= GB
    ensures r.Megabytes? <==> MB <= bytes < GB
    ensures r.Kilobytes? <==> bytes < MB
    ensures !r.Kilobytes? ==> r.bytes == bytes
    ensures r.Kilobytes? ==> r.text == NatToString(bytes / KB) + " KB"
    ensures r.Kilobytes? ==>
      ParseKb(r.text).Some? &&
      ParseKb(r.text).value * KB <= bytes < (ParseKb(r.text).value + 1) * KB &&
      ParseKb(r.text).value < 1024 &&
      |r.text| <= 7
  {
    if bytes >= GB then Gigabytes(bytes)
    else if bytes >= MB then Megabytes(bytes)
    else
      var digits := NatToString(bytes / KB);
      var t := digits + " KB";
      assert t[..|t| - 3] == digits;
      assert t[|t| - 3..] == " KB";
      DecimalRoundTrip(bytes / KB);
      NatToStringWidth(bytes / KB, 4);
      Kilobytes(t)
  }

  /** The order of the units: kilobytes, then megabytes, then gigabytes. */
  function UnitRank(m: MemoryText): nat {
    match m
    case Kilobytes(_) => 0
    case Megabytes(_) => 1
    case Gigabytes(_) => 2
  }

  /** Larger sizes never get a smaller unit. */
  lemma FormatMemoryMonotone(a: u64, b: u64)
    requires a <= b
    ensures UnitRank(FormatMemory(a)) <= UnitRank(FormatMemory(b))
  {
  }
}
