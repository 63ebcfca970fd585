/**
 * Display form of a barcode: a 14-character barcode is shown in four dash-separated
 * groups of 1, 4, 8 and 1 characters (prefix, library code, sequence, check digit).
 */
module OutputFormatter {
  import opened Common

  /** The characters the regular-expression `.` does not match. */
  predicate IsLineTerminator(c: char)
  {
    c == '\n' || c == '\r' || c == '\U{85}' || c == '\U{2028}' || c == '\U{2029}'
  }

  predicate HasLineTerminator(s: string)
  {
    exists i :: 0 <= i < |s| && IsLineTerminator(s[i])
  }

  /** The 1-4-8-1 grouping of a 14-character string. */
  function Dashed(s: string): (t: string)
    requires |s| == 14
    ensures |t| == 17 && t[1] == '-' && t[6] == '-' && t[15] == '-'
  {
    s[..1] + "-" + s[1..5] + "-" + s[5..13] + "-" + s[13..]
  }

  /** Deleting the characters at indices 1, 6 and 15 of a 17-character string. */
  function Undashed(t: string): (s: string)
    requires |t| == 17
    ensures |s| == 14
  {
    t[..1] + t[2..6] + t[7..15] + t[16..]
  }

  /**
   * `formatBarcodeId`: a missing barcode or one whose length is not 14 is rejected;
   * otherwise the single rewrite of the 14 characters as 1-4-8-1 groups takes place,
   * unless a line terminator stops the pattern from matching, in which case the text
   * comes back as it was.
   */
  function FormatBarcodeId(barcodeId: Option<string>): (r: Result<string>)
    ensures r.Err? <==> barcodeId.None? || |barcodeId.value| != 14
    ensures r.Err? ==> r.error == IllegalArgument("Invalid barcode ID length")
    ensures r.Ok? && !HasLineTerminator(barcodeId.value) ==>
      |r.value| == 17 && r.value[1] == '-' && r.value[6] == '-' && r.value[15] == '-' &&
      Undashed(r.value) == barcodeId.value
    ensures r.Ok? && HasLineTerminator(barcodeId.value) ==> r.value == barcodeId.value
  {
    if barcodeId.None? || |barcodeId.value| != 14 then
      Err(IllegalArgument("Invalid barcode ID length"))
    else if HasLineTerminator(barcodeId.value) then
      Ok(barcodeId.value)
    else
      DashedRoundTrip(barcodeId.value);
      Ok(Dashed(barcodeId.value))
  }

  /** Removing the three inserted dashes gives the barcode back. */
  lemma DashedRoundTrip(s: string)
    requires |s| == 14
    ensures Undashed(Dashed(s)) == s
  {
    var t := Dashed(s);
    assert t[..1] == s[..1];
    assert t[2..6] == s[1..5];
    assert t[7..15] == s[5..13];
    assert t[16..] == s[13..];
    assert s == s[..1] + s[1..5] + s[5..13] + s[13..];
  }

  /** The dashed form is the concatenation of the four groups of the barcode. */
  lemma FormatBarcodeIdGroups(s: string)
    requires |s| == 14 && !HasLineTerminator(s)
    ensures FormatBarcodeId(Some(s)) == Ok(s[..1] + "-" + s[1..5] + "-" + s[5..13] + "-" + s[13..])
  {}

  /** The unit example. */
  lemma FormatBarcodeIdExample()
    ensures FormatBarcodeId(Some("12345678901234")) == Ok("1-2345-67890123-4")
  {
    var s := "12345678901234";
    assert forall i :: 0 <= i < |s| ==> '0' <= s[i] <= '9';
    assert !HasLineTerminator(s);
    assert s[..1] == "1" && s[1..5] == "2345" && s[5..13] == "67890123" && s[13..] == "4";
    assert Dashed(s) == "1" + "-" + "2345" + "-" + "67890123" + "-" + "4";
    assert "1" + "-" + "2345" + "-" + "67890123" + "-" + "4" == "1-2345-67890123-4";
  }

  /** A line break inside the 14 characters defeats the pattern. */
  lemma FormatBarcodeIdLineBreak()
    ensures FormatBarcodeId(Some("1234567\n901234")) == Ok("1234567\n901234")
  {
    assert IsLineTerminator("1234567\n901234"[7]);
  }
}
