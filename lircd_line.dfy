/**
 * The line the lircd daemon broadcasts for each decoded button:
 * printf("%016llx %02x %s %s\n", code, repeat, button, remote).  Both readers
 * consume it: LircdName scans its fields, Spark picks characters at fixed
 * offsets.  The daemon itself is not part of this model; the line is here so
 * that the readers can be stated end to end.
 */
module LircdLine {
  import opened CText

  /** A name as lircd prints it with %s: at least one character, no white space, no NUL. */
  predicate IsName(s: string) {
    |s| >= 1 && forall i :: 0 <= i < |s| ==> IsWordChar(s[i])
  }

  /** The line with its two numeric fields already printed. */
  function Line(code: string, repeat: string, button: string, remote: string): string {
    code + (" " + (repeat + (" " + (button + (" " + (remote + "\n"))))))
  }

  function FormatLine(code: nat, repeat: nat, button: string, remote: string): string {
    Line(ToHex(code, 16), ToHex(repeat, 2), button, remote)
  }

  /** The line holds no NUL, so the whole of it is the C string a reader sees. */
  lemma FormatLineHasNoNul(code: nat, repeat: nat, button: string, remote: string)
    requires IsName(button) && IsName(remote)
    ensures forall i :: 0 <= i < |FormatLine(code, repeat, button, remote)| ==>
      FormatLine(code, repeat, button, remote)[i] != '\0'
  {
    ToHexRoundTrip(code, 16);
    ToHexRoundTrip(repeat, 2);
    LineHasNoNul(ToHex(code, 16), ToHex(repeat, 2), button, remote);
  }

  lemma LineHasNoNul(code: string, repeat: string, button: string, remote: string)
    requires IsHexRun(code) && IsHexRun(repeat) && IsName(button) && IsName(remote)
    ensures forall i :: 0 <= i < |Line(code, repeat, button, remote)| ==> Line(code, repeat, button, remote)[i] != '\0'
  {
  }

  /**
   * For a code below 2^64 and a repeat count below 256 every field sits at a
   * fixed offset: the code in characters 0-15, the repeat count in 17-18, the
   * button name from 20 on.
   */
  lemma FormatLineLayout(code: nat, repeat: nat, button: string, remote: string)
    requires code < Pow16(16) && repeat < 256
    ensures var line := FormatLine(code, repeat, button, remote);
      && |line| == 22 + |button| + |remote|
      && line[..16] == ToHex(code, 16)
      && line[16] == ' '
      && line[17..19] == ToHex(repeat, 2)
      && line[19] == ' '
      && line[20..20 + |button|] == button
  {
    ToHexLength(code, 16);
    assert Pow16(2) == 256;
    ToHexLength(repeat, 2);
    LineLayout(ToHex(code, 16), ToHex(repeat, 2), button, remote);
  }

  lemma LineLayout(code: string, repeat: string, button: string, remote: string)
    requires |code| == 16 && |repeat| == 2
    ensures var line := Line(code, repeat, button, remote);
      && |line| == 22 + |button| + |remote|
      && line[..16] == code
      && line[16] == ' '
      && line[17..19] == repeat
      && line[19] == ' '
      && line[20..20 + |button|] == button
  {
  }
}
