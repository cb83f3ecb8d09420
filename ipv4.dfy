/** The address check used by the install prompt (`isValidIpV4Address`): the
    text `socket.inet_pton(AF_INET, ...)` accepts, stated as a dotted quad in
    the form the GNU C library's parser accepts. */
module Ipv4 {
  import opened Text

  /** One part of a dotted quad: one to three digits, no leading zero, at most 255. */
  predicate IsOctet(p: string)
  {
    1 <= |p| <= 3 && AllDigits(p) && (|p| > 1 ==> p[0] != '0') && DigitsValue(p) <= 255
  }

  /** `isValidIpV4Address(address)`: exactly four octets separated by dots. */
  predicate IsValidIpV4(s: string)
  {
    var parts := Split(s, ".");
    |parts| == 4 && IsOctet(parts[0]) && IsOctet(parts[1]) && IsOctet(parts[2]) && IsOctet(parts[3])
  }

  /** The dotted-quad text of four byte values. */
  function FormatIpV4(a: nat, b: nat, c: nat, d: nat): string
    requires a <= 255 && b <= 255 && c <= 255 && d <= 255
  {
    Join([NatToDecimal(a), NatToDecimal(b), NatToDecimal(c), NatToDecimal(d)], ".")
  }

  lemma {:induction false} DecimalLength(n: nat)
    ensures n < 10 ==> |NatToDecimal(n)| == 1
    ensures n < 100 ==> |NatToDecimal(n)| <= 2
    ensures n < 1000 ==> |NatToDecimal(n)| <= 3
  {
    if n >= 10 { DecimalLength(n / 10); }
  }

  /** `str(n)` of a byte value is an octet. */
  lemma OctetOfByte(n: nat)
    requires n <= 255
    ensures IsOctet(NatToDecimal(n))
  {
    DecimalLength(n);
  }

  lemma DecimalHasNoDot(n: nat)
    ensures forall j :: 0 <= j < |NatToDecimal(n)| ==> NatToDecimal(n)[j] != '.'
  {
    var s := NatToDecimal(n);
    forall j | 0 <= j < |s| ensures s[j] != '.' { assert IsDigit(s[j]); }
  }

  /** Every formatted address passes the check: the check accepts all of IPv4. */
  lemma FormatIsValid(a: nat, b: nat, c: nat, d: nat)
    requires a <= 255 && b <= 255 && c <= 255 && d <= 255
    ensures IsValidIpV4(FormatIpV4(a, b, c, d))
  {
    var parts := [NatToDecimal(a), NatToDecimal(b), NatToDecimal(c), NatToDecimal(d)];
    DecimalHasNoDot(a); DecimalHasNoDot(b); DecimalHasNoDot(c); DecimalHasNoDot(d);
    SplitJoin(parts, '.');
    OctetOfByte(a); OctetOfByte(b); OctetOfByte(c); OctetOfByte(d);
  }

  lemma OctetHasNoDot(p: string)
    requires IsOctet(p)
    ensures forall j :: 0 <= j < |p| ==> p[j] != '.'
  {
    forall j | 0 <= j < |p| ensures p[j] != '.' { assert IsDigit(p[j]); }
  }

  /** Every accepted text is the canonical rendering of its four values, so the
      check accepts nothing but the dotted quads of `FormatIpV4`. */
  lemma ValidIsFormatted(s: string)
    requires IsValidIpV4(s)
    ensures var parts := Split(s, ".");
            s == FormatIpV4(DigitsValue(parts[0]), DigitsValue(parts[1]),
                            DigitsValue(parts[2]), DigitsValue(parts[3]))
  {
    var parts := Split(s, ".");
    JoinSplit(s, ".");
    CanonicalDigits(parts[0]);
    CanonicalDigits(parts[1]);
    CanonicalDigits(parts[2]);
    CanonicalDigits(parts[3]);
    assert parts == [NatToDecimal(DigitsValue(parts[0])), NatToDecimal(DigitsValue(parts[1])),
                     NatToDecimal(DigitsValue(parts[2])), NatToDecimal(DigitsValue(parts[3]))];
  }

  /** An accepted address has exactly three dots, the condition the source's
      `inet_aton` fallback adds (`address.count('.') == 3`). */
  lemma ValidHasThreeDots(s: string)
    requires IsValidIpV4(s)
    ensures CountChar(s, '.') == 3
  {
    var parts := Split(s, ".");
    JoinSplit(s, ".");
    OctetHasNoDot(parts[0]); OctetHasNoDot(parts[1]); OctetHasNoDot(parts[2]); OctetHasNoDot(parts[3]);
    assert forall i, j :: 0 <= i < |parts| && 0 <= j < |parts[i]| ==> parts[i][j] != '.';
    CountCharJoin(parts, '.');
  }
}
