/**
 * The textual settings commands the Unity side sends to the plugin through
 * SetInternalData, e.g. "Preview type: 3".
 *
 * Text renders a typed command as the string the property setters build,
 * with integers formatted as C#'s Int32.ToString does; ParseCommand reads
 * such a string back. Their round trip shows that the text is unambiguous:
 * every command the setters emit names exactly one setting and one value.
 */
module SphereCommands {
  import opened Wrappers

  datatype Command =
    | FullRays(on: bool)
    | PreviewType(previewType: int)
    | PreviewWindowVariant(variant: int)
    | PreviewWindowOrderOffset(offset: int)

  const FullRaysOn: string := "Full rays: true"
  const FullRaysOff: string := "Full rays: false"
  const PreviewTypePrefix: string := "Preview type: "
  const VariantPrefix: string := "Preview window variant: "
  const OffsetPrefix: string := "Preview window order offset: "

  /** The string a property setter passes to SetInternalData for command c. */
  function Text(c: Command): string
  {
    match c
    case FullRays(on) => if on then FullRaysOn else FullRaysOff
    case PreviewType(t) => PreviewTypePrefix + IntToString(t)
    case PreviewWindowVariant(v) => VariantPrefix + IntToString(v)
    case PreviewWindowOrderOffset(o) => OffsetPrefix + IntToString(o)
  }

  // ---------------------------------------------------------------------------
  // Decimal digits
  // ---------------------------------------------------------------------------

  predicate IsDigit(c: char) { '0' <= c <= '9' }

  predicate AllDigits(s: string) { forall i :: 0 <= i < |s| ==> IsDigit(s[i]) }

  function DigitChar(d: nat): (c: char)
    requires d < 10
    ensures IsDigit(c) && c as int - '0' as int == d
  {
    ('0' as int + d) as char
  }

  /** The decimal digits of n, most significant first, without leading zeros. */
  function NatToString(n: nat): (s: string)
    ensures |s| > 0 && AllDigits(s)
    ensures n > 0 ==> s[0] != '0'
  {
    if n < 10 then [DigitChar(n)] else NatToString(n / 10) + [DigitChar(n % 10)]
  }

  /** Int32.ToString: a minus sign before the digits of a negative value. */
  function IntToString(n: int): (s: string)
  {
    if n < 0 then "-" + NatToString(-n) else NatToString(n)
  }

  /** The value of a string of decimal digits, most significant first. */
  function DigitsValue(s: string): nat
    requires AllDigits(s)
  {
    if s == [] then 0
    else DigitsValue(s[..|s| - 1]) * 10 + (s[|s| - 1] as int - '0' as int)
  }

  function ParseNat(s: string): Option<nat>
  {
    if |s| > 0 && AllDigits(s) then Some(DigitsValue(s)) else None
  }

  function ParseInt(s: string): Option<int>
  {
    if |s| > 0 && s[0] == '-' then
      match ParseNat(s[1..])
      case Some(n) => Some(-(n as int))
      case None => None
    else
      match ParseNat(s)
      case Some(n) => Some(n)
      case None => None
  }

  lemma {:induction false} NatToStringValue(n: nat)
    ensures DigitsValue(NatToString(n)) == n
  {
    var s := NatToString(n);
    if n >= 10 {
      NatToStringValue(n / 10);
      assert s[..|s| - 1] == NatToString(n / 10);
    }
  }

  lemma IntToStringRoundTrip(n: int)
    ensures ParseInt(IntToString(n)) == Some(n)
  {
    if n < 0 {
      NatToStringValue(-n);
      assert IntToString(n)[1..] == NatToString(-n);
    } else {
      NatToStringValue(n);
      assert IsDigit(IntToString(n)[0]);
    }
  }

  // ---------------------------------------------------------------------------
  // Reading a command back
  // ---------------------------------------------------------------------------

  predicate HasPrefix(s: string, p: string) { |p| <= |s| && s[..|p|] == p }

  /** The command a settings string stands for, or None when it is not one the setters build. */
  function ParseCommand(s: string): Option<Command>
  {
    if s == FullRaysOn then Some(FullRays(true))
    else if s == FullRaysOff then Some(FullRays(false))
    else if HasPrefix(s, PreviewTypePrefix) then
      match ParseInt(s[|PreviewTypePrefix|..])
      case Some(t) => Some(PreviewType(t))
      case None => None
    else if HasPrefix(s, VariantPrefix) then
      match ParseInt(s[|VariantPrefix|..])
      case Some(v) => Some(PreviewWindowVariant(v))
      case None => None
    else if HasPrefix(s, OffsetPrefix) then
      match ParseInt(s[|OffsetPrefix|..])
      case Some(o) => Some(PreviewWindowOrderOffset(o))
      case None => None
    else None
  }

  lemma ParsePreviewType(t: int)
    ensures ParseCommand(Text(PreviewType(t))) == Some(PreviewType(t))
  {
    var s := Text(PreviewType(t));
    assert s[0] == 'P' && s != FullRaysOn && s != FullRaysOff;
    assert s[..|PreviewTypePrefix|] == PreviewTypePrefix;
    assert s[|PreviewTypePrefix|..] == IntToString(t);
    IntToStringRoundTrip(t);
  }

  lemma ParseVariant(v: int)
    ensures ParseCommand(Text(PreviewWindowVariant(v))) == Some(PreviewWindowVariant(v))
  {
    var s := Text(PreviewWindowVariant(v));
    assert s[0] == 'P' && s != FullRaysOn && s != FullRaysOff;
    assert s[8] == 'w' && !HasPrefix(s, PreviewTypePrefix);
    assert s[..|VariantPrefix|] == VariantPrefix;
    assert s[|VariantPrefix|..] == IntToString(v);
    IntToStringRoundTrip(v);
  }

  lemma ParseOffset(o: int)
    ensures ParseCommand(Text(PreviewWindowOrderOffset(o))) == Some(PreviewWindowOrderOffset(o))
  {
    var s := Text(PreviewWindowOrderOffset(o));
    assert s[0] == 'P' && s != FullRaysOn && s != FullRaysOff;
    assert s[8] == 'w' && !HasPrefix(s, PreviewTypePrefix);
    assert s[15] == 'o' && !HasPrefix(s, VariantPrefix);
    assert s[..|OffsetPrefix|] == OffsetPrefix;
    assert s[|OffsetPrefix|..] == IntToString(o);
    IntToStringRoundTrip(o);
  }

  /** Reading the text of a command gives back that command. */
  lemma ParseText(c: Command)
    ensures ParseCommand(Text(c)) == Some(c)
  {
    match c
    case FullRays(on) =>
    case PreviewType(t) => ParsePreviewType(t);
    case PreviewWindowVariant(v) => ParseVariant(v);
    case PreviewWindowOrderOffset(o) => ParseOffset(o);
  }

  /** Two commands with the same text are the same command. */
  lemma TextInjective(a: Command, b: Command)
    ensures Text(a) == Text(b) ==> a == b
  {
    ParseText(a);
    ParseText(b);
  }
}
