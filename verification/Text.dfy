/** String formats. A string is modelled as its UTF-8 bytes, one char a byte. */
module Text {

  predicate IsLower(c: char) { 'a' <= c <= 'z' }

  predicate IsUpper(c: char) { 'A' <= c <= 'Z' }

  predicate IsDigit(c: char) { '0' <= c <= '9' }

  /** Three bytes that encode a Unicode space from U+1680 on. */
  predicate IsWideSpace(a: int, b: int, c: int) {
    || (a == 0xE1 && b == 0x9A && c == 0x80)
    || (a == 0xE2 && b == 0x80 && (0x80 <= c <= 0x8A || c == 0xA8 || c == 0xA9 || c == 0xAF))
    || (a == 0xE2 && b == 0x81 && c == 0x9F)
    || (a == 0xE3 && b == 0x80 && c == 0x80)
  }

  /** The code point encoded at s[i..j] is white space: ASCII, U+0085, U+00A0 or a wider one. */
  predicate SpaceAt(s: string, i: int, j: int)
    requires 0 <= i < j <= |s|
  {
    match j - i
    case 1 => 9 <= s[i] as int <= 13 || s[i] == ' '
    case 2 => s[i] as int == 0xC2 && (s[i + 1] as int == 0x85 || s[i + 1] as int == 0xA0)
    case 3 => IsWideSpace(s[i] as int, s[i + 1] as int, s[i + 2] as int)
    case _ => false
  }

  predicate NoNul(s: string) {
    forall i :: 0 <= i < |s| ==> s[i] as int != 0
  }

  /** Trimming white space at either end would change nothing. */
  predicate Trimmed(s: string) { !SpaceOutside(s, 1) && !SpaceOutside(s, 2) && !SpaceOutside(s, 3) }

  /** The text begins or ends with a space of n bytes. */
  predicate SpaceOutside(s: string, n: nat)
    requires n > 0
  {
    n <= |s| && (SpaceAt(s, 0, n) || SpaceAt(s, |s| - n, |s|))
  }

  /** Lower-case letter first, then letters, digits, dot, underscore, hyphen. */
  predicate ValidDomainName(s: string, maxLength: nat) {
    && 1 <= |s| <= maxLength
    && IsLower(s[0])
    && forall i :: 0 <= i < |s| ==> IsLower(s[i]) || IsDigit(s[i]) || s[i] == '.' || s[i] == '_' || s[i] == '-'
  }

  predicate ValidCapability(s: string) {
    && 1 <= |s| <= 128
    && IsLower(s[0])
    && forall i :: 0 <= i < |s| ==>
                     IsLower(s[i]) || IsDigit(s[i]) || s[i] == '.' || s[i] == '_' || s[i] == ':' || s[i] == '-'
  }

  predicate ValidIdempotencyKey(s: string) {
    && 1 <= |s| <= 128
    && forall i :: 0 <= i < |s| ==>
                     || IsUpper(s[i]) || IsLower(s[i]) || IsDigit(s[i])
                     || s[i] == '.' || s[i] == '_' || s[i] == ':' || s[i] == '-'
  }

  /** The number of code points: every byte that is not a continuation byte starts one. */
  function Runes(s: string): nat {
    if s == "" then 0
    else (if 0x80 <= s[0] as int <= 0xBF then 0 else 1) + Runes(s[1..])
  }

  /** Identifiers of the domain tables are bounded in code points. */
  predicate ValidOpaqueId(s: string) {
    3 <= Runes(s) <= 128 && Trimmed(s) && NoNul(s)
  }

  /** Identifiers of the job queue are bounded in bytes. */
  predicate ValidQueueId(s: string) {
    3 <= |s| <= 128 && Trimmed(s) && NoNul(s)
  }

  predicate ValidText(s: string, least: nat, most: nat) {
    least <= Runes(s) <= most && NoNul(s)
  }

  predicate ValidOptionalBytes(s: string, most: nat) {
    s == "" || (|s| <= most && NoNul(s))
  }

  predicate ValidOptionalText(s: string, most: nat) {
    s == "" || ValidText(s, 1, most)
  }

  lemma {:induction false} RunesAtMost(s: string)
    ensures Runes(s) <= |s|
  {
    if s != "" {
      RunesAtMost(s[1..]);
    }
  }

  /** Text that begins with an ASCII character and is short in bytes is short in code points. */
  lemma PlainText(s: string, most: nat)
    requires 1 <= |s| <= most && NoNul(s) && s[0] as int < 0x80
    ensures ValidText(s, 1, most)
  {
    RunesAtMost(s);
  }

  /** Decimal notation, without leading zeros. */
  function Decimal(n: nat): (s: string)
    ensures s != ""
  {
    var digit := '0' + (n % 10) as char;
    if n < 10 then [digit] else Decimal(n / 10) + [digit]
  }

  lemma {:induction false} DecimalInjective(a: nat, b: nat)
    requires Decimal(a) == Decimal(b)
    ensures a == b
  {
    var x, y := Decimal(a), Decimal(b);
    assert x[|x| - 1] == '0' + (a % 10) as char && y[|y| - 1] == '0' + (b % 10) as char;
    assert a % 10 == b % 10;
    if a >= 10 && b >= 10 {
      assert x[..|x| - 1] == Decimal(a / 10) && y[..|y| - 1] == Decimal(b / 10);
      DecimalInjective(a / 10, b / 10);
    }
  }
}
