/** The few pieces of the Kotlin standard library that the plugin's logic leans on:
    nullable values, `isBlank`, `startsWith` and `lowercaseChar`. Kotlin strings are
    modelled as `string` (a sequence of Unicode scalar values). */
module KotlinText {

  /** A Kotlin nullable value: `None` is `null`. */
  datatype Option<+T> = None | Some(value: T) {
    /** Kotlin's elvis operator `x ?: d`. */
    function GetOr(d: T): T {
      match this
      case Some(v) => v
      case None => d
    }
  }

  /** `Char.isWhitespace()` on the JVM: `Character.isWhitespace(c) || Character.isSpaceChar(c)`. */
  predicate IsWhitespace(c: char) {
    || ('\t' <= c <= '\r')
    || ('\U{1C}' <= c <= '\U{20}')
    || c == '\U{A0}' || c == '\U{1680}'
    || ('\U{2000}' <= c <= '\U{200A}')
    || c == '\U{2028}' || c == '\U{2029}' || c == '\U{202F}' || c == '\U{205F}' || c == '\U{3000}'
  }

  /** `CharSequence.isBlank()`: empty, or whitespace only. */
  predicate IsBlank(s: string) {
    forall i | 0 <= i < |s| :: IsWhitespace(s[i])
  }

  /** `CharSequence.isNotBlank()`: some character is not whitespace. */
  function IsNotBlank(s: string): (r: bool)
    ensures r <==> exists i :: 0 <= i < |s| && !IsWhitespace(s[i])
    ensures r ==> s != []
  {
    !IsBlank(s)
  }

  /** `String.startsWith(prefix)`. */
  predicate StartsWith(s: string, prefix: string) {
    prefix <= s
  }

  /** `Char.lowercaseChar()`, as far as the colour and format code tables can tell:
      ASCII capitals map to their small letters and U+212A KELVIN SIGN maps to 'k'.
      These are the only characters whose lower case is one of the codes
      `0-9a-fklmnor` without being one already; every other character is returned
      unchanged here. */
  function LowercaseChar(c: char): (r: char)
    ensures 'A' <= c <= 'Z' ==> r as int == c as int + 32
    ensures r == c || ('A' <= c <= 'Z') || c == '\U{212A}'
  {
    if 'A' <= c <= 'Z' then (c as int + 32) as char
    else if c == '\U{212A}' then 'k'
    else c
  }

  /** Decimal text of an integer, as `Int.toString()` / `Long.toString()` prints it. */
  function IntText(n: int): (r: string)
    ensures |r| > 0
  {
    if n < 0 then "-" + NatText(-n) else NatText(n)
  }

  function NatText(n: nat): (r: string)
    ensures |r| > 0
    ensures forall i | 0 <= i < |r| :: '0' <= r[i] <= '9'
  {
    if n < 10 then [('0' as int + n) as char]
    else NatText(n / 10) + [('0' as int + n % 10) as char]
  }
}
