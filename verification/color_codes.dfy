/** `MinecraftColorCodeUtil`: Minecraft's `§` formatting codes. A code is `§` followed
    by one of the sixteen colour characters `0-9a-f` or one of the six format
    characters `klmnor`, in either case. The scanners walk the text left to right;
    a `§` that has a successor is paired with it. */
module MinecraftColorCodeUtil {
  import opened KotlinText

  const SectionSign: char := '§'

  const ColorCodeMap: map<char, string> := map[
    '0' := "black", '1' := "dark_blue", '2' := "dark_green", '3' := "dark_aqua",
    '4' := "dark_red", '5' := "dark_purple", '6' := "gold", '7' := "gray",
    '8' := "dark_gray", '9' := "blue", 'a' := "green", 'b' := "aqua",
    'c' := "red", 'd' := "light_purple", 'e' := "yellow", 'f' := "white"]

  const FormatCodeMap: map<char, string> := map[
    'k' := "obfuscated", 'l' := "bold", 'm' := "strikethrough",
    'n' := "underline", 'o' := "italic", 'r' := "reset"]

  /** The two tables are disjoint and hold sixteen and six codes. */
  lemma TablesDisjoint()
    ensures ColorCodeMap.Keys !! FormatCodeMap.Keys
  {
  }

  /** No colour or format is named "unknown". */
  lemma NoEntryNamedUnknown()
    ensures "unknown" !in ColorCodeMap.Values && "unknown" !in FormatCodeMap.Values
  {
  }

  /** `isValidColorCode`: a hexadecimal digit, in either case. */
  function IsValidColorCode(code: char): (r: bool)
    ensures r <==> ('0' <= code <= '9') || ('a' <= code <= 'f') || ('A' <= code <= 'F')
  {
    LowercaseChar(code) in ColorCodeMap
  }

  /** `isValidFormatCode`: one of `klmnor`, in either case (the Kelvin sign lower-cases to `k`). */
  function IsValidFormatCode(code: char): (r: bool)
    ensures r <==> code in "klmnorKLMNOR" || code == '\U{212A}'
  {
    LowercaseChar(code) in FormatCodeMap
  }

  /** The test both scanners apply to the character after a `§`, spelled out by
      character class: a colour or a format code, in either case. */
  predicate IsCode(c: char) {
    || ('0' <= c <= '9') || ('a' <= c <= 'f') || ('A' <= c <= 'F')
    || c in "klmnorKLMNOR" || c == '\U{212A}'
  }

  /** The scanners' test agrees with the two validators and with the table lookups the
      source performs on the lower-cased character. */
  lemma IsCodeIffValid(c: char)
    ensures IsCode(c) <==> IsValidColorCode(c) || IsValidFormatCode(c)
    ensures IsCode(c) <==> LowercaseChar(c) in ColorCodeMap || LowercaseChar(c) in FormatCodeMap
  {
  }

  /** Lower-casing a code gives a code, never `§`, and is stable. */
  lemma LowercaseCode(c: char)
    requires IsCode(c)
    ensures IsCode(LowercaseChar(c)) && LowercaseChar(c) != SectionSign
    ensures LowercaseChar(LowercaseChar(c)) == LowercaseChar(c)
  {
  }

  /** `getColorName`: the colour's name, or "unknown". */
  function GetColorName(code: char): (r: string)
    ensures IsValidColorCode(code) ==> r == ColorCodeMap[LowercaseChar(code)]
    ensures !IsValidColorCode(code) ==> r == "unknown"
  {
    if LowercaseChar(code) in ColorCodeMap then ColorCodeMap[LowercaseChar(code)] else "unknown"
  }

  /** `getFormatName`: the format's name, or "unknown". */
  function GetFormatName(code: char): (r: string)
    ensures IsValidFormatCode(code) ==> r == FormatCodeMap[LowercaseChar(code)]
    ensures !IsValidFormatCode(code) ==> r == "unknown"
  {
    if LowercaseChar(code) in FormatCodeMap then FormatCodeMap[LowercaseChar(code)] else "unknown"
  }

  /** A name lookup answers "unknown" exactly for a character its validator rejects. */
  lemma NameKnownIffValid(code: char)
    ensures GetColorName(code) != "unknown" <==> IsValidColorCode(code)
    ensures GetFormatName(code) != "unknown" <==> IsValidFormatCode(code)
  {
    NoEntryNamedUnknown();
    if IsValidColorCode(code) {
      assert GetColorName(code) in ColorCodeMap.Values;
    }
    if IsValidFormatCode(code) {
      assert GetFormatName(code) in FormatCodeMap.Values;
    }
  }

  /** `getValidColorCodes`: the colour table's keys in table order. */
  function GetValidColorCodes(): (r: seq<char>)
    ensures |r| == 16
    ensures forall c :: c in r <==> c in ColorCodeMap
    ensures forall i, j | 0 <= i < j < |r| :: r[i] != r[j]
  {
    "0123456789abcdef"
  }

  /** `getValidFormatCodes`: the format table's keys in table order. */
  function GetValidFormatCodes(): (r: seq<char>)
    ensures |r| == 6
    ensures forall c :: c in r <==> c in FormatCodeMap
    ensures forall i, j | 0 <= i < j < |r| :: r[i] != r[j]
  {
    "klmnor"
  }

  // ---------------------------------------------------------------------------
  // The scanners, first as functions over the text, then as the index loops the
  // source runs.

  /** What `replaceColorCode` produces: each `§`-plus-code pair with the code lower-cased. */
  function LowercasedCodes(s: string): (r: string)
    ensures |r| == |s|
  {
    if |s| == 0 then []
    else if s[0] == SectionSign && |s| >= 2 && IsCode(s[1]) then [SectionSign, LowercaseChar(s[1])] + LowercasedCodes(s[2..])
    else [s[0]] + LowercasedCodes(s[1..])
  }

  /** What `stripColorCodes` produces: every `§` that has a successor is dropped with it. */
  function Stripped(s: string): (r: string)
  {
    if |s| == 0 then []
    else if s[0] == SectionSign && |s| >= 2 then Stripped(s[2..])
    else [s[0]] + Stripped(s[1..])
  }

  /** What `countColorCodes` counts: the scanned pairs whose second character is a code. */
  function CodeCount(s: string): nat
  {
    if |s| == 0 then 0
    else if s[0] == SectionSign && |s| >= 2 then (if IsCode(s[1]) then 1 else 0) + CodeCount(s[2..])
    else CodeCount(s[1..])
  }

  /** Number of `§` characters in a text. */
  function SectionCount(s: string): nat
  {
    if |s| == 0 then 0 else (if s[0] == SectionSign then 1 else 0) + SectionCount(s[1..])
  }

  /** `replaceColorCode` character by character: a character changes exactly when it is a
      code that follows a `§`, and then it becomes its lower case. (A `§` is never a code,
      so it is never swallowed as the second half of a pair and always starts one.) */
  lemma {:induction false} LowercasedCodesAt(s: string, i: nat)
    requires i < |s|
    ensures LowercasedCodes(s)[i] ==
      if i > 0 && s[i - 1] == SectionSign && IsCode(s[i]) then LowercaseChar(s[i]) else s[i]
    decreases |s|
  {
    if s[0] == SectionSign && |s| >= 2 && IsCode(s[1]) {
      if i >= 2 {
        LowercasedCodesAt(s[2..], i - 2);
        assert s[2..][i - 2] == s[i];
        if i - 2 > 0 {
          assert s[2..][i - 3] == s[i - 1];
        } else {
          assert s[1] != SectionSign;
        }
      }
    } else if i >= 1 {
      LowercasedCodesAt(s[1..], i - 1);
      assert s[1..][i - 1] == s[i];
      if i - 1 > 0 {
        assert s[1..][i - 2] == s[i - 1];
      } else {
        assert !(s[0] == SectionSign && IsCode(s[1]));
      }
    }
  }

  /** `replaceColorCode` changes only characters that are codes following a `§`. */
  lemma LowercasedCodesChangesOnlyCodes(s: string)
    ensures forall i | 0 <= i < |s| ::
      LowercasedCodes(s)[i] == s[i]
      || (i > 0 && s[i - 1] == SectionSign && IsCode(s[i]) && LowercasedCodes(s)[i] == LowercaseChar(s[i]))
  {
    forall i | 0 <= i < |s|
      ensures LowercasedCodes(s)[i] == s[i]
        || (i > 0 && s[i - 1] == SectionSign && IsCode(s[i]) && LowercasedCodes(s)[i] == LowercaseChar(s[i]))
    {
      LowercasedCodesAt(s, i);
    }
  }

  /** `replaceColorCode` is idempotent: the second pass sees the same `§`s and the same
      codes, already in lower case. */
  lemma LowercasedCodesIdempotent(s: string)
    ensures LowercasedCodes(LowercasedCodes(s)) == LowercasedCodes(s)
  {
    var r := LowercasedCodes(s);
    var rr := LowercasedCodes(r);
    forall i | 0 <= i < |s| ensures rr[i] == r[i] {
      LowercasedCodesAt(s, i);
      LowercasedCodesAt(r, i);
      if i > 0 {
        LowercasedCodesAt(s, i - 1);
        if IsCode(s[i - 1]) { LowercaseCode(s[i - 1]); }
        assert r[i - 1] == SectionSign <==> s[i - 1] == SectionSign;
      }
      if i > 0 && s[i - 1] == SectionSign && IsCode(s[i]) {
        LowercaseCode(s[i]);
      }
    }
  }

  /** `stripColorCodes` never lengthens the text and leaves a `§` only as its last character. */
  lemma {:induction false} StrippedShape(s: string)
    ensures |Stripped(s)| <= |s|
    ensures forall i | 0 <= i < |Stripped(s)| - 1 :: Stripped(s)[i] != SectionSign
    decreases |s|
  {
    if |s| == 0 {
    } else if s[0] == SectionSign && |s| >= 2 {
      StrippedShape(s[2..]);
    } else {
      StrippedShape(s[1..]);
      if s[0] == SectionSign {
        assert |s| == 1 && Stripped(s) == [SectionSign];
      }
    }
  }

  /** `countColorCodes` is at most the number of `§`s and at most half the length. */
  lemma {:induction false} CodeCountBounds(s: string)
    ensures CodeCount(s) <= SectionCount(s)
    ensures 2 * CodeCount(s) <= |s|
    decreases |s|
  {
    if |s| == 0 {
    } else if s[0] == SectionSign && |s| >= 2 {
      CodeCountBounds(s[2..]);
      SectionCountMonotone(s[1..]);
      assert s[1..][1..] == s[2..];
    } else {
      CodeCountBounds(s[1..]);
    }
  }

  lemma {:induction false} SectionCountMonotone(s: string)
    requires |s| > 0
    ensures SectionCount(s[1..]) <= SectionCount(s)
  {
  }

  /** `containsColorCodes`: whether the text has a `§` at all. */
  function ContainsColorCodes(s: string): (r: bool)
    ensures r <==> exists i :: 0 <= i < |s| && s[i] == SectionSign
  {
    SectionSign in s
  }

  /** Text without any `§` passes through every scanner untouched. */
  lemma {:induction false} NoSectionSignUntouched(s: string)
    requires !ContainsColorCodes(s)
    ensures LowercasedCodes(s) == s && Stripped(s) == s && CodeCount(s) == 0
    ensures EscapeColorCodes(s) == s
    decreases |s|
  {
    if |s| > 0 {
      assert s[0] != SectionSign;
      assert !ContainsColorCodes(s[1..]) by {
        forall i | 0 <= i < |s[1..]| ensures s[1..][i] != SectionSign { assert s[1..][i] == s[i + 1]; }
      }
      NoSectionSignUntouched(s[1..]);
    }
  }

  /** `escapeColorCodes`: every `§` becomes the HTML entity `&sect;`. */
  function EscapeColorCodes(s: string): (r: string)
    ensures SectionSign !in r
    ensures |r| == |s| + 5 * SectionCount(s)
  {
    if |s| == 0 then []
    else (if s[0] == SectionSign then "&sect;" else [s[0]]) + EscapeColorCodes(s[1..])
  }

  /** `replaceColorCode`: the source's index loop, appending to a builder. */
  method ReplaceColorCode(input: string) returns (output: string)
    ensures output == LowercasedCodes(input)
  {
    output := "";
    var i := 0;
    while i < |input|
      invariant 0 <= i <= |input|
      invariant output + LowercasedCodes(input[i..]) == LowercasedCodes(input)
    {
      LowercasedCodesUnfold(input, i);
      if input[i] == SectionSign && i + 1 < |input| {
        var code := LowercaseChar(input[i + 1]);
        var known := code in ColorCodeMap || code in FormatCodeMap;
        IsCodeIffValid(input[i + 1]);
        if known {
          LowercasedCodesExtend(input, i, i + 2, output, [SectionSign, code]);
          output := output + [SectionSign, code];
          i := i + 2;
        } else {
          LowercasedCodesExtend(input, i, i + 1, output, [input[i]]);
          output := output + [input[i]];
          i := i + 1;
        }
      } else {
        LowercasedCodesExtend(input, i, i + 1, output, [input[i]]);
        output := output + [input[i]];
        i := i + 1;
      }
    }
    assert input[i..] == [];
  }

  /** The loop invariant of `ReplaceColorCode` carried over one step that emits `piece`
      for the characters from `i` up to `j`. */
  lemma LowercasedCodesExtend(input: string, i: nat, j: nat, output: string, piece: string)
    requires i <= j <= |input|
    requires output + LowercasedCodes(input[i..]) == LowercasedCodes(input)
    requires LowercasedCodes(input[i..]) == piece + LowercasedCodes(input[j..])
    ensures (output + piece) + LowercasedCodes(input[j..]) == LowercasedCodes(input)
  {
  }

  /** One step of `LowercasedCodes` taken at position `i` of a text. */
  lemma LowercasedCodesUnfold(s: string, i: nat)
    requires i < |s|
    ensures s[i] == SectionSign && i + 1 < |s| && IsCode(s[i + 1]) ==>
      LowercasedCodes(s[i..]) == [SectionSign, LowercaseChar(s[i + 1])] + LowercasedCodes(s[i + 2..])
    ensures !(s[i] == SectionSign && i + 1 < |s| && IsCode(s[i + 1])) ==>
      LowercasedCodes(s[i..]) == [s[i]] + LowercasedCodes(s[i + 1..])
  {
    assert s[i..][0] == s[i] && s[i..][1..] == s[i + 1..];
    if i + 1 < |s| {
      assert s[i..][1] == s[i + 1] && s[i..][2..] == s[i + 2..];
    }
  }

  /** `stripColorCodes`: the source's index loop. */
  method StripColorCodes(input: string) returns (output: string)
    ensures output == Stripped(input)
  {
    output := "";
    var i := 0;
    while i < |input|
      invariant 0 <= i <= |input|
      invariant output + Stripped(input[i..]) == Stripped(input)
    {
      assert input[i..][0] == input[i];
      if input[i] == SectionSign && i + 1 < |input| {
        assert input[i..][2..] == input[i + 2..];
        i := i + 2;
      } else {
        assert input[i..][1..] == input[i + 1..];
        output := output + [input[i]];
        i := i + 1;
      }
    }
    assert input[i..] == [];
  }

  /** `countColorCodes`: the source's index loop. */
  method CountColorCodes(input: string) returns (count: nat)
    ensures count == CodeCount(input)
  {
    count := 0;
    var i := 0;
    while i < |input|
      invariant 0 <= i <= |input|
      invariant count + CodeCount(input[i..]) == CodeCount(input)
    {
      assert input[i..][0] == input[i];
      if input[i] == SectionSign && i + 1 < |input| {
        var code := LowercaseChar(input[i + 1]);
        assert input[i..][1] == input[i + 1] && input[i..][2..] == input[i + 2..];
        IsCodeIffValid(input[i + 1]);
        if code in ColorCodeMap || code in FormatCodeMap {
          count := count + 1;
        }
        i := i + 2;
      } else {
        assert input[i..][1..] == input[i + 1..];
        i := i + 1;
      }
    }
    assert input[i..] == [];
  }
}
