/** How many parts a text is billed for (internal/billing/pdu.go). A text is its runes. */
module Segments {

  // The default alphabet of section 6.2.1 of 3GPP TS 23.038, as far as it is listed:
  // Latin letters and digits, signs, accented letters and Greek capitals.

  const SIGNS: set<char> := {
    '@', '\U{A3}', '$', '\U{A5}', '\n', '\r', '_', ' ', '!', '"', '#', '\U{A4}', '%', '&', '\'', '(', ')', '*', '+',
    ',', '-', '.', '/', ':', ';', '<', '=', '>', '?', '\U{A1}', '\U{A7}', '\U{BF}'}

  const ACCENTED: set<char> := {
    '\U{E8}', '\U{E9}', '\U{F9}', '\U{EC}', '\U{F2}', '\U{C7}', '\U{D8}', '\U{F8}', '\U{C5}', '\U{E5}', '\U{C6}',
    '\U{E6}', '\U{DF}', '\U{C9}', '\U{C4}', '\U{D6}', '\U{D1}', '\U{DC}', '\U{E4}', '\U{F6}', '\U{F1}',
    '\U{FC}', '\U{E0}'}

  const GREEK: set<char> := {
    '\U{394}', '\U{3A6}', '\U{393}', '\U{39B}', '\U{3A9}', '\U{3A0}', '\U{3A8}', '\U{3A3}', '\U{398}', '\U{39E}'}

  /** The extension table, section 6.2.1.1: an escape and a character. */
  const EXTENSION: set<char> := {'|', '^', '\U{20AC}', '{', '}', '[', ']', '~', '\\'}

  predicate IsBasic(c: char) {
    || 'A' <= c <= 'Z' || 'a' <= c <= 'z' || '0' <= c <= '9'
    || c in SIGNS || c in ACCENTED || c in GREEK
  }

  predicate IsExtension(c: char) {
    c in EXTENSION
  }

  /** The alphabet by code point, every one of them: printable ASCII but the backtick, and these. */
  lemma Alphabet(c: char)
    ensures var k := c as int;
      IsExtension(c) <==> k in {0x5B, 0x5C, 0x5D, 0x5E, 0x7B, 0x7C, 0x7D, 0x7E, 0x20AC}
    ensures var k := c as int;
      IsBasic(c) <==>
        || 0x20 <= k <= 0x5A || k == 0x5F || 0x61 <= k <= 0x7A || k == 0x0A || k == 0x0D
        || k in {0xA1, 0xA3, 0xA4, 0xA5, 0xA7, 0xBF, 0xC4, 0xC5, 0xC6, 0xC7, 0xC9, 0xD1, 0xD6, 0xD8, 0xDC, 0xDF}
        || k in {0xE0, 0xE4, 0xE5, 0xE6, 0xE8, 0xE9, 0xEC, 0xF1, 0xF2, 0xF6, 0xF8, 0xF9, 0xFC}
        || k in {0x393, 0x394, 0x398, 0x39B, 0x39E, 0x3A0, 0x3A3, 0x3A6, 0x3A8, 0x3A9}
  {
  }

  predicate Gsm7(text: string) {
    forall i :: 0 <= i < |text| ==> IsBasic(text[i]) || IsExtension(text[i])
  }

  function SeptetsOf(c: char): nat {
    if IsExtension(c) then 2 else 1
  }

  function UnitsOf(c: char): nat {
    if c as int >= 0x10000 then 2 else 1
  }

  function Septets(text: string): nat {
    if text == [] then 0 else Septets(text[..|text| - 1]) + SeptetsOf(text[|text| - 1])
  }

  function Units(text: string): nat {
    if text == [] then 0 else Units(text[..|text| - 1]) + UnitsOf(text[|text| - 1])
  }

  function Blocks(n: nat, single: nat, block: nat): nat
    requires block > 0
  {
    if n <= single then 1 else (n + (block - 1)) / block
  }

  function SegmentCount(text: string): nat {
    if text == [] then 1
    else if Gsm7(text) then Blocks(Septets(text), 160, 153)
    else Blocks(Units(text), 70, 67)
  }

  // ---------------------------------------------------------------- the loops

  method IsGsm7(text: string) returns (yes: bool)
    ensures yes == Gsm7(text)
  {
    hide IsBasic, IsExtension;
    for i := 0 to |text|
      invariant forall j :: 0 <= j < i ==> IsBasic(text[j]) || IsExtension(text[j])
    {
      if IsBasic(text[i]) {
        continue;
      }
      if IsExtension(text[i]) {
        continue;
      }
      return false;
    }
    return true;
  }

  method Gsm7Septets(text: string) returns (n: nat)
    ensures n == Septets(text)
  {
    n := 0;
    for i := 0 to |text|
      invariant n == Septets(text[..i])
    {
      assert text[..i + 1][..i] == text[..i];
      if IsExtension(text[i]) {
        n := n + 2;
      } else {
        n := n + 1;
      }
    }
    assert text[..|text|] == text;
  }

  method CountSegments(text: string) returns (count: nat)
    ensures count == SegmentCount(text)
  {
    if text == [] {
      return 1;
    }
    var gsm := IsGsm7(text);
    if gsm {
      var n := Gsm7Septets(text);
      if n <= 160 {
        return 1;
      }
      return (n + 152) / 153;
    }
    var n := Units(text);
    if n <= 70 {
      return 1;
    }
    return (n + 66) / 67;
  }

  // ---------------------------------------------------------------- laws

  /** The count is the least number of blocks that holds the text; one part may be fuller. */
  lemma LeastBlocks(n: nat, single: nat, block: nat)
    requires 0 < block <= single
    ensures var count := Blocks(n, single, block);
      && count >= 1
      && (count == 1 <==> n <= single)
      && (n > single ==> n <= block * count && block * (count - 1) < n)
      && (n > single ==> forall m: nat :: n <= block * m ==> count <= m)
  {
    if n > single {
      var count := (n + (block - 1)) / block;
      var rest := (n + (block - 1)) % block;
      assert n + (block - 1) == block * count + rest;
      assert block * (count - 1) == block * count - block;
      forall m: nat | n <= block * m ensures count <= m {
        if m < count {
          BlockStep(block, m, count - 1);
        }
      }
      if count <= 1 {
        BlockStep(block, count, 1);
      }
    }
  }

  lemma BlockStep(block: nat, m: int, n: int)
    requires m <= n
    ensures block * m <= block * n
  {
  }

  lemma BlocksGrow(n: nat, m: nat, single: nat, block: nat)
    requires 0 < block <= single && n <= m
    ensures Blocks(n, single, block) <= Blocks(m, single, block)
  {
    LeastBlocks(n, single, block);
    LeastBlocks(m, single, block);
  }

  lemma {:induction false} CountsJoin(a: string, b: string)
    ensures Septets(a + b) == Septets(a) + Septets(b)
    ensures Units(a + b) == Units(a) + Units(b)
    decreases |b|
  {
    if b == [] {
      assert a + b == a;
    } else {
      assert (a + b)[..|a + b| - 1] == a + b[..|b| - 1];
      CountsJoin(a, b[..|b| - 1]);
    }
  }

  lemma {:induction false} CountBounds(text: string)
    ensures |text| <= Septets(text) <= 2 * |text|
    ensures |text| <= Units(text) <= 2 * |text|
  {
    if text != [] {
      CountBounds(text[..|text| - 1]);
    }
  }

  /** At 153 septets a block, an extension character takes less room than at 67 units a block. */
  lemma SwitchGrows(septets: nat, runes: nat, units: nat)
    requires septets <= 2 * runes && runes < units
    ensures Blocks(septets, 160, 153) <= Blocks(units, 70, 67)
  {
    if septets > 160 {
      LeastBlocks(septets, 160, 153);
      LeastBlocks(units, 70, 67);
    }
  }

  /** Adding text anywhere never lowers the count, also where it forces the wider alphabet. */
  lemma SegmentsGrow(a: string, b: string, c: string)
    ensures SegmentCount(a + c) <= SegmentCount(a + b + c)
  {
    var short, long := a + c, a + b + c;
    CountsJoin(a, c);
    CountsJoin(a, b);
    CountsJoin(a + b, c);
    CountBounds(short);
    CountBounds(long);
    Kept(a, b, c);
    LeastBlocks(Septets(long), 160, 153);
    LeastBlocks(Units(long), 70, 67);
    if short != [] {
      BlocksGrow(Septets(short), Septets(long), 160, 153);
      BlocksGrow(Units(short), Units(long), 70, 67);
      if Gsm7(short) && !Gsm7(long) {
        assert b != [];
        SwitchGrows(Septets(short), |short|, Units(long));
      }
    }
  }

  lemma Kept(a: string, b: string, c: string)
    ensures Gsm7(a + b + c) ==> Gsm7(a + c)
    ensures b == [] ==> a + b + c == a + c
  {
    if Gsm7(a + b + c) {
      var short, long := a + c, a + b + c;
      forall i | 0 <= i < |short| ensures IsBasic(short[i]) || IsExtension(short[i]) {
        var j := if i < |a| then i else i + |b|;
        assert short[i] == long[j];
      }
    }
  }

  /** The count of every text, by its alphabet: one part up to the limit, then the least number of blocks. */
  lemma SegmentLaw(text: string)
    requires text != []
    ensures var count := SegmentCount(text);
      if Gsm7(text) then
        && (count == 1 <==> Septets(text) <= 160)
        && (Septets(text) > 160 ==> 153 * (count - 1) < Septets(text) <= 153 * count)
      else
        && (count == 1 <==> Units(text) <= 70)
        && (Units(text) > 70 ==> 67 * (count - 1) < Units(text) <= 67 * count)
    ensures SegmentCount("") == 1
  {
    hide Gsm7, Septets, Units;
    LeastBlocks(Septets(text), 160, 153);
    LeastBlocks(Units(text), 70, 67);
  }

  predicate Plain(c: char) {
    'A' <= c <= 'Z' || 'a' <= c <= 'z' || '0' <= c <= '9' || c == ' '
  }

  lemma {:induction false} PlainCounts(text: string)
    requires forall i :: 0 <= i < |text| ==> Plain(text[i])
    ensures Gsm7(text) && Septets(text) == |text|
  {
    if text != [] {
      PlainCounts(text[..|text| - 1]);
      Alphabet(text[|text| - 1]);
      assert forall i :: 0 <= i < |text| ==> Gsm7Rune(text[i]) by {
        forall i | 0 <= i < |text| ensures Gsm7Rune(text[i]) {
          Alphabet(text[i]);
        }
      }
    }
  }

  predicate Gsm7Rune(c: char) {
    IsBasic(c) || IsExtension(c)
  }

  /** Latin letters, digits and spaces: one part up to 160 runes, and 153 to a part beyond. */
  lemma PlainTexts(text: string)
    requires text != [] && forall i :: 0 <= i < |text| ==> Plain(text[i])
    ensures SegmentCount(text) == 1 <==> |text| <= 160
    ensures |text| > 160 ==> 153 * (SegmentCount(text) - 1) < |text| <= 153 * SegmentCount(text)
  {
    hide Gsm7, Septets, IsBasic, IsExtension;
    PlainCounts(text);
    SegmentLaw(text);
  }

  lemma {:induction false} NarrowUnits(text: string)
    requires forall i :: 0 <= i < |text| ==> text[i] as int < 0x10000
    ensures Units(text) == |text|
  {
    if text != [] {
      NarrowUnits(text[..|text| - 1]);
    }
  }

  /** One Cyrillic letter anywhere: one part up to 70 runes of the basic plane, and 67 to a part beyond. */
  lemma CyrillicTexts(text: string, k: nat)
    requires k < |text| && 0x400 <= text[k] as int <= 0x4FF
    requires forall i :: 0 <= i < |text| ==> text[i] as int < 0x10000
    ensures SegmentCount(text) == 1 <==> |text| <= 70
    ensures |text| > 70 ==> 67 * (SegmentCount(text) - 1) < |text| <= 67 * SegmentCount(text)
  {
    hide Septets, Units, IsBasic, IsExtension;
    NarrowUnits(text);
    Alphabet(text[k]);
    SegmentLaw(text);
  }

  const MAX_TEXT_RUNES: nat := 1000

  function Repeat(c: char, n: nat): string {
    if n == 0 then [] else Repeat(c, n - 1) + [c]
  }

  /** A text that is accepted is billed for at most thirty parts, */
  lemma AtMostThirty(text: string)
    requires |text| <= MAX_TEXT_RUNES
    ensures 1 <= SegmentCount(text) <= 30
    ensures Gsm7(text) ==> SegmentCount(text) <= 14
  {
    CountBounds(text);
  }

  lemma {:induction false} RepeatUnits(c: char, n: nat)
    ensures |Repeat(c, n)| == n && Units(Repeat(c, n)) == UnitsOf(c) * n && Septets(Repeat(c, n)) == SeptetsOf(c) * n
    ensures forall i :: 0 <= i < n ==> Repeat(c, n)[i] == c
  {
    if n > 0 {
      RepeatUnits(c, n - 1);
      assert Repeat(c, n)[..n - 1] == Repeat(c, n - 1);
    }
  }

  lemma OutsideAndExtension()
    ensures !IsBasic('\U{1F600}') && !IsExtension('\U{1F600}') && IsExtension('\U{20AC}')
  {
  }

  /** and thirty, or fourteen in the narrow alphabet, are reached. */
  lemma ThirtyIsReached()
    ensures SegmentCount(Repeat('\U{1F600}', MAX_TEXT_RUNES)) == 30
    ensures SegmentCount(Repeat('\U{20AC}', MAX_TEXT_RUNES)) == 14
  {
    hide IsBasic, IsExtension, Repeat;
    OutsideAndExtension();
    RepeatUnits('\U{1F600}', MAX_TEXT_RUNES);
    RepeatUnits('\U{20AC}', MAX_TEXT_RUNES);
    var wide := Repeat('\U{1F600}', MAX_TEXT_RUNES);
    assert wide[0] == '\U{1F600}';
  }
}
