/** The "pastel" colour helper the pet models share: it reads the three
    two-digit hex components of a `#RRGGBB` colour, moves each a fixed
    share of the way towards white and writes them back as lowercase hex. */
module PetColors {
  import opened Common

  /** The default body colour. */
  const DefaultPrimary: string := "#7CC6FF"

  /** The value of one hex digit, either case. */
  function HexValue(c: char): (r: Option<nat>)
    ensures r.Some? ==> r.value < 16
  {
    if '0' <= c <= '9' then Some(c as int - '0' as int)
    else if 'a' <= c <= 'f' then Some(c as int - 'a' as int + 10)
    else if 'A' <= c <= 'F' then Some(c as int - 'A' as int + 10)
    else None
  }

  /** The lowercase digit for a value below 16 (`toString(16)`). */
  function LowerHexDigit(v: nat): (c: char)
    requires v < 16
    ensures HexValue(c) == Some(v)
    ensures '0' <= c <= '9' || 'a' <= c <= 'f'
  {
    if v < 10 then ('0' as int + v) as char else ('a' as int + v - 10) as char
  }

  /** A `0x` or `0X` prefix, which `parseInt` with radix 16 skips. */
  predicate HexPrefix(s: string) {
    |s| == 2 && s[0] == '0' && (s[1] == 'x' || s[1] == 'X')
  }

  /** `parseInt(s, 16)` for a string of at most two characters: the value
      of the leading hex digits; none (`NaN`) when the first is not one, or
      when the pair is a bare `0x` prefix with no digits after it. */
  function ParseHexPair(s: string): (r: Option<nat>)
    requires |s| <= 2
    ensures r.Some? ==> r.value < 256
    ensures r.None? <==> |s| == 0 || HexValue(s[0]).None? || HexPrefix(s)
    ensures |s| == 2 && HexValue(s[0]).Some? && HexValue(s[1]).Some? ==>
      r == Some(16 * HexValue(s[0]).value + HexValue(s[1]).value)
  {
    if |s| == 0 || HexValue(s[0]).None? || HexPrefix(s) then None
    else if |s| == 1 || HexValue(s[1]).None? then HexValue(s[0])
    else Some(16 * HexValue(s[0]).value + HexValue(s[1]).value)
  }

  /** `v.toString(16).padStart(2, '0')` for a component value. */
  function ToHex2(v: nat): (s: string)
    requires v < 256
    ensures |s| == 2
    ensures forall i :: 0 <= i < 2 ==> '0' <= s[i] <= '9' || 'a' <= s[i] <= 'f'
  {
    [LowerHexDigit(v / 16), LowerHexDigit(v % 16)]
  }

  /** Writing a component and parsing it back gives the component. */
  lemma HexRoundTrip(v: nat)
    requires v < 256
    ensures ParseHexPair(ToHex2(v)) == Some(v)
  {
    assert HexValue(ToHex2(v)[0]) == Some(v / 16);
    assert HexValue(ToHex2(v)[1]) == Some(v % 16);
  }

  /** `s.replace('#', '')`: only the first `#` is removed. */
  function RemoveFirstHash(s: string): (r: string)
    ensures '#' !in s ==> r == s
    ensures |s| > 0 && s[0] == '#' ==> r == s[1..]
    ensures '#' in s ==> |r| == |s| - 1
  {
    if |s| == 0 then s
    else if s[0] == '#' then s[1..]
    else [s[0]] + RemoveFirstHash(s[1..])
  }

  /** `s.substring(i, j)` for `i <= j`: clamped to the string's length. */
  function Substring(s: string, i: nat, j: nat): (r: string)
    requires i <= j
    ensures |r| <= j - i
    ensures j <= |s| ==> r == s[i..j]
  {
    var a := if i <= |s| then i else |s|;
    var b := if j <= |s| then j else |s|;
    s[a..b]
  }

  /** `Math.round(c + (255 - c) * ratio)`: a component moved `ratio` of the
      way towards white. */
  function Mix(c: nat, ratio: real): (r: int)
    requires c <= 255 && 0.0 <= ratio <= 1.0
    ensures c <= r <= 255
  {
    var x := c as real + (255 - c) as real * ratio;
    assert c as real <= x <= 255.0 by {
      assert (255 - c) as real * ratio <= (255 - c) as real;
    }
    Round(x)
  }

  /** The pastel of a colour, or none where a component does not parse
      (the source would print `NaN` there). */
  function Pastel(hex: string, ratio: real): (r: Option<string>)
    requires 0.0 <= ratio <= 1.0
    ensures r.Some? ==> |r.value| == 7 && r.value[0] == '#'
    ensures r.Some? ==> forall i :: 1 <= i < 7 ==> '0' <= r.value[i] <= '9' || 'a' <= r.value[i] <= 'f'
  {
    var h := RemoveFirstHash(hex);
    var red := ParseHexPair(Substring(h, 0, 2));
    var green := ParseHexPair(Substring(h, 2, 4));
    var blue := ParseHexPair(Substring(h, 4, 6));
    if red.None? || green.None? || blue.None? then None
    else
      var s := "#" + ToHex2(Mix(red.value, ratio)) + ToHex2(Mix(green.value, ratio)) + ToHex2(Mix(blue.value, ratio));
      assert forall i :: 1 <= i < 7 ==> s[i] == (ToHex2(Mix(red.value, ratio)) + ToHex2(Mix(green.value, ratio)) + ToHex2(Mix(blue.value, ratio)))[i - 1];
      Some(s)
  }

  /** A `#RRGGBB` colour: a hash and six hex digits of either case. */
  predicate IsHexColor(hex: string) {
    |hex| == 7 && hex[0] == '#' && forall i :: 1 <= i < 7 ==> HexValue(hex[i]).Some?
  }

  /** The component at `k` (0 red, 1 green, 2 blue) of a `#RRGGBB` colour. */
  function Component(hex: string, k: nat): (v: nat)
    requires IsHexColor(hex) && k < 3
    ensures v < 256
  {
    16 * HexValue(hex[1 + 2 * k]).value + HexValue(hex[2 + 2 * k]).value
  }

  /** For a `#RRGGBB` colour the pastel exists, is again a `#RRGGBB`
      colour, and each of its components is that component mixed, so it is
      never darker than the input. */
  lemma {:induction false} PastelOfHexColor(hex: string, ratio: real)
    requires IsHexColor(hex) && 0.0 <= ratio <= 1.0
    ensures Pastel(hex, ratio).Some?
    ensures IsHexColor(Pastel(hex, ratio).value)
    ensures forall k :: 0 <= k < 3 ==>
      Component(Pastel(hex, ratio).value, k) == Mix(Component(hex, k), ratio)
      && Component(Pastel(hex, ratio).value, k) >= Component(hex, k)
  {
    ParsesComponents(hex);
    var p := Pastel(hex, ratio);
    var r := Mix(Component(hex, 0), ratio);
    var g := Mix(Component(hex, 1), ratio);
    var b := Mix(Component(hex, 2), ratio);
    assert p.value == "#" + ToHex2(r) + ToHex2(g) + ToHex2(b);
    ComponentsOfWritten(r, g, b);
  }

  /** The three pairs the source cuts out of a `#RRGGBB` colour parse to its
      components. */
  lemma ParsesComponents(hex: string)
    requires IsHexColor(hex)
    ensures ParseHexPair(Substring(RemoveFirstHash(hex), 0, 2)) == Some(Component(hex, 0))
    ensures ParseHexPair(Substring(RemoveFirstHash(hex), 2, 4)) == Some(Component(hex, 1))
    ensures ParseHexPair(Substring(RemoveFirstHash(hex), 4, 6)) == Some(Component(hex, 2))
  {
    var h := RemoveFirstHash(hex);
    assert h == hex[1..];
    assert Substring(h, 0, 2) == [hex[1], hex[2]];
    assert Substring(h, 2, 4) == [hex[3], hex[4]];
    assert Substring(h, 4, 6) == [hex[5], hex[6]];
  }

  /** A colour written from three components is a `#RRGGBB` colour with
      those components. */
  lemma ComponentsOfWritten(r: nat, g: nat, b: nat)
    requires r < 256 && g < 256 && b < 256
    ensures IsHexColor("#" + ToHex2(r) + ToHex2(g) + ToHex2(b))
    ensures Component("#" + ToHex2(r) + ToHex2(g) + ToHex2(b), 0) == r
    ensures Component("#" + ToHex2(r) + ToHex2(g) + ToHex2(b), 1) == g
    ensures Component("#" + ToHex2(r) + ToHex2(g) + ToHex2(b), 2) == b
  {
    var s := "#" + ToHex2(r) + ToHex2(g) + ToHex2(b);
    assert s[1] == ToHex2(r)[0] && s[2] == ToHex2(r)[1];
    assert s[3] == ToHex2(g)[0] && s[4] == ToHex2(g)[1];
    assert s[5] == ToHex2(b)[0] && s[6] == ToHex2(b)[1];
    HexRoundTrip(r);
    HexRoundTrip(g);
    HexRoundTrip(b);
  }

  /** White stays white under every mix, and black goes to the mix's own
      floor: 64 for a quarter, 102 for two fifths. */
  lemma MixEnds()
    ensures Mix(255, 0.25) == 255 && Mix(255, 0.4) == 255
    ensures Mix(0, 0.25) == 64 && Mix(0, 0.4) == 102
  {
  }

  /** With a two-fifths mix no component lands on a half, so the rounding
      never has a tie to break. */
  lemma TwoFifthsNeverTies(c: nat, k: int)
    requires c <= 255
    ensures c as real + (255 - c) as real * 0.4 != k as real + 0.5
  {
  }

  /** The default colour's quarter pastel is `#9dd4ff`. */
  lemma DefaultQuarterPastel()
    ensures Pastel(DefaultPrimary, 0.25) == Some("#9dd4ff")
  {
    var h := RemoveFirstHash(DefaultPrimary);
    assert h == "7CC6FF";
    assert Substring(h, 0, 2) == "7C" && Substring(h, 2, 4) == "C6" && Substring(h, 4, 6) == "FF";
    assert ParseHexPair("7C") == Some(124);
    assert ParseHexPair("C6") == Some(198);
    assert ParseHexPair("FF") == Some(255);
    assert Mix(124, 0.25) == 157 && Mix(198, 0.25) == 212 && Mix(255, 0.25) == 255;
    assert ToHex2(157) == "9d" && ToHex2(212) == "d4" && ToHex2(255) == "ff";
    assert Pastel(DefaultPrimary, 0.25) == Some("#" + ToHex2(157) + ToHex2(212) + ToHex2(255));
    assert "#" + "9d" + "d4" + "ff" == "#9dd4ff";
  }

  /** A component cut as `0x` does not parse, so no pastel is produced for
      `#0x0000` (the source prints `NaN` for its red component). */
  lemma HexPrefixComponentHasNoPastel()
    ensures Pastel("#0x0000", 0.25).None?
  {
    var h := RemoveFirstHash("#0x0000");
    assert h == "0x0000";
    assert Substring(h, 0, 2) == "0x";
    assert HexPrefix("0x");
  }
}
