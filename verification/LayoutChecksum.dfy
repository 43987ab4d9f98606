/** The checksum that tmux requires in front of a layout string (tmux_gateway.py). */
module LayoutChecksum {

  const WORD: nat := 0x1_0000

  /** One bit to the right in 16 bits, the lowest bit coming back at the top. */
  function RotateRight(checksum: nat): (r: nat)
    requires checksum < WORD
    ensures r < WORD
  {
    checksum / 2 + (checksum % 2) * 0x8000
  }

  function Mix(checksum: nat, character: char): (r: nat)
    requires checksum < WORD
    ensures r < WORD
  {
    (RotateRight(checksum) + character as int) % WORD
  }

  /** The checksum after reading more text. */
  function ChecksumFrom(checksum: nat, layout: string): (r: nat)
    requires checksum < WORD
    ensures r < WORD
    decreases |layout|
  {
    if layout == [] then checksum else ChecksumFrom(Mix(checksum, layout[0]), layout[1..])
  }

  function Checksum(layout: string): (r: nat)
    ensures r < WORD
  {
    ChecksumFrom(0, layout)
  }

  method LayoutChecksum(layout: string) returns (checksum: nat)
    ensures checksum == Checksum(layout)
  {
    checksum := 0;
    for i := 0 to |layout|
      invariant checksum < WORD
      invariant ChecksumFrom(checksum, layout[i..]) == Checksum(layout)
    {
      assert layout[i..][1..] == layout[i + 1..];
      checksum := checksum / 2 + (checksum % 2) * 0x8000;
      checksum := checksum + layout[i] as int;
      checksum := checksum % WORD;
    }
  }

  // ---------------------------------------------------------------- bit by bit

  function PowerOfTwo(m: nat): (p: nat)
    ensures p > 0
  {
    if m == 0 then 1 else 2 * PowerOfTwo(m - 1)
  }

  /** Bit k of a number, the lowest being bit 0. */
  function Bit(n: nat, k: nat): (bit: nat)
    ensures bit < 2
  {
    if k == 0 then n % 2 else Bit(n / 2, k - 1)
  }

  lemma {:induction false} HighBit(n: nat, b: nat, m: nat, k: nat)
    requires n < PowerOfTwo(m) && b < 2 && k <= m
    ensures Bit(n + b * PowerOfTwo(m), k) == if k == m then b else Bit(n, k)
  {
    if m > 0 {
      var p := PowerOfTwo(m - 1);
      assert b * PowerOfTwo(m) == 2 * (b * p);
      assert (n + 2 * (b * p)) / 2 == n / 2 + b * p && (n + 2 * (b * p)) % 2 == n % 2;
      if k > 0 {
        HighBit(n / 2, b, m - 1, k - 1);
      }
    }
  }

  /** A rotation moves every bit one place down, and the lowest to the top. */
  lemma RotationOfBits(checksum: nat, k: nat)
    requires checksum < WORD && k < 16
    ensures Bit(RotateRight(checksum), k) == Bit(checksum, (k + 1) % 16)
  {
    assert PowerOfTwo(15) == 0x8000 by {
      assert PowerOfTwo(5) == 32 && PowerOfTwo(10) == 1024;
    }
    HighBit(checksum / 2, checksum % 2, 15, k);
  }

  /** The checksum of no text is 0; one more character rotates the sixteen bits of the checksum and is added in sixteen
      bits. */
  lemma ChecksumOfMore(layout: string, c: char) returns (rotated: nat)
    ensures Checksum("") == 0
    ensures rotated < WORD && forall k :: 0 <= k < 16 ==> Bit(rotated, k) == Bit(Checksum(layout), (k + 1) % 16)
    ensures Checksum(layout + [c]) == (rotated + c as int) % WORD
  {
    var before := Checksum(layout);
    rotated := RotateRight(before);
    forall k | 0 <= k < 16 ensures Bit(rotated, k) == Bit(before, (k + 1) % 16) {
      RotationOfBits(before, k);
    }
    ChecksumInParts(0, layout, [c]);
    assert ChecksumFrom(before, [c]) == Mix(before, c);
  }

  // ---------------------------------------------------------------- changes are noticed

  /** Rotating left undoes a step. */
  lemma RotateRightInjective(a: nat, b: nat)
    requires a < WORD && b < WORD && RotateRight(a) == RotateRight(b)
    ensures a == b
  {
    assert forall c: nat :: c < WORD ==> c == 2 * (c / 2) + c % 2;
  }

  /** For one character, different checksums stay different. */
  lemma MixInjective(a: nat, b: nat, character: char)
    requires a < WORD && b < WORD
    ensures Mix(a, character) == Mix(b, character) <==> a == b
  {
    var x, y, z := RotateRight(a), RotateRight(b), character as int;
    if (x + z) % WORD == (y + z) % WORD {
      SameResidue(x, y, z);
      RotateRightInjective(a, b);
    }
  }

  lemma SameResidue(x: nat, y: nat, z: nat)
    requires x < WORD && y < WORD && (x + z) % WORD == (y + z) % WORD
    ensures x == y
  {
    var p, q := (x + z) / WORD, (y + z) / WORD;
    assert x - y == WORD * (p - q);
  }

  /** For one checksum, characters that differ in their low sixteen bits lead to different checksums. */
  lemma MixSeparatesCharacters(a: nat, c: char, d: char)
    requires a < WORD
    ensures Mix(a, c) == Mix(a, d) <==> c as int % WORD == d as int % WORD
  {
    var x := RotateRight(a);
    var m, n := c as int % WORD, d as int % WORD;
    assert (x + c as int) % WORD == (m + x) % WORD;
    assert (x + d as int) % WORD == (n + x) % WORD;
    if (m + x) % WORD == (n + x) % WORD {
      SameResidue(m, n, x);
    }
  }

  lemma {:induction false} ChecksumFromInjective(a: nat, b: nat, tail: string)
    requires a < WORD && b < WORD
    ensures ChecksumFrom(a, tail) == ChecksumFrom(b, tail) <==> a == b
    decreases |tail|
  {
    if tail != [] {
      MixInjective(a, b, tail[0]);
      ChecksumFromInjective(Mix(a, tail[0]), Mix(b, tail[0]), tail[1..]);
    }
  }

  lemma {:induction false} ChecksumInParts(a: nat, head: string, tail: string)
    requires a < WORD
    ensures ChecksumFrom(a, head + tail) == ChecksumFrom(ChecksumFrom(a, head), tail)
    decreases |head|
  {
    if head == [] {
      assert head + tail == tail;
    } else {
      assert (head + tail)[1..] == head[1..] + tail;
      ChecksumInParts(Mix(a, head[0]), head[1..], tail);
    }
  }

  /** Two strings that differ in one place have the same checksum exactly when the two characters agree
      in their low sixteen bits: for the ASCII text of a layout, never. */
  lemma OneCharacterIsNoticed(head: string, c: char, d: char, tail: string)
    ensures Checksum(head + [c] + tail) == Checksum(head + [d] + tail) <==> c as int % WORD == d as int % WORD
  {
    var k := Checksum(head);
    ChecksumInParts(0, head + [c], tail);
    ChecksumInParts(0, head + [d], tail);
    ChecksumInParts(0, head, [c]);
    ChecksumInParts(0, head, [d]);
    assert ChecksumFrom(k, [c]) == Mix(k, c) && ChecksumFrom(k, [d]) == Mix(k, d);
    MixSeparatesCharacters(k, c, d);
    ChecksumFromInjective(Mix(k, c), Mix(k, d), tail);
  }

  // ---------------------------------------------------------------- the prefix

  function HexDigit(digit: nat): (c: char)
    requires digit < 16
  {
    if digit < 10 then '0' + digit as char else 'a' + (digit - 10) as char
  }

  function HexValue(c: char): (digit: nat)
    ensures digit < 16
  {
    if '0' <= c <= '9' then (c - '0') as int else if 'a' <= c <= 'f' then (c - 'a') as int + 10 else 0
  }

  function FourHexDigits(n: nat): (text: string)
    requires n < WORD
    ensures |text| == 4
  {
    [HexDigit(n / 0x1000), HexDigit(n / 0x100 % 16), HexDigit(n / 16 % 16), HexDigit(n % 16)]
  }

  function FromHex(text: string): (n: nat) {
    if text == [] then 0 else FromHex(text[..|text| - 1]) * 16 + HexValue(text[|text| - 1])
  }

  function Sealed(body: string): (layout: string) {
    FourHexDigits(Checksum(body)) + "," + body
  }

  /** What a receiver checks: four digits that give the checksum of the rest. */
  predicate Accepted(layout: string) {
    |layout| >= 5 && layout[4] == ',' && FromHex(layout[..4]) == Checksum(layout[5..])
  }

  lemma HexDigitRead(digit: nat)
    requires digit < 16
    ensures HexValue(HexDigit(digit)) == digit
  {
  }

  lemma FromHexSnoc(text: string, c: char)
    ensures FromHex(text + [c]) == FromHex(text) * 16 + HexValue(c)
  {
    assert (text + [c])[..|text|] == text;
  }

  lemma DigitsOf(n: nat)
    requires n < WORD
    ensures n == ((n / 0x1000 * 16 + n / 0x100 % 16) * 16 + n / 16 % 16) * 16 + n % 16
  {
    assert n / 0x100 == n / 16 / 16 && n / 0x1000 == n / 0x100 / 16;
    assert n == n / 16 * 16 + n % 16 && n / 16 == n / 0x100 * 16 + n / 16 % 16;
    assert n / 0x100 == n / 0x1000 * 16 + n / 0x100 % 16;
  }

  lemma FourDigitsRead(n: nat)
    requires n < WORD
    ensures FromHex(FourHexDigits(n)) == n
  {
    var a, b, c, d := n / 0x1000, n / 0x100 % 16, n / 16 % 16, n % 16;
    DigitsOf(n);
    HexDigitRead(a);
    HexDigitRead(b);
    HexDigitRead(c);
    HexDigitRead(d);
    var one := [HexDigit(a)];
    var two := one + [HexDigit(b)];
    var three := two + [HexDigit(c)];
    FromHexSnoc([], HexDigit(a));
    assert [] + [HexDigit(a)] == one;
    FromHexSnoc(one, HexDigit(b));
    FromHexSnoc(two, HexDigit(c));
    FromHexSnoc(three, HexDigit(d));
    assert FourHexDigits(n) == three + [HexDigit(d)];
  }

  lemma SealedIsAccepted(body: string)
    ensures Accepted(Sealed(body))
  {
    FourDigitsRead(Checksum(body));
    assert Sealed(body)[..4] == FourHexDigits(Checksum(body)) && Sealed(body)[5..] == body;
  }

  /** A sealed layout in which one character of the body was changed is accepted exactly when the two
      characters agree in their low sixteen bits. */
  lemma ChangedLayoutAcceptedIff(head: string, c: char, d: char, tail: string)
    ensures Accepted(Sealed(head + [c] + tail)[..5] + head + [d] + tail) <==> c as int % WORD == d as int % WORD
  {
    var sealed, body := Sealed(head + [c] + tail), head + [d] + tail;
    var changed := sealed[..5] + head + [d] + tail;
    assert changed == sealed[..5] + body;
    assert changed[..4] == FourHexDigits(Checksum(head + [c] + tail)) && changed[5..] == body;
    FourDigitsRead(Checksum(head + [c] + tail));
    OneCharacterIsNoticed(head, c, d, tail);
  }
}
