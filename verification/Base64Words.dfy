/** Base64 as section 4 of RFC 4648 has it: its alphabet, its groups of 24 bits, its padding, and what is decoded. */
module Base64Words {
  import opened Base64

  /** The letters in the order of their values. */
  function At(i: nat): char
    requires i < 64
  {
    if i < 26 then "ABCDEFGHIJKLMNOPQRSTUVWXYZ"[i]
    else if i < 52 then "abcdefghijklmnopqrstuvwxyz"[i - 26]
    else if i < 62 then "0123456789"[i - 52]
    else "+/"[i - 62]
  }

  predicate InAlphabet(c: char) { exists i: nat :: i < 64 && At(i) == c }

  lemma Letters(v: Six)
    ensures EncodeChar(v) == At(v)
  {
    if v < 26 {
      Capital(v);
    } else if v < 52 {
      Small(v - 26);
    }
  }

  lemma Capital(i: nat)
    requires i < 26
    ensures "ABCDEFGHIJKLMNOPQRSTUVWXYZ"[i] == 'A' + i as char
  {
  }

  lemma Small(i: nat)
    requires i < 26
    ensures "abcdefghijklmnopqrstuvwxyz"[i] == 'a' + i as char
  {
  }

  /** Three bytes as one number of 24 bits. */
  function Bits(x1: Byte, x2: Byte, x3: Byte): nat { x1 * 0x1_0000 + x2 * 0x100 + x3 }

  lemma SixBits(x1: Byte, x2: Byte, x3: Byte)
    ensures var n := Bits(x1, x2, x3);
            && Symbol1(x1) == n / 0x4_0000 && Symbol2(x1, x2) == n / 0x1000 % 64
            && Symbol3(x2, x3) == n / 64 % 64 && Symbol4(x3) == n % 64
  {
    FirstBits(x1, x2, x3);
    LastBits(x1, x2, x3);
  }

  lemma By64(q: nat, r: nat)
    requires r < 64
    ensures (q * 64 + r) / 64 == q && (q * 64 + r) % 64 == r
  {
  }

  lemma By4096(q: nat, r: nat)
    requires r < 0x1000
    ensures (q * 0x1000 + r) / 0x1000 == q && (q * 0x1000 + r) / 0x4_0000 == q / 64
  {
  }

  lemma FirstBits(x1: Byte, x2: Byte, x3: Byte)
    ensures var n := Bits(x1, x2, x3); n / 0x4_0000 == x1 / 4 && n / 0x1000 % 64 == x1 % 4 * 16 + x2 / 16
  {
    var q, r := x1 * 16 + x2 / 16, x2 % 16 * 0x100 + x3;
    assert Bits(x1, x2, x3) == q * 0x1000 + r;
    By4096(q, r);
    assert q == x1 / 4 * 64 + (x1 % 4 * 16 + x2 / 16);
    By64(x1 / 4, x1 % 4 * 16 + x2 / 16);
  }

  lemma LastBits(x1: Byte, x2: Byte, x3: Byte)
    ensures var n := Bits(x1, x2, x3); n / 64 % 64 == x2 % 16 * 4 + x3 / 64 && n % 64 == x3 % 64
  {
    var q, r := x1 * 16 + x2 / 16, x2 % 16 * 4 + x3 / 64;
    assert Bits(x1, x2, x3) == (q * 64 + r) * 64 + x3 % 64;
    By64(q * 64 + r, x3 % 64);
    By64(q, r);
  }

  /** The letters of 24 bits, the highest six first. */
  function Quad(n: nat): string
    requires n < 0x100_0000
  {
    [At(n / 0x4_0000), At(n / 0x1000 % 64), At(n / 64 % 64), At(n % 64)]
  }

  lemma GroupLetters(x1: Byte, x2: Byte, x3: Byte)
    ensures Bits(x1, x2, x3) < 0x100_0000 && Chars(Group(x1, x2, x3)) == Quad(Bits(x1, x2, x3))
  {
    hide Symbol1, Symbol2, Symbol3, Symbol4, At, Bits, EncodeChar;
    SixBits(x1, x2, x3);
    BitsFit(x1, x2, x3);
    var g := Group(x1, x2, x3);
    Letters(g[0]);
    Letters(g[1]);
    Letters(g[2]);
    Letters(g[3]);
  }

  lemma BitsFit(x1: Byte, x2: Byte, x3: Byte)
    ensures Bits(x1, x2, x3) < 0x100_0000
  {
  }

  /** Every three bytes become four letters; one byte or two at the end become two or three letters and `=` for the rest. */
  lemma EncodeWords(x1: Byte, x2: Byte, x3: Byte, rest: seq<Byte>)
    ensures Bits(x1, x2, x3) < 0x100_0000 && Bits(x1, x2, 0) < 0x100_0000 && Bits(x1, 0, 0) < 0x100_0000
    ensures Encode([x1, x2, x3] + rest) == Quad(Bits(x1, x2, x3)) + Encode(rest)
    ensures Encode([x1, x2]) == Quad(Bits(x1, x2, 0))[..3] + "="
    ensures Encode([x1]) == Quad(Bits(x1, 0, 0))[..2] + "=="
    ensures Encode([]) == ""
  {
    hide Quad, Bits, Group, EncodeChar;
    GroupLetters(x1, x2, x3);
    GroupLetters(x1, x2, 0);
    GroupLetters(x1, 0, 0);
    SymbolsCons([x1, x2, x3], rest);
    CountStep(|rest| + 3);
    assert Pads(1) == "=" && Pads(2) == "==" && Pads(0) == "";
    assert Chars(Group(x1, x2, x3) + Symbols(rest)) == Chars(Group(x1, x2, x3)) + Chars(Symbols(rest));
    assert Chars(Group(x1, x2, 0)[..3]) == Chars(Group(x1, x2, 0))[..3];
    assert Chars(Group(x1, 0, 0)[..2]) == Chars(Group(x1, 0, 0))[..2];
  }

  lemma AlphabetOnly(c: char)
    ensures DecodeChar(c).Some? <==> InAlphabet(c)
    ensures DecodeChar(c).Some? ==> c == At(DecodeChar(c).value)
  {
    hide At, EncodeChar;
    CharBack(c);
    if DecodeChar(c).Some? {
      Letters(DecodeChar(c).value);
    } else {
      forall i: nat | i < 64 ensures At(i) != c {
        Letters(i);
        CharRoundTrip(i);
      }
    }
  }

  /** A text is decoded when it has up to 4096 characters in fours, all of the alphabet but for one or two `=` at the end. */
  lemma DecodesIff(s: string)
    ensures Decode(s).Success? <==>
              && 1 <= |s| <= 4096 && |s| % 4 == 0
              && exists n: nat :: n <= 2 && n <= |s| && s[|s| - n..] == Pads(n) && forall i :: 0 <= i < |s| - n ==> InAlphabet(s[i])
    ensures Decode(s).Failure? ==> Decode(s).error == -22
  {
    hide DecodeChar, Bytes;
    forall i | 0 <= i < |s| ensures DecodeChar(s[i]).Some? <==> InAlphabet(s[i]) {
      AlphabetOnly(s[i]);
    }
    var pad := Padding(s);
    assert s[|s| - pad..] == Pads(pad);
    forall n: nat | n <= 2 && n <= |s| && s[|s| - n..] == Pads(n) && forall i :: 0 <= i < |s| - n ==> InAlphabet(s[i]) ensures n == pad {
      NotAlphabet();
      OnlyPadding(s, n);
    }
  }

  lemma OnlyPadding(s: string, n: nat)
    requires n <= |s| && s[|s| - n..] == Pads(n) && (n < |s| ==> s[|s| - n - 1] != '=')
    ensures Padding(s) == n
  {
    hide Padding;
    var front := s[..|s| - n];
    assert s == front + Pads(n);
    PaddingOf(front, n);
  }

  lemma NotAlphabet()
    ensures !InAlphabet('=')
  {
    AlphabetOnly('=');
  }
}
