/** The hash of a name in the name server's table: the loop over the characters, and which names it is
  * sure to keep apart. Characters are bytes, widened without sign. */
module StringHash {
  import opened CrcTable

  type Name = seq<bv8>

  function Xor(x: bv32, y: bv32): bv32 {
    x ^ y
  }

  /** One round without the character: shift, and look the low byte up. */
  function Round(h: bv32): bv32 {
    Xor(h >> 8, Entry(h & 0xFF))
  }

  function Code(c: bv8): bv32 {
    c as bv32
  }

  function HashFrom(h: bv32, s: Name): bv32
    decreases |s|
  {
    if s == [] then h else HashFrom(Xor(Round(h), Code(s[0])), s[1..])
  }

  /** The hash starts at the length, cut to 32 bits. */
  function Start(n: nat): bv32 {
    (n % 0x1_0000_0000) as bv32
  }

  function Hash(s: Name): bv32 {
    HashFrom(Start(|s|), s)
  }

  method ComputeHash(s: Name) returns (hash: bv32)
    ensures hash == Hash(s)
  {
    hash := (|s| % 0x1_0000_0000) as bv32;
    var i := 0;
    while i < |s|
      invariant i <= |s| && HashFrom(hash, s[i..]) == Hash(s)
    {
      hash := (hash >> 8) ^ Entry(hash & 0xFF) ^ Code(s[i]);
      i := i + 1;
    }
  }

  // ---------------------------------------------------------------- one round

  lemma HalfXor(x: bv32, y: bv32)
    ensures (x ^ y) >> 1 == (x >> 1) ^ (y >> 1)
  {
  }

  lemma LowXor(x: bv32, y: bv32)
    ensures (x ^ y) & 1 == (x & 1) ^ (y & 1)
    ensures x & 1 == 0 || x & 1 == 1
    ensures y & 1 == 0 || y & 1 == 1
  {
  }

  lemma XorTwice(a: bv32, b: bv32, c: bv32)
    ensures (a ^ c) ^ (b ^ c) == a ^ b
    ensures (a ^ c) ^ b == (a ^ b) ^ c
    ensures a ^ (b ^ c) == (a ^ b) ^ c
  {
  }

  lemma ShiftXor(x: bv32, y: bv32)
    ensures Shift(Xor(x, y)) == Xor(Shift(x), Shift(y))
  {
    HalfXor(x, y);
    LowXor(x, y);
    XorTwice(x >> 1, y >> 1, 0xEDB8_8320);
  }

  lemma ShiftInjective(x: bv32, y: bv32)
    requires Shift(x) == Shift(y)
    ensures x == y
  {
  }

  /** n rounds of the CRC. */
  function Shifts(x: bv32, n: nat): bv32
    decreases n
  {
    if n == 0 then x else Shifts(Shift(x), n - 1)
  }

  lemma EightShifts(x: bv32)
    ensures Eight(x) == Shifts(x, 8)
  {
    assert Shifts(x, 8) == Shifts(Shift(x), 7) == Shifts(Shift(Shift(x)), 6);
    var x2 := Shift(Shift(x));
    assert Shifts(x2, 6) == Shifts(Shift(x2), 5) == Shifts(Shift(Shift(x2)), 4);
    var x4 := Shift(Shift(x2));
    assert Shifts(x4, 4) == Shifts(Shift(x4), 3) == Shifts(Shift(Shift(x4)), 2);
    var x6 := Shift(Shift(x4));
    assert Shifts(x6, 2) == Shifts(Shift(x6), 1) == Shifts(Shift(Shift(x6)), 0);
  }

  lemma {:induction false} ShiftsXor(x: bv32, y: bv32, n: nat)
    ensures Shifts(Xor(x, y), n) == Xor(Shifts(x, n), Shifts(y, n))
    decreases n
  {
    if n > 0 {
      ShiftXor(x, y);
      ShiftsXor(Shift(x), Shift(y), n - 1);
    }
  }

  lemma {:induction false} ShiftsInjective(x: bv32, y: bv32, n: nat)
    requires Shifts(x, n) == Shifts(y, n)
    ensures x == y
    decreases n
  {
    if n > 0 {
      ShiftsInjective(Shift(x), Shift(y), n - 1);
      ShiftInjective(x, y);
    }
  }

  /** A word whose low byte is zero is only shifted by eight rounds. */
  lemma EightOfHigh(h: bv32)
    ensures Eight(h & 0xFFFF_FF00) == h >> 8
  {
  }

  lemma Parts(h: bv32)
    ensures Xor(h & 0xFFFF_FF00, h & 0xFF) == h && h & 0xFF < 0x100
  {
  }

  /** THEOREM. A round of the hash is eight rounds of the CRC on the whole word. */
  lemma RoundIsEight(h: bv32)
    ensures Round(h) == Shifts(h, 8)
  {
    var b := h & 0xFF;
    Parts(h);
    TableIsEight(b);
    EightOfHigh(h);
    EightShifts(b);
    EightShifts(h & 0xFFFF_FF00);
    ShiftsXor(h & 0xFFFF_FF00, b, 8);
  }

  lemma ShiftedBack(x: bv32)
    requires x < 0x100_0000
    ensures (x << 8) & 0xFFFF_FF00 == x << 8 && (x << 8) >> 8 == x
  {
  }

  lemma RoundXor(x: bv32, y: bv32)
    ensures Round(Xor(x, y)) == Xor(Round(x), Round(y))
  {
    RoundIsEight(x);
    RoundIsEight(y);
    RoundIsEight(Xor(x, y));
    ShiftsXor(x, y, 8);
  }

  lemma RoundInjective(x: bv32, y: bv32)
    requires Round(x) == Round(y)
    ensures x == y
  {
    RoundIsEight(x);
    RoundIsEight(y);
    ShiftsInjective(x, y, 8);
  }

  lemma RoundOfShifted(x: bv32)
    requires x < 0x100_0000
    ensures Round(x << 8) == x
  {
    ShiftedBack(x);
    RoundIsEight(x << 8);
    EightShifts(x << 8);
    EightOfHigh(x << 8);
  }

  /** THEOREM. A round is XOR-linear and loses nothing, and it undoes a left shift by eight of any
    * word that has room for it. */
  lemma RoundLaws(x: bv32, y: bv32)
    ensures Round(Xor(x, y)) == Xor(Round(x), Round(y))
    ensures Round(x) == Round(y) ==> x == y
    ensures x < 0x100_0000 ==> Round(x << 8) == x
  {
    RoundXor(x, y);
    if Round(x) == Round(y) {
      RoundInjective(x, y);
    }
    if x < 0x100_0000 {
      RoundOfShifted(x);
    }
  }

  // ---------------------------------------------------------------- names

  lemma NonZeroDifference(x: bv32, y: bv32)
    ensures Xor(x, y) == 0 <==> x == y
  {
    XorCancels(x, y);
    XorWithZero(y);
    XorWithSelf(y);
  }

  lemma XorCancels(x: bv32, y: bv32)
    ensures Xor(Xor(x, y), y) == x
  {
  }

  lemma XorWithZero(y: bv32)
    ensures Xor(0, y) == y
  {
  }

  lemma XorWithSelf(y: bv32)
    ensures Xor(y, y) == 0
  {
  }

  /** How the difference of two hashes goes on over one more character of each name. */
  lemma DifferenceStep(h: bv32, g: bv32, c: bv8, d: bv8)
    ensures Xor(Xor(Round(h), Code(c)), Xor(Round(g), Code(d))) == Xor(Round(Xor(h, g)), Xor(Code(c), Code(d)))
  {
    RoundXor(h, g);
    Regroup(Round(h), Code(c), Round(g), Code(d));
  }

  lemma Regroup(a: bv32, b: bv32, c: bv32, d: bv32)
    ensures Xor(Xor(a, b), Xor(c, d)) == Xor(Xor(a, c), Xor(b, d))
  {
    XorAssociative(a, b, Xor(c, d));
    XorAssociative(b, c, d);
    XorCommutative(b, c);
    XorAssociative(c, b, d);
    XorAssociative(a, c, Xor(b, d));
  }

  lemma XorAssociative(a: bv32, b: bv32, c: bv32)
    ensures Xor(Xor(a, b), c) == Xor(a, Xor(b, c))
  {
  }

  lemma XorCommutative(a: bv32, b: bv32)
    ensures Xor(a, b) == Xor(b, a)
  {
  }

  /** Different hashes stay different over the same characters. */
  lemma {:induction false} SameCharacters(h: bv32, g: bv32, s: Name)
    requires h != g
    ensures HashFrom(h, s) != HashFrom(g, s)
    decreases |s|
  {
    if s != [] {
      var h', g' := Xor(Round(h), Code(s[0])), Xor(Round(g), Code(s[0]));
      SameCode(Round(h), Round(g), Code(s[0]));
      if Round(h) == Round(g) {
        RoundInjective(h, g);
      }
      SameCharacters(h', g', s[1..]);
    }
  }

  lemma SameCode(x: bv32, y: bv32, c: bv32)
    ensures Xor(x, c) == Xor(y, c) <==> x == y
  {
  }

  lemma RoundOfNonZero(x: bv32)
    requires x != 0
    ensures Round(x) != 0
  {
    RoundOfShifted(0);
    if Round(x) == 0 {
      RoundInjective(x, 0);
    }
  }

  /** A character's difference d, k characters later, is what d shifted left by 8 k would have become. */
  lemma Shifted(d: bv32)
    requires d < 0x100
    ensures Round(d << 8) == d && Round(Round(d << 16)) == d && Round(Round(Round(d << 24))) == d
  {
    ShiftsAgain(d);
    RoundOfShifted(d);
    RoundOfShifted(d << 8);
    RoundOfShifted(d << 16);
  }

  lemma ShiftsAgain(d: bv32)
    requires d < 0x100
    ensures (d << 8) << 8 == d << 16 && (d << 16) << 8 == d << 24
    ensures d << 8 < 0x100_0000 && d << 16 < 0x100_0000
  {
  }

  /** Four byte differences in the four lanes of a word, the first not zero. */
  lemma Lanes(d1: bv32, d2: bv32, d3: bv32, d4: bv32)
    requires d1 < 0x100 && d1 != 0
    ensures Xor(d1, d2 << 8) != 0
    ensures Xor(Xor(d1, d2 << 8), d3 << 16) != 0
    ensures Xor(Xor(Xor(d1, d2 << 8), d3 << 16), d4 << 24) != 0
  {
  }

  /** The difference that two hashes have n characters after their first difference d1, n at most 4. */
  lemma FourSteps(d1: bv32, d2: bv32, d3: bv32, d4: bv32)
    requires d1 < 0x100 && d2 < 0x100 && d3 < 0x100 && d4 < 0x100 && d1 != 0
    ensures var e2 := Xor(Round(d1), d2);
      var e3 := Xor(Round(e2), d3);
      e2 != 0 && e3 != 0 && Xor(Round(e3), d4) != 0
  {
    Shifted(d2);
    Shifted(d3);
    Shifted(d4);
    Lanes(d1, d2, d3, d4);
    var w2 := Xor(d1, d2 << 8);
    var w3 := Xor(w2, d3 << 16);
    var w4 := Xor(w3, d4 << 24);
    RoundXor(d1, d2 << 8);
    assert Xor(Round(d1), d2) == Round(w2);
    RoundTwice(w2, d3 << 16);
    assert Xor(Round(Round(w2)), d3) == Round(Round(w3));
    RoundTwice(w3, d4 << 24);
    RoundXor(Round(Round(w3)), Round(Round(d4 << 24)));
    assert Xor(Round(Round(Round(w3))), d4) == Round(Round(Round(w4)));
    RoundOfNonZero(w2);
    RoundOfNonZero(w3);
    RoundOfNonZero(Round(w3));
    RoundOfNonZero(w4);
    RoundOfNonZero(Round(w4));
    RoundOfNonZero(Round(Round(w4)));
  }

  lemma RoundTwice(x: bv32, y: bv32)
    ensures Round(Round(Xor(x, y))) == Xor(Round(Round(x)), Round(Round(y)))
  {
    RoundXor(x, y);
    RoundXor(Round(x), Round(y));
  }

  lemma CodeDifference(c: bv8, d: bv8)
    ensures Xor(Code(c), Code(d)) < 0x100
    ensures Xor(Code(c), Code(d)) == 0 <==> c == d
  {
  }

  /** The hash one character on. */
  function After(h: bv32, c: bv8): bv32 {
    Xor(Round(h), Code(c))
  }

  /** One more character of each name: the hashes and their difference. */
  lemma Advance(h: bv32, g: bv32, s: Name, t: Name) returns (d: bv32)
    requires |s| == |t| > 0
    ensures d < 0x100 && (d == 0 <==> s[0] == t[0])
    ensures HashFrom(h, s) == HashFrom(After(h, s[0]), s[1..])
    ensures HashFrom(g, t) == HashFrom(After(g, t[0]), t[1..])
    ensures Xor(After(h, s[0]), After(g, t[0])) == Xor(Round(Xor(h, g)), d)
  {
    d := Xor(Code(s[0]), Code(t[0]));
    CodeDifference(s[0], t[0]);
    DifferenceStep(h, g, s[0], t[0]);
  }

  predicate IsByte(d: bv32) {
    d < 0x100
  }

  lemma TwoSteps(d1: bv32, d2: bv32)
    requires IsByte(d1) && IsByte(d2) && d1 != 0
    ensures Xor(Round(d1), d2) != 0
  {
    FourSteps(d1, d2, 0, 0);
  }

  lemma ThreeSteps(d1: bv32, d2: bv32, d3: bv32)
    requires IsByte(d1) && IsByte(d2) && IsByte(d3) && d1 != 0
    ensures Xor(Round(Xor(Round(d1), d2)), d3) != 0
  {
    FourSteps(d1, d2, d3, 0);
  }

  /** What is left of the names after the third character of the window; e is the difference by then. */
  lemma FourthOfWindow(h: bv32, g: bv32, d1: bv32, d2: bv32, d3: bv32, s: Name, t: Name)
    requires IsByte(d1) && IsByte(d2) && IsByte(d3) && d1 != 0 && |s| == |t|
    requires Xor(h, g) == Xor(Round(Xor(Round(d1), d2)), d3)
    requires forall i :: 1 <= i < |s| ==> s[i] == t[i]
    ensures HashFrom(h, s) != HashFrom(g, t)
  {
    ThreeSteps(d1, d2, d3);
    NonZeroDifference(h, g);
    if |s| > 0 {
      var d4 := Advance(h, g, s, t);
      FourSteps(d1, d2, d3, d4);
      NonZeroDifference(After(h, s[0]), After(g, t[0]));
      assert s[1..] == t[1..];
      SameCharacters(After(h, s[0]), After(g, t[0]), s[1..]);
    }
  }

  lemma ThirdOfWindow(h: bv32, g: bv32, d1: bv32, d2: bv32, s: Name, t: Name)
    requires IsByte(d1) && IsByte(d2) && d1 != 0 && |s| == |t|
    requires Xor(h, g) == Xor(Round(d1), d2)
    requires forall i :: 2 <= i < |s| ==> s[i] == t[i]
    ensures HashFrom(h, s) != HashFrom(g, t)
  {
    TwoSteps(d1, d2);
    NonZeroDifference(h, g);
    if |s| > 0 {
      var d3 := Advance(h, g, s, t);
      FourthOfWindow(After(h, s[0]), After(g, t[0]), d1, d2, d3, s[1..], t[1..]);
    }
  }

  lemma SecondOfWindow(h: bv32, g: bv32, d1: bv32, s: Name, t: Name)
    requires IsByte(d1) && d1 != 0 && |s| == |t|
    requires Xor(h, g) == d1
    requires forall i :: 3 <= i < |s| ==> s[i] == t[i]
    ensures HashFrom(h, s) != HashFrom(g, t)
  {
    NonZeroDifference(h, g);
    if |s| > 0 {
      var d2 := Advance(h, g, s, t);
      ThirdOfWindow(After(h, s[0]), After(g, t[0]), d1, d2, s[1..], t[1..]);
    }
  }

  lemma RoundOfZero(h: bv32, d: bv32)
    ensures Xor(Round(Xor(h, h)), d) == d
  {
    NonZeroDifference(h, h);
    RoundOfShifted(0);
  }

  /** Names that begin with a different character and agree from the fifth on, from one hash. */
  lemma WindowAtStart(h: bv32, s: Name, t: Name)
    requires |s| == |t| > 0 && s[0] != t[0]
    requires forall i :: 4 <= i < |s| ==> s[i] == t[i]
    ensures HashFrom(h, s) != HashFrom(h, t)
  {
    var d1 := Advance(h, h, s, t);
    RoundOfZero(h, d1);
    SecondOfWindow(After(h, s[0]), After(h, t[0]), d1, s[1..], t[1..]);
  }

  lemma {:induction false} WindowFrom(h: bv32, s: Name, t: Name, k: nat)
    requires |s| == |t| && s != t
    requires forall i :: 0 <= i < |s| && (i < k || i >= k + 4) ==> s[i] == t[i]
    ensures HashFrom(h, s) != HashFrom(h, t)
    decreases |s|
  {
    if s[0] != t[0] {
      assert k == 0;
      WindowAtStart(h, s, t);
    } else {
      assert s == [s[0]] + s[1..] && t == [t[0]] + t[1..];
      WindowFrom(After(h, s[0]), s[1..], t[1..], if k == 0 then 0 else k - 1);
    }
  }

  /** THEOREM. Two different names of equal length that differ only inside one window of four
    * consecutive characters never have the same hash, for names of any length. */
  lemma WindowNeverCollides(s: Name, t: Name, k: nat)
    requires |s| == |t| && s != t
    requires forall i :: 0 <= i < |s| && (i < k || i >= k + 4) ==> s[i] == t[i]
    ensures Hash(s) != Hash(t)
  {
    WindowFrom(Start(|s|), s, t, k);
  }

  /** "D500A" and "Xzl1U" */
  const COLLIDING_A: Name := [0x44, 0x35, 0x30, 0x30, 0x41]
  const COLLIDING_B: Name := [0x58, 0x7a, 0x6c, 0x31, 0x55]

  lemma RoundsOfA()
    ensures After(5, 0x44) == 0x706a_f4cb && After(0x706a_f4cb, 0x35) == 0x0cc6_71f9
    ensures After(0x0cc6_71f9, 0x30) == 0xc46d_8cf9 && After(0xc46d_8cf9, 0x30) == 0xc4a5_2704
    ensures After(0xc4a5_2704, 0x41) == 0x07a9_617f
  {
  }

  lemma RoundsOfB()
    ensures After(5, 0x58) == 0x706a_f4d7 && After(0x706a_f4d7, 0x7a) == 0x18c7_2df9
    ensures After(0x18c7_2df9, 0x6c) == 0xc479_8df9 && After(0xc479_8df9, 0x31) == 0xc4a5_3304
    ensures After(0xc4a5_3304, 0x55) == 0x07a9_617f
  {
  }

  lemma OfFive(h: bv32, s: Name)
    requires |s| == 5
    ensures HashFrom(h, s) == After(After(After(After(After(h, s[0]), s[1]), s[2]), s[3]), s[4])
  {
    var h1 := After(h, s[0]);
    var h2 := After(h1, s[1]);
    var h3 := After(h2, s[2]);
    assert HashFrom(h, s) == HashFrom(h1, s[1..]) == HashFrom(h2, s[2..]) == HashFrom(h3, s[3..]);
    var h4 := After(h3, s[3]);
    assert HashFrom(h3, s[3..]) == HashFrom(h4, s[4..]) == HashFrom(After(h4, s[4]), s[5..]);
  }

  lemma StartsAtFive()
    ensures Start(5) == 5
  {
    assert 5 % 0x1_0000_0000 == 5;
    assert 5 as bv32 == 5;
  }

  lemma StartOfFive(s: Name) returns (h: bv32)
    requires |s| == 5
    ensures Hash(s) == HashFrom(h, s) && h == 5
  {
    h := Start(|s|);
    StartsAtFive();
  }

  lemma HashOfA() returns (s: Name)
    ensures s == COLLIDING_A && |s| == 5 && s[0] == 0x44 && Hash(s) == 0x07a9_617f
  {
    s := COLLIDING_A;
    var h := StartOfFive(s);
    OfFive(h, s);
    RoundsOfA();
  }

  lemma HashOfB() returns (s: Name)
    ensures s == COLLIDING_B && |s| == 5 && s[0] == 0x58 && Hash(s) == 0x07a9_617f
  {
    s := COLLIDING_B;
    var h := StartOfFive(s);
    OfFive(h, s);
    RoundsOfB();
  }

  /** Four is the limit: two names of five letters and digits with the same hash. */
  lemma WindowOfFiveCollides() returns (s: Name, t: Name)
    ensures s == COLLIDING_A && t == COLLIDING_B && |s| == |t| == 5 && s != t && Hash(s) == Hash(t)
  {
    s := HashOfA();
    t := HashOfB();
  }
}
