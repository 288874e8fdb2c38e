/**
 * The dora indicator (jongpy/core/shan.py, `Shan.zhenbaopai`): the tile
 * after the indicator is dora.  Numerals go round 1..9, winds round
 * east..north and dragons round white..red; a red five counts as a five.
 */
module Shan {
  import opened Wrappers
  import opened Exceptions
  import opened Notation

  /** The rank that follows rank n of suit c. */
  function NextRank(c: char, n: int): int
  {
    if c == 'z' then (if n < 5 then n % 4 + 1 else (n - 4) % 3 + 5) else n % 9 + 1
  }

  /** The ranks of the cycle rank n of suit c belongs to. */
  predicate SameGroup(c: char, n: int, k: int)
  {
    if c != 'z' then 1 <= k <= 9
    else if n <= 4 then 1 <= k <= 4
    else 5 <= k <= 7
  }

  /** `zhenbaopai(p)`: the dora named by indicator p, or an error for text that is not a tile. */
  function Zhenbaopai(p: string): (r: Result<string>)
    ensures r.Failure? <==> !ValidPai(p)
    ensures r.Failure? ==> r.error == PaiFormat
    ensures r.Success? ==>
      |r.value| == 2 && ValidPai(r.value) && r.value[0] == p[0]
      && IsDigit(r.value[1]) && DigitValue(r.value[1]) == NextRank(p[0], Rank(p))
      && SameGroup(p[0], Rank(p), DigitValue(r.value[1]))
  {
    if !ValidPai(p) then Failure(PaiFormat)
    else
      var n := Rank(p);
      Success([p[0], DigitChar(NextRank(p[0], n))])
  }

  /** Within a group the successor map is onto the group and one-to-one. */
  lemma NextRankBijective(c: char, n: int, k: int)
    requires 1 <= n <= (if c == 'z' then 7 else 9) && 1 <= k <= (if c == 'z' then 7 else 9)
    ensures SameGroup(c, n, NextRank(c, n))
    ensures SameGroup(c, n, k) && NextRank(c, n) == NextRank(c, k) ==> n == k
    ensures SameGroup(c, n, k) ==> exists j :: SameGroup(c, n, j) && 1 <= j <= (if c == 'z' then 7 else 9) && NextRank(c, j) == k
  {
    if SameGroup(c, n, k) {
      var j := if c != 'z' then (if k == 1 then 9 else k - 1)
               else if k <= 4 then (if k == 1 then 4 else k - 1)
               else (if k == 5 then 7 else k - 1);
      assert NextRank(c, j) == k;
    }
  }

  /** The successor applied i times. */
  function Iterate(c: char, n: int, i: nat): int
  {
    if i == 0 then n else NextRank(c, Iterate(c, n, i - 1))
  }

  /** The three cycle lengths. */
  predicate CycleLength(len: int)
  {
    len == 9 || len == 4 || len == 3
  }

  /** Remainders of a cycle length, case by case so that each modulus is a constant. */
  lemma ModCycle(x: int, len: int)
    requires CycleLength(len) && 0 <= x
    ensures (x + 1) % len == if x % len + 1 == len then 0 else x % len + 1
    ensures x < 2 * len ==> x % len == if x < len then x else x - len
  {
    if len == 9 {
      ModConst9(x);
    } else if len == 4 {
      ModConst4(x);
    } else {
      ModConst3(x);
    }
  }

  lemma ModConst9(x: int)
    requires 0 <= x
    ensures (x + 1) % 9 == if x % 9 + 1 == 9 then 0 else x % 9 + 1
    ensures x < 18 ==> x % 9 == if x < 9 then x else x - 9
  {
    assert x == 9 * (x / 9) + x % 9;
  }

  lemma ModConst4(x: int)
    requires 0 <= x
    ensures (x + 1) % 4 == if x % 4 + 1 == 4 then 0 else x % 4 + 1
    ensures x < 8 ==> x % 4 == if x < 4 then x else x - 4
  {
    assert x == 4 * (x / 4) + x % 4;
  }

  lemma ModConst3(x: int)
    requires 0 <= x
    ensures (x + 1) % 3 == if x % 3 + 1 == 3 then 0 else x % 3 + 1
    ensures x < 6 ==> x % 3 == if x < 3 then x else x - 3
  {
    assert x == 3 * (x / 3) + x % 3;
  }

  /** One step of the successor moves a rank one place round its cycle. */
  lemma NextInCycle(c: char, k: int, base: int, len: int)
    requires (c != 'z' && base == 1 && len == 9) || (c == 'z' && base == 1 && len == 4) || (c == 'z' && base == 5 && len == 3)
    requires 0 <= k < len
    ensures NextRank(c, base + k) == base + (if k + 1 == len then 0 else k + 1)
  {
    if len == 9 {
    } else if len == 4 {
    } else {
    }
  }

  /** After i steps in a cycle of length len starting at base, rank n has moved i places round it. */
  lemma {:induction false} Orbit(c: char, n: int, i: nat, base: int, len: int)
    requires (c != 'z' && base == 1 && len == 9) || (c == 'z' && base == 1 && len == 4) || (c == 'z' && base == 5 && len == 3)
    requires base <= n < base + len
    ensures Iterate(c, n, i) == base + (n - base + i) % len
  {
    if i > 0 {
      Orbit(c, n, i - 1, base, len);
      ModCycle(n - base + i - 1, len);
      NextInCycle(c, (n - base + i - 1) % len, base, len);
    }
  }

  /** Numerals come back after nine steps, winds after four, dragons after three, and not sooner. */
  lemma Cycles(c: char, n: int)
    requires 1 <= n <= (if c == 'z' then 7 else 9)
    ensures c != 'z' ==> Iterate(c, n, 9) == n && forall i :: 0 < i < 9 ==> Iterate(c, n, i) != n
    ensures c == 'z' && n <= 4 ==> Iterate(c, n, 4) == n && forall i :: 0 < i < 4 ==> Iterate(c, n, i) != n
    ensures c == 'z' && n >= 5 ==> Iterate(c, n, 3) == n && forall i :: 0 < i < 3 ==> Iterate(c, n, i) != n
  {
    var base, len := if c == 'z' && n >= 5 then 5 else 1, if c != 'z' then 9 else if n <= 4 then 4 else 3;
    Orbit(c, n, len, base, len);
    ModCycle(n - base + len, len);
    forall i | 0 < i < len
      ensures Iterate(c, n, i) != n
    {
      Orbit(c, n, i, base, len);
      ModCycle(n - base + i, len);
    }
  }

  /** The cases of the indicator tests, a red five among them. */
  lemma ZhenbaopaiExamples()
    ensures Zhenbaopai("m1") == Success("m2") && Zhenbaopai("m9") == Success("m1") && Zhenbaopai("m0") == Success("m6")
    ensures Zhenbaopai("p9") == Success("p1") && Zhenbaopai("s0") == Success("s6")
    ensures Zhenbaopai("z1") == Success("z2") && Zhenbaopai("z4") == Success("z1")
    ensures Zhenbaopai("z5") == Success("z6") && Zhenbaopai("z7") == Success("z5")
    ensures Zhenbaopai("z0") == Failure(PaiFormat)
  {
    assert ValidPai("m1") && ValidPai("m9") && ValidPai("m0") && ValidPai("p9") && ValidPai("s0");
    assert ValidPai("z1") && ValidPai("z4") && ValidPai("z5") && ValidPai("z7");
    assert "m2" == ['m', DigitChar(2)];
  }
}
