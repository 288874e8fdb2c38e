/**
 * Tile and meld notation (jongpy/core/shoupai.py, `valid_pai` and
 * `valid_mianzi`).
 *
 * A tile is written as a suit letter (m, p, s for the numeral suits, z for
 * honours) followed by a rank digit; 0 is a red five.  Optional marks follow:
 * `_` (the tile just drawn), `*` (riichi declared with it) and one of the
 * directions `+`, `=`, `-` (the seat the tile was claimed from).  A meld is a
 * suit letter followed by its digits, where a direction marks the claimed
 * tile.  The regular expressions of the source are written out as predicates
 * over characters.
 */
module Notation {
  import opened Wrappers

  predicate IsDigit(c: char) { '0' <= c <= '9' }

  function DigitValue(c: char): (n: int)
    requires IsDigit(c)
    ensures 0 <= n <= 9
  {
    c as int - '0' as int
  }

  function DigitChar(n: int): (c: char)
    requires 0 <= n <= 9
    ensures IsDigit(c) && DigitValue(c) == n
  {
    (n + '0' as int) as char
  }

  predicate IsSuit(c: char) { c == 'm' || c == 'p' || c == 's' || c == 'z' }

  predicate IsNumeralSuit(c: char) { c == 'm' || c == 'p' || c == 's' }

  predicate IsDirection(c: char) { c == '+' || c == '=' || c == '-' }

  /** `(?:[mps]\d|z[1-7])_?\*?[\+\=\-]?` matched against the whole text. */
  predicate ValidPai(p: string)
  {
    |p| >= 2
    && ((IsNumeralSuit(p[0]) && IsDigit(p[1])) || (p[0] == 'z' && '1' <= p[1] <= '7'))
    && PaiMarks(p[2..])
  }

  /** `_?\*?[\+\=\-]?` matched against the whole text. */
  predicate PaiMarks(t: string)
  {
    var t1 := if |t| > 0 && t[0] == '_' then t[1..] else t;
    var t2 := if |t1| > 0 && t1[0] == '*' then t1[1..] else t1;
    |t2| == 0 || (|t2| == 1 && IsDirection(t2[0]))
  }

  /** `int(p[1]) or 5`: the rank of a tile, a red five read as a five. */
  function Rank(p: string): (n: int)
    requires |p| >= 2 && IsDigit(p[1])
    ensures 1 <= n <= 9
  {
    if p[1] == '0' then 5 else DigitValue(p[1])
  }

  /** `re.search(r'[\+\=\-]$', p)` on a tile: the direction it was claimed from. */
  function Direction(p: string): Option<char>
  {
    if |p| > 0 && IsDirection(p[|p| - 1]) then Some(p[|p| - 1]) else None
  }

  /** A well-formed tile is a suit, a digit, and at most three marks, in that order. */
  lemma ValidPaiShape(p: string)
    requires ValidPai(p)
    ensures 2 <= |p| <= 5
    ensures IsSuit(p[0]) && IsDigit(p[1])
    ensures p[0] == 'z' ==> 1 <= DigitValue(p[1]) <= 7
    ensures forall i :: 2 <= i < |p| ==> !IsDigit(p[i]) && !IsSuit(p[i])
    ensures forall i :: 2 <= i < |p| - 1 ==> !IsDirection(p[i])
  {
  }

  /** The cases of `test_valid_pai`. */
  lemma ValidPaiExamples()
    ensures ValidPai("m1") && ValidPai("p0-")
    ensures !ValidPai("z") && !ValidPai("_")
  {
  }

  // ---------------------------------------------------------------------
  // Text helpers standing for the string and `re` calls of valid_mianzi

  /** `t.replace(a, b)` for single characters. */
  function Replace(t: string, a: char, b: char): (r: string)
    ensures |r| == |t|
    ensures forall i :: 0 <= i < |t| ==> r[i] == (if t[i] == a then b else t[i])
  {
    seq(|t|, i requires 0 <= i < |t| => if t[i] == a then b else t[i])
  }

  /** `re.match(r'z.*[089]', m)`: an honour meld naming rank 0, 8 or 9 before any line break. */
  predicate HonourWithBadRank(m: string)
  {
    |m| > 0 && m[0] == 'z' && BadRankOnLine(m[1..])
  }

  predicate BadRankOnLine(t: string)
  {
    |t| > 0 && t[0] != '\n' && (t[0] == '0' || t[0] == '8' || t[0] == '9' || BadRankOnLine(t[1..]))
  }

  /** `[mpsz](\d)\1\1[\+\=\-]\1?` matched against the whole text: a pung, or a pung with an added fourth tile. */
  predicate PungText(h: string)
  {
    (|h| == 5 || |h| == 6) && IsSuit(h[0]) && IsDigit(h[1]) && h[2] == h[1] && h[3] == h[1]
    && IsDirection(h[4]) && (|h| == 6 ==> h[5] == h[1])
  }

  /** `[mpsz](\d)\1\1\1[\+\=\-]?` matched against the whole text: a concealed or a claimed quad. */
  predicate QuadText(h: string)
  {
    (|h| == 5 || |h| == 6) && IsSuit(h[0]) && IsDigit(h[1]) && h[2] == h[1] && h[3] == h[1]
    && h[4] == h[1] && (|h| == 6 ==> IsDirection(h[5]))
  }

  /** `[mps]\d+\-\d*` matched against the whole text: a chow candidate. */
  predicate ChiText(h: string)
  {
    |h| >= 3 && IsNumeralSuit(h[0]) && IsDigit(h[1]) && DashBetweenDigits(h[2..])
  }

  /** `\d*\-\d*` matched against the whole text. */
  predicate DashBetweenDigits(t: string)
  {
    |t| > 0 && (if t[0] == '-' then AllDigits(t[1..]) else IsDigit(t[0]) && DashBetweenDigits(t[1..]))
  }

  predicate AllDigits(t: string)
  {
    forall i :: 0 <= i < |t| ==> IsDigit(t[i])
  }

  /** `re.sub(r'([mps])05', r'\1' + '50', t)`: a red five written before a plain five moves behind it. */
  function SubRedFive(t: string): (r: string)
    ensures |r| == |t|
  {
    if |t| >= 3 && IsNumeralSuit(t[0]) && t[1] == '0' && t[2] == '5' then [t[0], '5', '0'] + SubRedFive(t[3..])
    else if |t| == 0 then ""
    else [t[0]] + SubRedFive(t[1..])
  }

  /** The substitution only reorders characters. */
  lemma {:induction false} SubRedFivePermutes(t: string)
    ensures multiset(SubRedFive(t)) == multiset(t)
  {
    if |t| >= 3 && IsNumeralSuit(t[0]) && t[1] == '0' && t[2] == '5' {
      SubRedFivePermutes(t[3..]);
      SwappedPermutes(t, SubRedFive(t[3..]));
    } else if |t| > 0 {
      SubRedFivePermutes(t[1..]);
      KeptPermutes(t, SubRedFive(t[1..]));
    }
  }

  lemma SwappedPermutes(t: string, rest: string)
    requires |t| >= 3 && t[1] == '0' && t[2] == '5' && multiset(rest) == multiset(t[3..])
    ensures multiset([t[0], '5', '0'] + rest) == multiset(t)
  {
    assert t == [t[0], '0', '5'] + t[3..];
  }

  lemma KeptPermutes(t: string, rest: string)
    requires |t| > 0 && multiset(rest) == multiset(t[1..])
    ensures multiset([t[0]] + rest) == multiset(t)
  {
    assert t == [t[0]] + t[1..];
  }

  /** `re.findall(r'\d(?![\+\=\-])', t)`: the digits not followed by a direction, from position i on. */
  function FreeDigits(t: string, i: nat): seq<char>
    requires i <= |t|
    decreases |t| - i
  {
    if i == |t| then []
    else (if IsDigit(t[i]) && !(i + 1 < |t| && IsDirection(t[i + 1])) then [t[i]] else []) + FreeDigits(t, i + 1)
  }

  /** `re.search(r'\d[\+\=\-]$', t)`: the claimed digit and its direction ending the text, or nothing. */
  function CalledTail(t: string): string
  {
    if |t| >= 2 && IsDigit(t[|t| - 2]) && IsDirection(t[|t| - 1]) then t[|t| - 2..] else ""
  }

  /** `re.search(r'\d(?=[\+\=\-])', m)`: the first digit followed by a direction. */
  function ClaimedDigit(m: string): (r: Option<char>)
    ensures r.Some? ==> IsDigit(r.value) && exists i :: 0 <= i < |m| - 1 && m[i] == r.value && IsDirection(m[i + 1])
    ensures r.None? ==> forall i :: 0 <= i < |m| - 1 ==> !(IsDigit(m[i]) && IsDirection(m[i + 1]))
  {
    if |m| < 2 then None
    else if IsDigit(m[0]) && IsDirection(m[1]) then Some(m[0])
    else
      var r := ClaimedDigit(m[1..]);
      assert forall i :: 1 <= i < |m| - 1 ==> m[i] == m[1..][i - 1] && m[i + 1] == m[1..][i];
      r
  }

  /** `re.findall(r'\d', t)`. */
  function DigitsOf(t: string): (r: seq<char>)
    ensures forall i :: 0 <= i < |r| ==> IsDigit(r[i])
    ensures |r| <= |t|
  {
    if |t| == 0 then [] else (if IsDigit(t[0]) then [t[0]] else []) + DigitsOf(t[1..])
  }

  /** `re.findall(r'\d[\+\=\-]?', t)`: each digit with the direction that follows it, if any. */
  function Tokens(t: string): seq<string>
  {
    if |t| == 0 then []
    else if IsDigit(t[0]) then
      if |t| > 1 && IsDirection(t[1]) then [t[..2]] + Tokens(t[2..]) else [t[..1]] + Tokens(t[1..])
    else Tokens(t[1..])
  }

  /** `x * cnt` for a one-character string x (Python gives '' for cnt <= 0). */
  function Repeat(x: char, cnt: nat): (r: string)
    ensures |r| == cnt && forall i :: 0 <= i < cnt ==> r[i] == x
  {
    if cnt == 0 then [] else Repeat(x, cnt - 1) + [x]
  }

  /** `''.join(ts)`. */
  function Concat(ts: seq<string>): string
  {
    if |ts| == 0 then "" else ts[0] + Concat(ts[1..])
  }

  // ---------------------------------------------------------------------
  // Sorting (`sorted`): insertion sort under a total order

  /** Python's order on strings: lexicographic by code point. */
  predicate StrBelow(a: string, b: string)
  {
    |a| == 0 || (|b| > 0 && (a[0] < b[0] || (a[0] == b[0] && StrBelow(a[1..], b[1..]))))
  }

  predicate CharBelow(a: char, b: char) { a <= b }

  predicate CharAbove(a: char, b: char) { a >= b }

  function Insert<T>(x: T, t: seq<T>, below: (T, T) -> bool): (r: seq<T>)
    ensures multiset(r) == multiset(t) + multiset{x} && |r| == |t| + 1
  {
    if |t| == 0 || below(x, t[0]) then [x] + t
    else
      assert t == [t[0]] + t[1..];
      [t[0]] + Insert(x, t[1..], below)
  }

  function Sort<T>(t: seq<T>, below: (T, T) -> bool): (r: seq<T>)
    ensures multiset(r) == multiset(t) && |r| == |t|
  {
    if |t| == 0 then []
    else
      assert t == [t[0]] + t[1..];
      Insert(t[0], Sort(t[1..], below), below)
  }

  /** Each neighbouring pair is in order. */
  predicate Ordered<T>(t: seq<T>, below: (T, T) -> bool)
  {
    forall i :: 0 < i < |t| ==> below(t[i - 1], t[i])
  }

  /** The order decides every pair of values, as Python's comparisons do. */
  ghost predicate Total<T(!new)>(below: (T, T) -> bool)
  {
    forall a: T, b: T :: below(a, b) || below(b, a)
  }

  /** Inserting into an ordered list keeps it ordered, and the new head is x or the old one. */
  lemma {:induction false} InsertOrdered<T(!new)>(x: T, t: seq<T>, below: (T, T) -> bool)
    requires Total(below) && Ordered(t, below)
    ensures var r := Insert(x, t, below); Ordered(r, below) && (r[0] == x || r[0] == t[0])
  {
    if |t| > 0 && !below(x, t[0]) {
      assert below(t[0], x);
      InsertOrdered(x, t[1..], below);
      var r' := Insert(x, t[1..], below);
      assert Insert(x, t, below) == [t[0]] + r';
    }
  }

  /** `sorted` returns its input in order. */
  lemma {:induction false} SortOrdered<T(!new)>(t: seq<T>, below: (T, T) -> bool)
    requires Total(below)
    ensures Ordered(Sort(t, below), below)
  {
    if |t| > 0 {
      SortOrdered(t[1..], below);
      InsertOrdered(t[0], Sort(t[1..], below), below);
    }
  }

  /** Sorting a list already in order gives it back unchanged. */
  lemma {:induction false} SortKeepsOrdered<T>(t: seq<T>, below: (T, T) -> bool)
    requires Ordered(t, below)
    ensures Sort(t, below) == t
  {
    if |t| > 0 {
      SortKeepsOrdered(t[1..], below);
      assert t == [t[0]] + t[1..];
    }
  }

  lemma {:induction false} StrBelowTotal(a: string, b: string)
    ensures StrBelow(a, b) || StrBelow(b, a)
  {
    if |a| > 0 && |b| > 0 && a[0] == b[0] {
      StrBelowTotal(a[1..], b[1..]);
    }
  }

  /** The three orders `valid_mianzi` sorts by decide every pair. */
  lemma OrdersTotal()
    ensures Total(CharBelow) && Total(CharAbove) && Total(StrBelow)
  {
    forall a: string, b: string
      ensures StrBelow(a, b) || StrBelow(b, a)
    {
      StrBelowTotal(a, b);
    }
  }

  // ---------------------------------------------------------------------
  // valid_mianzi

  /**
   * `valid_mianzi`: the normal form of a meld text, or None.  Pungs move a
   * leading red five behind a plain one, quads put the unclaimed digits in
   * descending order (red fives last) ahead of the claimed digit, and chows
   * are reordered by rank with the red five restored.
   */
  function ValidMianzi(m: string): (r: Option<string>)
    ensures r.Some? ==> |m| >= 3 && IsSuit(m[0]) && |r.value| > 0
  {
    if HonourWithBadRank(m) then None
    else
      var h := Replace(m, '0', '5');
      if PungText(h) then Some(SubRedFive(m))
      else if QuadText(h) then Some([m[0]] + Sort(FreeDigits(m, 0), CharAbove) + CalledTail(m))
      else if ChiText(h) then
        var nn := Sort(DigitsOf(h), CharBelow);
        if !Consecutive(nn) then None
        else
          var hs := [h[0]] + Concat(Sort(Tokens(h), StrBelow));
          Some(if '0' in m then Replace(hs, '5', '0') else hs)
      else None
  }

  /** Three digits in a row: `len(nn) == 3` and each is one more than the previous. */
  predicate Consecutive(nn: seq<char>)
  {
    |nn| == 3 && IsDigit(nn[0]) && IsDigit(nn[1]) && IsDigit(nn[2])
    && DigitValue(nn[0]) + 1 == DigitValue(nn[1]) && DigitValue(nn[1]) + 1 == DigitValue(nn[2])
  }

  /** How often d occurs in t (`len(re.findall(d, t))` for a single character d). */
  function Occurrences(t: string, d: char): nat
  {
    if |t| == 0 then 0 else Occurrences(t[..|t| - 1], d) + (if t[|t| - 1] == d then 1 else 0)
  }

  /** The count is the multiplicity of d in the multiset of t's characters. */
  lemma {:induction false} OccurrencesMultiset(t: string, d: char)
    ensures Occurrences(t, d) == multiset(t)[d]
  {
    if |t| > 0 {
      assert t == t[..|t| - 1] + [t[|t| - 1]];
      OccurrencesMultiset(t[..|t| - 1], d);
    }
  }

  // ---------------------------------------------------------------------
  // valid_mianzi returns a meld in its normal form

  /**
   * What `valid_mianzi` returns is a normal form: checked again, an
   * accepted meld comes back unchanged.
   */
  lemma ValidMianziNormal(m: string)
    requires ValidMianzi(m).Some?
    ensures ValidMianzi(ValidMianzi(m).value) == ValidMianzi(m)
  {
    var h := Replace(m, '0', '5');
    if PungText(h) {
      PungNormal(m);
    } else if QuadText(h) {
      QuadNormal(m);
    } else {
      ChowNormal(m);
    }
  }

  /** A character that `re.match(r'z.*[089]', m)` looks for. */
  predicate BadRank(c: char) { c == '0' || c == '8' || c == '9' }

  /** On one line, a bad rank is found exactly when the text holds one. */
  lemma {:induction false} NoBadRank(t: string, i: nat)
    requires i < |t| && !BadRankOnLine(t)
    requires forall j :: 0 <= j < |t| ==> t[j] != '\n'
    ensures !BadRank(t[i])
    decreases i
  {
    if i > 0 {
      NoBadRank(t[1..], i - 1);
    }
  }

  lemma {:induction false} BadRankFound(t: string)
    requires BadRankOnLine(t)
    ensures exists i :: 0 <= i < |t| && BadRank(t[i])
  {
    if !BadRank(t[0]) {
      BadRankFound(t[1..]);
      var i :| 0 <= i < |t[1..]| && BadRank(t[1..][i]);
      assert BadRank(t[i + 1]);
    }
  }

  /** A meld whose characters after the suit letter are those of m, in another order, passes the honour test as m does. */
  lemma HonourTestKept(m: string, r: string)
    requires |m| > 0 && |r| > 0 && r[0] == m[0] && multiset(r[1..]) == multiset(m[1..])
    requires forall j :: 1 <= j < |m| ==> m[j] != '\n'
    requires !HonourWithBadRank(m)
    ensures !HonourWithBadRank(r)
  {
    if m[0] == 'z' && BadRankOnLine(r[1..]) {
      BadRankFound(r[1..]);
      var i :| 0 <= i < |r[1..]| && BadRank(r[1..][i]);
      assert r[1..][i] in multiset(m[1..]);
      var j :| 0 <= j < |m[1..]| && m[1..][j] == r[1..][i];
      NoBadRank(m[1..], j);
    }
  }

  // Pungs

  /** With no numeral suit letter in t, the red-five substitution changes nothing. */
  lemma {:induction false} SubRedFiveKeeps(t: string)
    requires forall i :: 0 <= i < |t| ==> !IsNumeralSuit(t[i])
    ensures SubRedFive(t) == t
  {
    if |t| > 0 {
      SubRedFiveKeeps(t[1..]);
      assert t == [t[0]] + t[1..];
    }
  }

  lemma PungNormal(m: string)
    requires !HonourWithBadRank(m) && PungText(Replace(m, '0', '5'))
    ensures ValidMianzi(SubRedFive(m)) == Some(SubRedFive(m))
  {
    var r := SubRedFive(m);
    PungRebuilt(m);
    HonourTestKept(m, r);
  }

  /** Past its first character, the substitution only acts on a red five right after the letter. */
  lemma SubRedFiveFront(t: string)
    requires |t| >= 3 && IsNumeralSuit(t[0]) && t[1] == '0' && t[2] == '5'
    requires forall i :: 3 <= i < |t| ==> !IsNumeralSuit(t[i])
    ensures SubRedFive(t) == [t[0], '5', '0'] + t[3..]
  {
    assert forall i :: 0 <= i < |t[3..]| ==> !IsNumeralSuit(t[3..][i]);
    SubRedFiveKeeps(t[3..]);
  }

  /** Without a red five right after the letter, and no later letter, the substitution changes nothing. */
  lemma SubRedFiveNone(t: string)
    requires |t| > 0 && !(|t| >= 3 && IsNumeralSuit(t[0]) && t[1] == '0' && t[2] == '5')
    requires forall i :: 1 <= i < |t| ==> !IsNumeralSuit(t[i])
    ensures SubRedFive(t) == t
  {
    assert forall i :: 0 <= i < |t[1..]| ==> !IsNumeralSuit(t[1..][i]);
    SubRedFiveKeeps(t[1..]);
    assert t == [t[0]] + t[1..];
  }

  /** After its letter, a pung text holds only digits and directions. */
  lemma PungChars(m: string)
    requires PungText(Replace(m, '0', '5'))
    ensures forall i :: 1 <= i < |m| ==> IsDigit(m[i]) || IsDirection(m[i])
  {
    var h := Replace(m, '0', '5');
    forall i | 1 <= i < |m|
      ensures IsDigit(m[i]) || IsDirection(m[i])
    {
      assert h[i] == (if m[i] == '0' then '5' else m[i]);
    }
  }

  /** The red-five substitution on a pung keeps its suit letter, its other characters and its reading, and is done once for all. */
  lemma PungRebuilt(m: string)
    requires PungText(Replace(m, '0', '5'))
    ensures var r := SubRedFive(m);
      |r| > 0 && r[0] == m[0] && multiset(r[1..]) == multiset(m[1..])
      && (forall j :: 1 <= j < |m| ==> m[j] != '\n')
      && Replace(r, '0', '5') == Replace(m, '0', '5') && SubRedFive(r) == r
  {
    PungChars(m);
    if |m| >= 3 && IsNumeralSuit(m[0]) && m[1] == '0' && m[2] == '5' {
      SubRedFiveFront(m);
      PungSwapped(m);
      SubRedFiveNone(SubRedFive(m));
    } else {
      SubRedFiveNone(m);
    }
  }

  /** Moving a red five behind the plain five keeps the characters and the reading, and leaves nothing more to move. */
  lemma PungSwapped(m: string)
    requires |m| >= 3 && IsNumeralSuit(m[0]) && m[1] == '0' && m[2] == '5'
    requires forall i :: 1 <= i < |m| ==> IsDigit(m[i]) || IsDirection(m[i])
    ensures var r := [m[0], '5', '0'] + m[3..];
      multiset(r[1..]) == multiset(m[1..]) && Replace(r, '0', '5') == Replace(m, '0', '5')
      && forall i :: 1 <= i < |r| ==> IsDigit(r[i]) || IsDirection(r[i])
  {
    var r := [m[0], '5', '0'] + m[3..];
    assert r[1..] == ['5', '0'] + m[3..];
    assert m[1..] == ['0', '5'] + m[3..];
  }

  // Quads

  /** The text of a quad: a letter, four digits, and a direction after a claimed fourth tile. */
  predicate QuadShape(t: string)
  {
    (|t| == 5 || |t| == 6) && !IsDigit(t[0]) && (forall i :: 1 <= i < 5 ==> IsDigit(t[i]))
    && (|t| == 6 ==> IsDirection(t[5]))
  }

  /** The free digits of a quad are the first three or all four, and the claimed digit with its direction ends it. */
  lemma QuadParts(t: string)
    requires QuadShape(t)
    ensures |t| == 5 ==> FreeDigits(t, 0) == t[1..5] && CalledTail(t) == ""
    ensures |t| == 6 ==> FreeDigits(t, 0) == t[1..4] && CalledTail(t) == t[4..]
  {
    assert FreeDigits(t, |t|) == [];
    if |t| == 5 {
      assert FreeDigits(t, 4) == [t[4]];
      assert FreeDigits(t, 3) == t[3..5];
      assert FreeDigits(t, 2) == t[2..5];
      assert FreeDigits(t, 1) == t[1..5];
    } else {
      assert FreeDigits(t, 5) == [];
      assert FreeDigits(t, 4) == [];
      assert FreeDigits(t, 3) == [t[3]];
      assert FreeDigits(t, 2) == t[2..4];
      assert FreeDigits(t, 1) == t[1..4];
    }
  }

  lemma QuadNormal(m: string)
    requires !HonourWithBadRank(m)
    requires var h := Replace(m, '0', '5'); !PungText(h) && QuadText(h)
    ensures var r := [m[0]] + Sort(FreeDigits(m, 0), CharAbove) + CalledTail(m);
      ValidMianzi(r) == Some(r)
  {
    var d := FreeDigits(m, 0);
    var s := Sort(d, CharAbove);
    var r := [m[0]] + s + CalledTail(m);
    OrdersTotal();
    SortOrdered(d, CharAbove);
    QuadDigitsPermuted(m, s);
    QuadSorted(m, s, r);
    SortKeepsOrdered(s, CharAbove);
    QuadCharsPermuted(s, d, CalledTail(m));
    HonourTestKept(m, r);
  }

  /** A quad text: a suit letter, four digits naming one tile, and a direction after a claimed fourth tile. */
  lemma QuadShapeOf(m: string)
    requires QuadText(Replace(m, '0', '5'))
    ensures QuadShape(m) && forall j :: 1 <= j < |m| ==> m[j] != '\n'
    ensures forall i :: 1 <= i < 5 ==> (if m[i] == '0' then '5' else m[i]) == Replace(m, '0', '5')[1]
  {
    var h := Replace(m, '0', '5');
    forall i | 1 <= i < |m|
      ensures IsDigit(m[i]) || IsDirection(m[i])
    {
      assert h[i] == (if m[i] == '0' then '5' else m[i]);
    }
  }

  /** Any reordering of a quad's free digits are digits naming its tile. */
  lemma QuadDigitsPermuted(m: string, s: seq<char>)
    requires QuadText(Replace(m, '0', '5')) && multiset(s) == multiset(FreeDigits(m, 0))
    ensures |s| == |FreeDigits(m, 0)|
    ensures forall i :: 0 <= i < |s| ==> IsDigit(s[i]) && (if s[i] == '0' then '5' else s[i]) == Replace(m, '0', '5')[1]
  {
    QuadShapeOf(m);
    QuadParts(m);
    var d := FreeDigits(m, 0);
    assert |s| == |multiset(s)| == |d|;
    forall i | 0 <= i < |s|
      ensures IsDigit(s[i]) && (if s[i] == '0' then '5' else s[i]) == Replace(m, '0', '5')[1]
    {
      assert s[i] in multiset(d);
      var j :| 0 <= j < |d| && d[j] == s[i];
      assert d[j] == m[j + 1];
    }
  }

  lemma QuadCharsPermuted(s: seq<char>, d: seq<char>, tail: string)
    requires multiset(s) == multiset(d)
    ensures multiset(s + tail) == multiset(d + tail)
  {
  }

  /** The quad with its free digits reordered is again a quad, whose free digits are those. */
  lemma QuadSorted(m: string, s: seq<char>, r: string)
    requires QuadText(Replace(m, '0', '5')) && |s| == |FreeDigits(m, 0)|
    requires forall i :: 0 <= i < |s| ==> IsDigit(s[i]) && (if s[i] == '0' then '5' else s[i]) == Replace(m, '0', '5')[1]
    requires r == [m[0]] + s + CalledTail(m)
    ensures |r| > 0 && r[0] == m[0] && r[1..] == s + CalledTail(m) && m[1..] == FreeDigits(m, 0) + CalledTail(m)
    ensures forall j :: 1 <= j < |m| ==> m[j] != '\n'
    ensures QuadText(Replace(r, '0', '5')) && !PungText(Replace(r, '0', '5'))
    ensures FreeDigits(r, 0) == s && CalledTail(r) == CalledTail(m)
  {
    QuadShapeOf(m);
    QuadParts(m);
    var tail := CalledTail(m);
    assert r[1..] == s + tail && m[1..] == FreeDigits(m, 0) + tail;
    QuadRebuilt(m, r);
    QuadParts(r);
    assert r[1..5] == s || r[1..4] == s;
  }

  /** The quad rebuilt from digits naming m's tile is still a quad text of that tile. */
  lemma QuadRebuilt(m: string, r: string)
    requires QuadShape(m) && |r| == |m| && r[0] == m[0] && QuadText(Replace(m, '0', '5'))
    requires forall i :: 1 <= i < 5 ==> IsDigit(r[i]) && (if r[i] == '0' then '5' else r[i]) == Replace(m, '0', '5')[1]
    requires |m| == 6 ==> r[5] == m[5]
    ensures QuadShape(r)
    ensures var hr := Replace(r, '0', '5'); QuadText(hr) && !PungText(hr)
  {
  }

  // Chows

  /** A token of `re.findall(r'\d[\+\=\-]?', t)`: a digit with at most one direction after it. */
  predicate TokenLike(x: string)
  {
    (|x| == 1 || (|x| == 2 && IsDirection(x[1]))) && IsDigit(x[0])
  }

  lemma {:induction false} TokensShape(t: string)
    ensures forall x :: x in Tokens(t) ==> TokenLike(x)
  {
    if |t| > 0 {
      if IsDigit(t[0]) && |t| > 1 && IsDirection(t[1]) {
        TokensShape(t[2..]);
      } else {
        TokensShape(t[1..]);
      }
    }
  }

  lemma {:induction false} ConcatAppend(a: seq<string>, b: seq<string>)
    ensures Concat(a + b) == Concat(a) + Concat(b)
  {
    if |a| == 0 {
      assert a + b == b;
    } else {
      assert (a + b)[0] == a[0] && (a + b)[1..] == a[1..] + b;
      ConcatAppend(a[1..], b);
    }
  }

  /** Reading the tokens of a concatenation of tokens gives them back. */
  lemma {:induction false} TokensOfConcat(ts: seq<string>)
    requires forall x :: x in ts ==> TokenLike(x)
    ensures Tokens(Concat(ts)) == ts
  {
    if |ts| > 0 {
      var t := Concat(ts);
      var rest := Concat(ts[1..]);
      assert ts[0] in ts;
      assert t == ts[0] + rest;
      TokensOfConcat(ts[1..]);
      if |ts| > 1 {
        assert ts[1] in ts && ts[1..][0] == ts[1];
        assert rest[0] == ts[1][0];
      }
      if |ts[0]| == 2 {
        assert t[..2] == ts[0] && t[2..] == rest;
      } else {
        assert t[..1] == ts[0] && t[1..] == rest;
      }
      assert ts == [ts[0]] + ts[1..];
    }
  }

  /** Every character is a digit, or a direction right after a digit. */
  predicate Tokenised(t: string)
  {
    forall i {:trigger t[i]} :: 0 <= i < |t| ==> IsDigit(t[i]) || (IsDirection(t[i]) && i > 0 && IsDigit(t[i - 1]))
  }

  /** A tokenised text stays tokenised from a digit on. */
  lemma TokenisedRest(t: string, k: int)
    requires Tokenised(t) && 0 < k <= |t| && (k < |t| ==> !IsDirection(t[k]))
    ensures Tokenised(t[k..])
  {
    forall i | 0 <= i < |t[k..]|
      ensures IsDigit(t[k..][i]) || (IsDirection(t[k..][i]) && i > 0 && IsDigit(t[k..][i - 1]))
    {
      assert t[k..][i] == t[k + i];
      if i > 0 {
        assert t[k..][i - 1] == t[k + i - 1];
      }
    }
  }

  /** Joining the tokens of a tokenised text gives the text back. */
  lemma {:induction false} ConcatOfTokens(t: string)
    requires Tokenised(t)
    ensures Concat(Tokens(t)) == t
  {
    if |t| > 0 {
      assert IsDigit(t[0]);
      if |t| > 1 && IsDirection(t[1]) {
        TokenisedRest(t, 2);
        ConcatOfTokens(t[2..]);
        assert Tokens(t) == [t[..2]] + Tokens(t[2..]);
        assert t == t[..2] + t[2..];
      } else {
        TokenisedRest(t, 1);
        ConcatOfTokens(t[1..]);
        assert Tokens(t) == [t[..1]] + Tokens(t[1..]);
        assert t == t[..1] + t[1..];
      }
    }
  }

  /** Taking one copy of the same element from two equal multisets leaves equal multisets. */
  lemma MultisetCancel<T>(x: multiset<T>, y: multiset<T>, e: T)
    requires x + multiset{e} == y + multiset{e}
    ensures x == y
  {
    forall z
      ensures x[z] == y[z]
    {
      assert (x + multiset{e})[z] == (y + multiset{e})[z];
    }
  }

  /** Joining two lists of texts with the same elements gives texts with the same characters. */
  lemma {:induction false} ConcatPermutation(ts: seq<string>, us: seq<string>)
    requires multiset(ts) == multiset(us)
    ensures multiset(Concat(ts)) == multiset(Concat(us))
    decreases |ts|
  {
    if |ts| == 0 {
      assert |us| == 0;
    } else {
      assert ts[0] in multiset(us);
      var j :| 0 <= j < |us| && us[j] == ts[0];
      var us' := us[..j] + us[j + 1..];
      assert us == us[..j] + [us[j]] + us[j + 1..];
      assert ts == [ts[0]] + ts[1..];
      assert multiset(us) == multiset(us[..j]) + multiset{us[j]} + multiset(us[j + 1..]);
      assert multiset(us') == multiset(us[..j]) + multiset(us[j + 1..]);
      assert multiset(us) == multiset(us') + multiset{ts[0]};
      assert multiset(ts) == multiset(ts[1..]) + multiset{ts[0]};
      MultisetCancel(multiset(ts[1..]), multiset(us'), ts[0]);
      ConcatPermutation(ts[1..], us');
      ConcatAppend(us[..j] + [us[j]], us[j + 1..]);
      ConcatAppend(us[..j], [us[j]]);
      ConcatAppend(us[..j], us[j + 1..]);
      assert Concat([us[j]]) == us[j] + Concat([]);
    }
  }

  /** `\d*\-\d*` holds exactly of the texts of digits and one dash. */
  lemma {:induction false} DashBetweenDigitsIff(t: string)
    ensures DashBetweenDigits(t) <==> (forall i :: 0 <= i < |t| ==> IsDigit(t[i]) || t[i] == '-') && multiset(t)['-'] == 1
  {
    if |t| > 0 {
      assert t == [t[0]] + t[1..];
      DashBetweenDigitsIff(t[1..]);
      if t[0] == '-' {
        assert AllDigits(t[1..]) <==> (forall i :: 0 <= i < |t[1..]| ==> IsDigit(t[1..][i]) || t[1..][i] == '-') && multiset(t[1..])['-'] == 0;
      }
    }
  }

  /** In `\d*\-\d*`, a dash that is not first comes right after a digit. */
  lemma {:induction false} DashAfterDigit(t: string)
    requires DashBetweenDigits(t)
    ensures forall i :: 0 < i < |t| && t[i] == '-' ==> IsDigit(t[i - 1])
  {
    if t[0] != '-' {
      DashAfterDigit(t[1..]);
      forall i | 1 < i < |t| && t[i] == '-'
        ensures IsDigit(t[i - 1])
      {
        assert t[1..][i - 1] == t[i];
      }
    }
  }

  /** `re.findall(r'\d', t)` keeps each digit as often as t holds it, and nothing else. */
  lemma {:induction false} DigitsOfCount(t: string, x: char)
    ensures multiset(DigitsOf(t))[x] == if IsDigit(x) then multiset(t)[x] else 0
  {
    if |t| > 0 {
      assert t == [t[0]] + t[1..];
      DigitsOfCount(t[1..], x);
    }
  }

  /** The head of a list in ascending order is at most each element. */
  lemma {:induction false} OrderedHeadLeast(a: seq<char>, i: int)
    requires Ordered(a, CharBelow) && 0 <= i < |a|
    ensures a[0] <= a[i]
  {
    if i > 0 {
      OrderedHeadLeast(a, i - 1);
      assert CharBelow(a[i - 1], a[i]);
    }
  }

  lemma OrderedTail(a: seq<char>)
    requires Ordered(a, CharBelow) && |a| > 0
    ensures Ordered(a[1..], CharBelow)
  {
    forall i | 0 < i < |a[1..]|
      ensures CharBelow(a[1..][i - 1], a[1..][i])
    {
      assert a[1..][i - 1] == a[i] && a[1..][i] == a[i + 1];
    }
  }

  /** Two lists of characters in ascending order with the same elements share their head. */
  lemma OrderedHeads(a: seq<char>, b: seq<char>)
    requires Ordered(a, CharBelow) && Ordered(b, CharBelow) && multiset(a) == multiset(b) && |a| > 0
    ensures |b| > 0 && a[0] == b[0]
  {
    assert a[0] in multiset(b);
    assert |b| > 0;
    assert b[0] in multiset(a);
    var j :| 0 <= j < |b| && b[j] == a[0];
    var i :| 0 <= i < |a| && a[i] == b[0];
    OrderedHeadLeast(b, j);
    OrderedHeadLeast(a, i);
  }

  /** Two lists of characters in ascending order with the same elements are equal. */
  lemma {:induction false} OrderedCharsUnique(a: seq<char>, b: seq<char>)
    requires Ordered(a, CharBelow) && Ordered(b, CharBelow) && multiset(a) == multiset(b)
    ensures a == b
    decreases |a|
  {
    if |a| == 0 {
      assert |b| == 0;
    } else {
      OrderedHeads(a, b);
      assert a == [a[0]] + a[1..] && b == [b[0]] + b[1..];
      assert multiset(a) == multiset(a[1..]) + multiset{a[0]};
      assert multiset(b) == multiset(b[1..]) + multiset{a[0]};
      MultisetCancel(multiset(a[1..]), multiset(b[1..]), a[0]);
      OrderedTail(a);
      OrderedTail(b);
      OrderedCharsUnique(a[1..], b[1..]);
    }
  }

  /**
   * The chow branch: the tokens sorted and joined, with the red five put
   * back, are read as the same chow and give themselves back.
   */
  lemma ChowNormal(m: string)
    requires !HonourWithBadRank(m)
    requires var h := Replace(m, '0', '5');
      !PungText(h) && !QuadText(h) && ChiText(h) && Consecutive(Sort(DigitsOf(h), CharBelow))
    ensures var h := Replace(m, '0', '5'); var hs := [h[0]] + Concat(Sort(Tokens(h), StrBelow));
      var r := if '0' in m then Replace(hs, '5', '0') else hs;
      ValidMianzi(r) == Some(r)
  {
    var h := Replace(m, '0', '5');
    var hs := [h[0]] + Concat(Sort(Tokens(h), StrBelow));
    var r := if '0' in m then Replace(hs, '5', '0') else hs;
    ChowRebuilt(m, hs, r);
  }

  /** The rebuilt chow reads as a chow of the same tiles, with its tokens in order and its red five where it was. */
  lemma ChowRebuilt(m: string, hs: string, r: string)
    requires var h := Replace(m, '0', '5');
      ChiText(h) && Consecutive(Sort(DigitsOf(h), CharBelow)) && hs == [h[0]] + Concat(Sort(Tokens(h), StrBelow))
    requires r == if '0' in m then Replace(hs, '5', '0') else hs
    ensures |r| > 0 && IsNumeralSuit(r[0]) && Replace(r, '0', '5') == hs && ('0' in r <==> '0' in m)
    ensures ChiText(hs) && !PungText(hs) && !QuadText(hs) && Consecutive(Sort(DigitsOf(hs), CharBelow))
    ensures [hs[0]] + Concat(Sort(Tokens(hs), StrBelow)) == hs
  {
    var h := Replace(m, '0', '5');
    var ts := Sort(Tokens(h), StrBelow);
    ChowSorted(h);
    assert hs[1..] == Concat(ts);
    ChowKept(h, hs);
    assert m[0] == h[0];
    RedFiveKept(m, h, hs);
    RedFiveRestored(hs, '0' in m, r);
  }

  /** Putting the red five back in a text without one, and reading it again, gives the text back. */
  lemma RedFiveRestored(hs: string, red: bool, r: string)
    requires '0' !in hs && (red ==> '5' in hs)
    requires r == if red then Replace(hs, '5', '0') else hs
    ensures Replace(r, '0', '5') == hs && ('0' in r <==> red)
  {
    if red {
      var i :| 0 <= i < |hs| && hs[i] == '5';
      assert r[i] == '0';
    }
  }

  /** Sorting and joining the tokens of a chow text keeps its characters, and its tokens read back in order. */
  lemma ChowSorted(h: string)
    requires ChiText(h)
    ensures var ts := Sort(Tokens(h), StrBelow); var hs := [h[0]] + Concat(ts);
      multiset(Concat(ts)) == multiset(h[1..]) && |Concat(ts)| == |h| - 1 && IsDigit(Concat(ts)[0])
      && Tokens(hs) == ts && Sort(ts, StrBelow) == ts
  {
    var u := h[1..];
    ChowTokenised(h);
    var ts := Sort(Tokens(h), StrBelow);
    assert multiset(Concat(ts)) == multiset(u) by {
      ConcatOfTokens(u);
      ConcatPermutation(ts, Tokens(h));
    }
    assert |Concat(ts)| == |multiset(Concat(ts))| == |multiset(u)| == |u|;
    assert forall x :: x in ts ==> TokenLike(x) by {
      TokensShape(h);
      assert forall x :: x in ts ==> x in multiset(Tokens(h));
    }
    var hs := [h[0]] + Concat(ts);
    assert Tokens(hs) == ts by {
      TokensOfConcat(ts);
      assert hs[1..] == Concat(ts);
      assert Tokens(hs) == Tokens(Concat(ts));
    }
    assert Sort(ts, StrBelow) == ts by {
      OrdersTotal();
      SortOrdered(Tokens(h), StrBelow);
      SortKeepsOrdered(ts, StrBelow);
    }
    assert |ts| > 0 && ts[0] in ts && Concat(ts) == ts[0] + Concat(ts[1..]);
  }

  /** After the suit letter, a chow text is digits and directions, each direction right after a digit. */
  lemma ChowTokenised(h: string)
    requires ChiText(h)
    ensures Tokenised(h[1..]) && Tokens(h) == Tokens(h[1..])
  {
    var u := h[1..];
    DashBetweenDigitsIff(h[2..]);
    DashAfterDigit(h[2..]);
    forall i | 0 <= i < |u|
      ensures IsDigit(u[i]) || (IsDirection(u[i]) && i > 0 && IsDigit(u[i - 1]))
    {
      if i > 0 {
        assert u[i] == h[2..][i - 1];
        if i > 1 {
          assert u[i - 1] == h[2..][i - 2];
        }
      }
    }
  }

  /** A text with the characters of a chow text after the same suit letter, starting with a digit, is the same chow. */
  lemma ChowKept(h: string, hs: string)
    requires ChiText(h) && Consecutive(Sort(DigitsOf(h), CharBelow))
    requires |hs| == |h| && hs[0] == h[0] && multiset(hs[1..]) == multiset(h[1..]) && IsDigit(hs[1])
    ensures ChiText(hs) && !PungText(hs) && !QuadText(hs) && Consecutive(Sort(DigitsOf(hs), CharBelow))
  {
    assert h == [h[0]] + h[1..] && hs == [hs[0]] + hs[1..];
    assert multiset(hs) == multiset(h);
    ChowShapeKept(h, hs);
    ChowDigitsOnce(h);
    ChowDigitsKept(h, hs);
    if hs[2] == hs[1] {
      TwiceCounted(hs[1..]);
    }
  }

  lemma TwiceCounted(t: string)
    requires |t| >= 2 && t[0] == t[1]
    ensures multiset(t)[t[0]] >= 2
  {
    assert t == [t[0], t[1]] + t[2..];
  }

  /** The characters after the first digit are digits and one dash in any order that keeps them. */
  lemma ChowShapeKept(h: string, hs: string)
    requires ChiText(h)
    requires |hs| == |h| && hs[0] == h[0] && multiset(hs[1..]) == multiset(h[1..]) && IsDigit(hs[1])
    ensures ChiText(hs)
  {
    DashBetweenDigitsIff(h[2..]);
    DashBetweenDigitsIff(hs[2..]);
    assert h[1..] == [h[1]] + h[2..] && hs[1..] == [hs[1]] + hs[2..];
    assert multiset(hs[1..]) == multiset{hs[1]} + multiset(hs[2..]);
    assert multiset(h[1..]) == multiset{h[1]} + multiset(h[2..]);
    assert multiset{hs[1]}['-'] == 0 && multiset{h[1]}['-'] == 0;
    assert multiset(hs[1..])['-'] == multiset(h[1..])['-'];
    assert multiset(hs[2..])['-'] == multiset(h[2..])['-'];
    forall i | 0 <= i < |hs[2..]|
      ensures IsDigit(hs[2..][i]) || hs[2..][i] == '-'
    {
      assert hs[2..][i] == hs[1..][i + 1];
      assert hs[1..][i + 1] in multiset(h[1..]);
      var j :| 0 <= j < |h[1..]| && h[1..][j] == hs[1..][i + 1];
      if j > 0 {
        assert h[1..][j] == h[2..][j - 1];
      }
    }
  }

  lemma ThreeRanksOnce(nn: seq<char>)
    requires Consecutive(nn)
    ensures forall x :: multiset(nn)[x] <= 1
  {
    assert nn == [nn[0], nn[1], nn[2]];
    assert multiset(nn) == multiset{nn[0]} + multiset{nn[1]} + multiset{nn[2]};
  }

  /** Three consecutive ranks are three different digits, so a chow text holds each digit at most once. */
  lemma ChowDigitsOnce(h: string)
    requires Consecutive(Sort(DigitsOf(h), CharBelow))
    ensures forall x :: IsDigit(x) ==> multiset(h)[x] <= 1
  {
    ThreeRanksOnce(Sort(DigitsOf(h), CharBelow));
    forall x | IsDigit(x)
      ensures multiset(h)[x] <= 1
    {
      DigitsOfCount(h, x);
    }
  }

  /** Texts with the same characters have the same sorted digits. */
  lemma ChowDigitsKept(h: string, hs: string)
    requires multiset(hs) == multiset(h)
    ensures Sort(DigitsOf(hs), CharBelow) == Sort(DigitsOf(h), CharBelow)
  {
    forall x
      ensures multiset(DigitsOf(hs))[x] == multiset(DigitsOf(h))[x]
    {
      DigitsOfCount(h, x);
      DigitsOfCount(hs, x);
    }
    assert multiset(DigitsOf(hs)) == multiset(DigitsOf(h));
    OrdersTotal();
    SortOrdered(DigitsOf(h), CharBelow);
    SortOrdered(DigitsOf(hs), CharBelow);
    OrderedCharsUnique(Sort(DigitsOf(hs), CharBelow), Sort(DigitsOf(h), CharBelow));
  }

  /** The joined chow holds no red five, and a five exactly where the meld held its red five. */
  lemma RedFiveKept(m: string, h: string, hs: string)
    requires |m| > 0 && !IsDigit(m[0]) && h == Replace(m, '0', '5')
    requires |hs| == |h| && hs[0] == h[0] && multiset(hs[1..]) == multiset(h[1..])
    ensures '0' !in hs
    ensures '0' in m ==> '5' in hs
  {
    assert hs == [hs[0]] + hs[1..];
    assert '0' !in h[1..];
    assert '0' !in multiset(hs[1..]);
    if '0' in m {
      var i :| 0 <= i < |m| && m[i] == '0';
      assert h[1..][i - 1] == '5';
      assert '5' in multiset(hs[1..]);
      assert '5' in hs[1..];
    }
  }
}
