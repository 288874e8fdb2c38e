/**
 * The `Shoupai` class of jongpy/core/shoupai.py: the hand as mutable state.
 * The four count lists are arrays that the mutators update in place, the
 * melds, the draw slot and the riichi flag are fields that they reassign.
 * Every mutator is proved to leave the object in the state that the
 * matching function of ShoupaiSpec computes from the state before the call,
 * and to keep the counts valid.
 */
module Shoupai {
  import opened Wrappers
  import opened Exceptions
  import opened Notation
  import opened ShoupaiSpec
  import opened ShoupaiMoves

  class Shoupai {
    /** `_bingpai['_']`: face-down tiles. */
    var hidden: int
    /** `_bingpai['m']`, `['p']`, `['s']` (index 0 counts red fives) and `['z']`. */
    const m: array<int>
    const p: array<int>
    const s: array<int>
    const z: array<int>
    /** `_fulou`: the declared melds. */
    var fulou: seq<string>
    /** `_zimo`: the drawn tile or the meld just called, if any. */
    var zimo: Option<string>
    /** `_lizhi`: riichi has been declared. */
    var lizhi: bool

    /** The count arrays have their lengths and are four distinct arrays. */
    ghost predicate Shaped()
      reads this
    {
      m.Length == 10 && p.Length == 10 && s.Length == 10 && z.Length == 8
      && m != p && m != s && m != z && p != s && p != z && s != z
    }

    ghost predicate Valid()
      reads this, m, p, s, z
    {
      Shaped() && ValidHand(Value())
    }

    /** The hand as a value. */
    function Value(): HandState
      reads this, m, p, s, z
    {
      HandState(Bingpai(hidden, m[..], p[..], s[..], z[..]), fulou, zimo, lizhi)
    }

    function Arr(c: char): array<int>
      reads this
    {
      if c == 'm' then m else if c == 'p' then p else if c == 's' then s else z
    }

    /** `Shoupai()`: an empty hand. */
    constructor ()
      ensures Valid() && Value() == HandState(EMPTY, [], None, false)
      ensures fresh(m) && fresh(p) && fresh(s) && fresh(z)
    {
      hidden := 0;
      m := new int[10](_ => 0);
      p := new int[10](_ => 0);
      s := new int[10](_ => 0);
      z := new int[8](_ => 0);
      fulou := [];
      zimo := None;
      lizhi := false;
    }

    /** Adds d to slot (c, n). */
    method AddAt(c: char, n: int, d: int)
      requires Shaped() && IsKind(c, n)
      modifies Arr(c)
      ensures Value() == old(Value()).(bingpai := old(Value()).bingpai.Bump(c, n, d))
    {
      var a := Arr(c);
      a[n] := a[n] + d;
    }

    /**
     * `Shoupai(qipai)`: a hand holding the listed tiles, or the error of the
     * first tile that is malformed or a fifth copy.  A red five is refused
     * when the hand already holds four fives (the corrected rule, see
     * ShoupaiSpec.QipaiCounts).
     */
    static method Create(qipai: seq<string>) returns (r: Result<Shoupai>)
      ensures QipaiCounts(EMPTY, qipai).Failure? ==> r == Failure(QipaiCounts(EMPTY, qipai).error)
      ensures QipaiCounts(EMPTY, qipai).Success? ==>
        r.Success? && fresh(r.value) && fresh(r.value.m) && fresh(r.value.p) && fresh(r.value.s) && fresh(r.value.z)
        && r.value.Valid() && r.value.Value() == HandState(QipaiCounts(EMPTY, qipai).value, [], None, false)
    {
      var sp := new Shoupai();
      QipaiCountsValid(EMPTY, qipai);
      var i := 0;
      while i < |qipai|
        invariant 0 <= i <= |qipai|
        invariant sp.Valid() && sp.Value().fulou == [] && sp.Value().zimo == None && !sp.Value().lizhi
        invariant fresh(sp) && fresh(sp.m) && fresh(sp.p) && fresh(sp.s) && fresh(sp.z)
        invariant QipaiCounts(EMPTY, qipai) == QipaiCounts(sp.Value().bingpai, qipai[i..])
      {
        var o := sp.AddTile(qipai[i]);
        if o.Fail? {
          return Failure(o.error);
        }
        i := i + 1;
      }
      assert qipai[i..] == [];
      return Success(sp);
    }

    /** One tile of `__init__`'s list, counted as `QipaiStep` says; on failure nothing changes. */
    method AddTile(t: string) returns (o: Outcome)
      requires Valid() && zimo == None
      modifies this, m, p, s, z
      ensures Shaped() && fulou == old(fulou) && zimo == old(zimo) && lizhi == old(lizhi)
      ensures QipaiStep(old(Value()).bingpai, t).Failure? ==>
        o == Fail(QipaiStep(old(Value()).bingpai, t).error)
      ensures QipaiStep(old(Value()).bingpai, t).Success? ==>
        o.Pass? && Value().bingpai == QipaiStep(old(Value()).bingpai, t).value && Valid()
    {
      if t == "_" {
        hidden := hidden + 1;
        return Pass;
      }
      if !ValidPai(t) {
        return Fail(PaiFormat);
      }
      var c, n := t[0], DigitValue(t[1]);
      var a := Arr(c);
      if a[n] == 4 || (n == 0 && a[5] == 4) {
        return Fail(PaiOverFlow);
      }
      ghost var b := Value().bingpai;
      AddPaiValid(b, c, n);
      AddAt(c, n, 1);
      if n == 0 {
        AddAt(c, 5, 1);
      }
      o := Pass;
    }

    /** `__copy__`: a new hand with equal contents and arrays of its own. */
    method Copy() returns (r: Shoupai)
      requires Valid()
      ensures fresh(r) && fresh(r.m) && fresh(r.p) && fresh(r.s) && fresh(r.z)
      ensures r.Valid() && r.Value() == Value()
    {
      r := new Shoupai();
      r.hidden := hidden;
      CopyRow(m, r.m);
      CopyRow(p, r.p);
      CopyRow(s, r.s);
      CopyRow(z, r.z);
      r.fulou := fulou;
      r.zimo := zimo;
      r.lizhi := lizhi;
    }

    static method CopyRow(src: array<int>, dst: array<int>)
      requires src.Length == dst.Length && src != dst
      modifies dst
      ensures dst[..] == src[..]
    {
      var i := 0;
      while i < dst.Length
        invariant 0 <= i <= dst.Length
        invariant dst[..i] == src[..i]
      {
        dst[i] := src[i];
        i := i + 1;
      }
    }

    /** `zimo(p, check)`: draw a tile, as `ZimoSpec` says. */
    method Zimo(t: string, check: bool) returns (o: Outcome)
      requires Valid()
      modifies this, m, p, s, z
      ensures Valid() && (Value(), o) == ZimoSpec(old(Value()), t, check)
    {
      ghost var h := Value();
      ZimoProperties(h, t, check);
      if check && zimo.Some? && zimo.value != "" {
        o := Fail(ShoupaiOverFlow);
      } else if t == "_" {
        hidden := hidden + 1;
        zimo := Some("_");
        o := Pass;
      } else if !ValidPai(t) {
        o := Fail(PaiFormat);
      } else {
        o := DrawTile(h, t);
      }
    }

    /** The counting part of `zimo` for a tile face up: `AddPai`, and the slot set when it passes. */
    method DrawTile(ghost h: HandState, t: string) returns (o: Outcome)
      requires Valid() && Value() == h && ValidPai(t) && t != "_"
      modifies this, m, p, s, z
      ensures IsKind(t[0], DigitValue(t[1]))
      ensures var (b, o') := AddPai(h.bingpai, t[0], DigitValue(t[1]));
        o == o' && Value() == (if o'.Fail? then h.(bingpai := b) else h.(bingpai := b, zimo := Some([t[0], t[1]])))
    {
      ValidPaiShape(t);
      var c, n := t[0], DigitValue(t[1]);
      var a := Arr(c);
      if a[n] == 4 {
        o := Fail(PaiOverFlow);
      } else {
        AddAt(c, n, 1);
        if n == 0 && a[5] == 4 {
          o := Fail(PaiOverFlow);
        } else {
          if n == 0 {
            AddAt(c, 5, 1);
          }
          zimo := Some([c, t[1]]);
          o := Pass;
        }
      }
    }

    /** `_decrease(s, n)`: take one tile of the kind, or a face-down tile, as `DecreaseSpec` says; on failure nothing changes. */
    method Decrease(c: char, n: int) returns (o: Outcome)
      requires Valid() && IsKind(c, n)
      modifies this, Arr(c)
      ensures Valid() && fulou == old(fulou) && zimo == old(zimo) && lizhi == old(lizhi)
      ensures DecreaseSpec(old(Value()).bingpai, c, n).Failure? ==>
        o == Fail(DecreaseSpec(old(Value()).bingpai, c, n).error) && Value() == old(Value())
      ensures DecreaseSpec(old(Value()).bingpai, c, n).Success? ==>
        o.Pass? && Value().bingpai == DecreaseSpec(old(Value()).bingpai, c, n).value
    {
      DecreaseValid(Value().bingpai, c, n);
      var a := Arr(c);
      if a[n] == 0 || (n == 5 && a[0] == a[5]) {
        if hidden == 0 {
          return Fail(PaiNotExist);
        }
        hidden := hidden - 1;
      } else {
        AddAt(c, n, -1);
        if n == 0 {
          AddAt(c, 5, -1);
        }
      }
      o := Pass;
    }

    /** `dapai(p, check)`: discard a tile, as `DapaiSpec` says. */
    method Dapai(t: string, check: bool) returns (o: Outcome)
      requires Valid()
      modifies this, m, p, s, z
      ensures Valid() && (Value(), o) == DapaiSpec(old(Value()), t, check)
    {
      DapaiProperties(Value(), t, check);
      if check && !(zimo.Some? && zimo.value != "") {
        return Fail(ShoupaiUnderFlow);
      }
      if !ValidPai(t) {
        return Fail(PaiFormat);
      }
      o := Decrease(t[0], DigitValue(t[1]));
      if o.Pass? {
        zimo := None;
        if t[|t| - 1] == '*' {
          lizhi := true;
        }
      }
    }

    /**
     * `_decrease` for each rank of ns in turn, stopping at the first
     * failure, as `DecreaseEach` says.
     */
    method DecreaseAll(c: char, ns: seq<int>) returns (o: Outcome)
      requires Valid() && forall i :: 0 <= i < |ns| ==> IsKind(c, ns[i])
      modifies this, m, p, s, z
      ensures Valid() && fulou == old(fulou) && zimo == old(zimo) && lizhi == old(lizhi)
      ensures (Value().bingpai, o) == DecreaseEach(old(Value()).bingpai, c, ns)
    {
      var i := 0;
      while i < |ns|
        invariant 0 <= i <= |ns|
        invariant Valid() && fulou == old(fulou) && zimo == old(zimo) && lizhi == old(lizhi)
        invariant DecreaseEach(old(Value()).bingpai, c, ns) == DecreaseEach(Value().bingpai, c, ns[i..])
      {
        ghost var b := Value().bingpai;
        assert ns[i..][0] == ns[i] && ns[i..][1..] == ns[i + 1..];
        o := Decrease(c, ns[i]);
        if o.Fail? {
          return;
        }
        i := i + 1;
      }
      assert ns[i..] == [];
      o := Pass;
    }

    /** `fulou(m, check)`: call a meld, as `FulouSpec` says. */
    method Fulou(mm: string, check: bool) returns (o: Outcome)
      requires Valid()
      modifies this, m, p, s, z
      ensures Valid() && (Value(), o) == FulouSpec(old(Value()), mm, check)
    {
      ghost var h := Value();
      FulouGuards(h, mm, check);
      if check && zimo.Some? && zimo.value != "" {
        return Fail(ShoupaiOverFlow);
      }
      if ValidMianzi(mm) != Some(mm) {
        return Fail(MianziFormat);
      }
      if EndsWithFourDigits(mm) || EndsAddedQuad(mm) {
        return Fail(InvalidOperation);
      }
      o := TakeMeld(mm, check);
    }

    /** The part of `fulou` after its checks: the meld's tiles leave the hand and the meld is declared. */
    method TakeMeld(mm: string, check: bool) returns (o: Outcome)
      requires Valid() && !(check && HasZimo(zimo))
      requires ValidMianzi(mm) == Some(mm) && !EndsWithFourDigits(mm) && !EndsAddedQuad(mm)
      modifies this, m, p, s, z
      ensures Valid() && (Value(), o) == FulouSpec(old(Value()), mm, check)
    {
      ghost var h := Value();
      NormalMeldKinds(mm);
      var ns := FreeRanks(mm);
      ghost var (b, o1) := DecreaseEach(h.bingpai, mm[0], ns);
      o := DecreaseAll(mm[0], ns);
      assert Value() == h.(bingpai := b) && o == o1;
      if o.Fail? {
        FulouStopped(h, mm, check, b, o.error);
        return;
      }
      SetMelds(fulou + [mm], if HasFourDigits(mm) then zimo else Some(mm));
      FulouSettled(h, mm, check, b);
    }

    /** Replaces the declared melds and the draw slot, leaving the counts as they are. */
    method SetMelds(f: seq<string>, zm: Option<string>)
      requires Shaped()
      modifies this
      ensures Shaped() && Value() == old(Value()).(fulou := f, zimo := zm)
    {
      fulou := f;
      zimo := zm;
    }

    /** `gang(m, check)`: declare a concealed or an added quad, as `GangSpec` says. */
    method Gang(mm: string, check: bool) returns (o: Outcome)
      requires Valid()
      modifies this, m, p, s, z
      ensures Valid() && (Value(), o) == GangSpec(old(Value()), mm, check)
    {
      ghost var h := Value();
      GangGuards(h, mm, check);
      if check && !(zimo.Some? && zimo.value != "") {
        return Fail(ShoupaiUnderFlow);
      }
      if check && |zimo.value| > 2 {
        return Fail(InvalidOperation);
      }
      if ValidMianzi(mm) != Some(mm) {
        return Fail(MianziFormat);
      }
      NormalMeldKinds(mm);
      if EndsWithFourDigits(mm) {
        o := DecreaseAll(mm[0], AllRanks(mm));
        GangConcealedPath(h, mm, check);
        if o.Fail? {
          GangRefused(h, mm, check);
          return;
        }
        SetMelds(fulou + [mm], None);
      } else if EndsAddedQuad(mm) {
        var m1 := mm[0..5];
        if m1 !in fulou {
          return Fail(InvalidOperation);
        }
        SetMelds(fulou[IndexOf(fulou, m1) := mm], zimo);
        o := Decrease(mm[0], DigitValue(mm[|mm| - 1]));
        GangAddedPath(h, mm, check);
        if o.Fail? {
          GangRefused(h, mm, check);
          return;
        }
        SetMelds(fulou, None);
      } else {
        return Fail(InvalidOperation);
      }
      if EndsWithFourDigits(mm) {
        GangConcealed(h, mm, check);
      } else {
        GangAdded(h, mm, check);
      }
    }

    // -------------------------------------------------------------------
    // Queries: the moves the hand allows

    /** The count array of suit c holds the counts the hand's value lists for c. */
    lemma ArrRow(c: char)
      ensures Arr(c)[..] == Value().bingpai.Row(c)
    {
    }

    /**
     * `get_dapai(check)`: the tiles that may be discarded, computed suit by
     * suit and rank by rank over the count arrays.
     */
    method GetDapai(check: bool) returns (r: Result<Option<seq<string>>>)
      requires Valid()
      ensures r == GetDapaiSpec(Value(), check)
    {
      if !(zimo.Some? && zimo.value != "") {
        return Success(None);
      }
      var zm := zimo.value;
      var deny: seq<string> := [];
      if check && |zm| > 2 {
        var d := DenyList(zm);
        if d.Failure? {
          return Failure(d.error);
        }
        deny := d.value;
      }
      ghost var h := Value();
      var dapai: seq<string> := [];
      if !lizhi {
        dapai := SuitChoices(h.bingpai, deny, zm);
      }
      assert DenyOf(zm, check) == Success(deny);
      assert dapai == DapaiMain(h, deny, zm);
      dapai := dapai + DrawnChoice(zm);
      return Success(Some(dapai));
    }

    /** The loop of `get_dapai` over the four suits. */
    method SuitChoices(ghost b: Bingpai, deny: seq<string>, zm: string) returns (dapai: seq<string>)
      requires Valid() && b == Value().bingpai
      ensures dapai == SuitsDapai(b, 4, deny, zm)
    {
      dapai := [];
      var j := 0;
      while j < 4
        invariant 0 <= j <= 4
        invariant dapai == SuitsDapai(b, j, deny, zm)
      {
        SuitRow(b, j);
        ArrRow(SUITS[j]);
        var row := RowChoices(Arr(SUITS[j]), SUITS[j], deny, zm);
        dapai := dapai + row;
        j := j + 1;
      }
    }

    /** The discard choices of one suit's count array, rank by rank. */
    static method RowChoices(a: array<int>, c: char, deny: seq<string>, zm: string) returns (r: seq<string>)
      requires RowShape(c, a[..])
      ensures r == RowDapai(a[..], c, a.Length, deny, zm)
    {
      r := [];
      var n := 1;
      while n < a.Length
        invariant 1 <= n <= a.Length
        invariant r == RowDapai(a[..], c, n, deny, zm)
      {
        var t := KindText(c, n);
        if a[n] == 0 || t in deny || (t == zm && a[n] == 1) {
        } else if c == 'z' || n != 5 {
          r := r + [t];
        } else {
          if (a[0] > 0 && KindText(c, 0) != zm) || a[0] > 1 {
            r := r + [KindText(c, 0)];
          }
          if a[0] < a[5] {
            r := r + [t];
          }
        }
        n := n + 1;
      }
    }

    /** `get_chi_mianzi(p, check)`: the chows the hand can make with tile t. */
    method GetChiMianzi(t: string, check: bool) returns (r: Result<Option<seq<string>>>)
      requires Valid()
      ensures r == ChiSpec(Value(), t, check)
    {
      if zimo.Some? && zimo.value != "" {
        return Success(None);
      }
      if !ValidPai(t) {
        return Failure(PaiFormat);
      }
      var d := Direction(t);
      if d.None? {
        return Failure(InvalidOperation);
      }
      if t[0] == 'z' || d.value != '-' || lizhi {
        return Success(Some([]));
      }
      var c := t[0];
      var n := Rank(t);
      var a := Arr(c);
      ArrRow(c);
      var limit := 14 - (|fulou| + 1) * 3;
      var right := ChowsRight(a, c, n, t[1], limit, check);
      var middle := ChowsMiddle(a, c, n, t[1], limit, check);
      var left := ChowsLeft(a, c, n, t[1], limit, check);
      var mianzi := right + middle + left;
      ghost var h := Value();
      assert !HasZimo(h.zimo) && !h.lizhi && h.bingpai.Row(t[0]) == a[..] && limit == ChiLimit(|h.fulou|);
      return Success(Some(mianzi));
    }

    /** The chows of one suit's count array with the claimed tile (rank n, digit d) highest. */
    static method ChowsRight(a: array<int>, c: char, n: int, d: char, limit: int, check: bool) returns (r: seq<string>)
      requires a.Length == 10 && 1 <= n <= 9
      ensures r == ChiRight(a[..], c, n, d, limit, check)
    {
      r := [];
      if n >= 3 && a[n - 2] > 0 && a[n - 1] > 0 {
        if !check || (if n > 3 then a[n - 3] else 0) + a[n] < limit {
          if n - 2 == 5 && a[0] > 0 { r := r + [[c] + "067-"]; }
          if n - 1 == 5 && a[0] > 0 { r := r + [[c] + "406-"]; }
          if (n - 2 != 5 && n - 1 != 5) || a[0] < a[5] {
            r := r + [[c, DigitChar(n - 2), DigitChar(n - 1), d, '-']];
          }
        }
      }
    }

    /** The chows with the claimed tile in the middle. */
    static method ChowsMiddle(a: array<int>, c: char, n: int, d: char, limit: int, check: bool) returns (r: seq<string>)
      requires a.Length == 10 && 1 <= n <= 9
      ensures r == ChiMiddle(a[..], c, n, d, limit, check)
    {
      r := [];
      if 2 <= n <= 8 && a[n - 1] > 0 && a[n + 1] > 0 {
        if !check || a[n] < limit {
          if n - 1 == 5 && a[0] > 0 { r := r + [[c] + "06-7"]; }
          if n + 1 == 5 && a[0] > 0 { r := r + [[c] + "34-0"]; }
          if (n - 1 != 5 && n + 1 != 5) || a[0] < a[5] {
            r := r + [[c, DigitChar(n - 1), d, '-', DigitChar(n + 1)]];
          }
        }
      }
    }

    /** The chows with the claimed tile lowest. */
    static method ChowsLeft(a: array<int>, c: char, n: int, d: char, limit: int, check: bool) returns (r: seq<string>)
      requires a.Length == 10 && 1 <= n <= 9
      ensures r == ChiLeft(a[..], c, n, d, limit, check)
    {
      r := [];
      if n <= 7 && a[n + 1] > 0 && a[n + 2] > 0 {
        if !check || a[n] + (if n < 7 then a[n + 3] else 0) < limit {
          if n + 1 == 5 && a[0] > 0 { r := r + [[c] + "4-06"]; }
          if n + 2 == 5 && a[0] > 0 { r := r + [[c] + "3-40"]; }
          if (n + 1 != 5 && n + 2 != 5) || a[0] < a[5] {
            r := r + [[c, d, '-', DigitChar(n + 1), DigitChar(n + 2)]];
          }
        }
      }
    }

    /** `get_peng_mianzi(p)`: the pungs the hand can make with tile t. */
    method GetPengMianzi(t: string) returns (r: Result<Option<seq<string>>>)
      requires Valid()
      ensures r == PengSpec(Value(), t)
    {
      if zimo.Some? && zimo.value != "" {
        return Success(None);
      }
      if !ValidPai(t) {
        return Failure(PaiFormat);
      }
      var d := Direction(t);
      if d.None? {
        return Failure(InvalidOperation);
      }
      if lizhi {
        return Success(Some([]));
      }
      ValidPaiShape(t);
      var c := t[0];
      var n := Rank(t);
      var a := Arr(c);
      ArrRow(c);
      var mianzi := Pungs(a, c, n, t[1], d.value);
      return Success(Some(mianzi));
    }

    /** The pungs of one suit's count array with a claimed tile of rank n. */
    static method Pungs(a: array<int>, c: char, n: int, d1: char, d: char) returns (r: seq<string>)
      requires 1 <= n <= 9 && n < a.Length && a.Length >= 6
      ensures r == PengMelds(a[..], c, n, d1, d)
    {
      r := [];
      if a[n] >= 2 {
        if n == 5 && a[0] >= 2 { r := r + [[c, '0', '0', d1, d]]; }
        if n == 5 && a[0] >= 1 && a[5] - a[0] >= 1 { r := r + [[c, '5', '0', d1, d]]; }
        if n != 5 || a[5] - a[0] >= 2 { r := r + [[c, DigitChar(n), DigitChar(n), d1, d]]; }
      }
    }

    /**
     * `get_gang_mianzi(p)`: with a tile, the claimed quad it allows;
     * without one, the concealed and added quads, suit by suit.
     */
    method GetGangMianzi(t: Option<string>) returns (r: Result<Option<seq<string>>>)
      requires Valid()
      ensures r == GangMianziSpec(Value(), t)
    {
      if t.Some? && t.value != "" {
        r := ClaimedGang(t.value);
      } else {
        var q := OwnGangs();
        r := Success(q);
      }
    }

    /** The quad a discarded tile t completes, if the hand holds three of its kind. */
    method ClaimedGang(pt: string) returns (r: Result<Option<seq<string>>>)
      requires Valid()
      ensures r == GangOpen(Value(), pt)
    {
      if zimo.Some? && zimo.value != "" {
        return Success(None);
      }
      if !ValidPai(pt) {
        return Failure(PaiFormat);
      }
      var d := Direction(pt);
      if d.None? {
        return Failure(InvalidOperation);
      }
      if lizhi {
        return Success(Some([]));
      }
      ValidPaiShape(pt);
      var c := pt[0];
      var n := Rank(pt);
      var a := Arr(c);
      ArrRow(c);
      if a[n] == 3 {
        if n == 5 {
          return Success(Some([[c] + (Rep('5', 3 - a[0]) + Rep('0', a[0])) + [pt[1], d.value]]));
        } else {
          return Success(Some([[c] + Rep(DigitChar(n), 4) + [d.value]]));
        }
      }
      return Success(Some([]));
    }

    /** The concealed and added quads the hand may declare after its draw, suit by suit. */
    method OwnGangs() returns (r: Option<seq<string>>)
      requires Valid()
      ensures r == GangClosed(Value())
    {
      if !(zimo.Some? && zimo.value != "") || |zimo.value| > 2 {
        return None;
      }
      var pz := Replace(zimo.value, '0', '5');
      var mianzi: seq<string> := [];
      ghost var b := Value().bingpai;
      var j := 0;
      while j < 4
        invariant 0 <= j <= 4
        invariant mianzi == SuitsGang(b, j, fulou, lizhi, pz)
      {
        SuitRow(b, j);
        ArrRow(SUITS[j]);
        var row := RowQuads(Arr(SUITS[j]), SUITS[j], fulou, lizhi, pz);
        mianzi := mianzi + row;
        j := j + 1;
      }
      return Some(mianzi);
    }

    /** The concealed and added quads of one suit's count array, rank by rank. */
    static method RowQuads(a: array<int>, c: char, fulou: seq<string>, lizhi: bool, pz: string) returns (r: seq<string>)
      requires RowShape(c, a[..])
      ensures r == RowGang(a[..], c, a.Length, fulou, lizhi, pz)
    {
      r := [];
      var n := 1;
      while n < a.Length
        invariant 1 <= n <= a.Length
        invariant r == RowGang(a[..], c, n, fulou, lizhi, pz)
      {
        var q := KindQuads(a, c, n, fulou, lizhi, pz);
        r := r + q;
        n := n + 1;
      }
    }

    /** The quads of kind (c, n): concealed when all four are held, otherwise added to a declared pung. */
    static method KindQuads(a: array<int>, c: char, n: int, fulou: seq<string>, lizhi: bool, pz: string) returns (r: seq<string>)
      requires RowShape(c, a[..]) && 1 <= n < a.Length
      ensures r == KindGang(a[..], c, n, fulou, lizhi, pz)
    {
      r := [];
      if a[n] == 0 {
      } else if a[n] == 4 {
        if !(lizhi && KindText(c, n) != pz) {
          var q := if n == 5 then Rep('5', 4 - a[0]) + Rep('0', a[0]) else Rep(DigitChar(n), 4);
          r := [[c] + q];
        }
      } else if !lizhi {
        r := AddedQuads(fulou, c, n, a[0]);
      }
    }

    /** The declared melds that tile kind (c, n) extends to a quad, each with the added tile. */
    static method AddedQuads(fulou: seq<string>, c: char, n: int, red: int) returns (r: seq<string>)
      requires 1 <= n <= 9
      ensures r == AddedGang(fulou, c, n, red)
    {
      r := [];
      var i := 0;
      while i < |fulou|
        invariant 0 <= i <= |fulou|
        invariant r == AddedGang(fulou[..i], c, n, red)
      {
        var mm := fulou[i];
        assert fulou[..i + 1][..i] == fulou[..i];
        if |mm| >= 4 && Replace(mm, '0', '5')[..4] == [c] + Rep(DigitChar(n), 3) {
          if n == 5 && red > 0 {
            r := r + [mm + "0"];
          } else {
            r := r + [mm + [DigitChar(n)]];
          }
        }
        i := i + 1;
      }
      assert fulou[..i] == fulou;
    }
  }
}
