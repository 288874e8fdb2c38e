/**
 * The discard pile (jongpy/core/he.py, class `He`): the discarded tiles in
 * order, each marked with the direction of the seat that called it, and
 * the set of tile kinds ever discarded, which answers `find`.
 */
module He {
  import opened Wrappers
  import opened Exceptions
  import opened Notation

  /** `p[0] + str(int(p[1]) or 5)`: the kind of a tile, a red five read as a five. */
  function Key(p: string): (k: string)
    requires |p| >= 2 && IsDigit(p[1])
    ensures |k| == 2 && k[0] == p[0] && IsDigit(k[1]) && k[1] != '0'
  {
    [p[0], if p[1] == '0' then '5' else p[1]]
  }

  /** `re.sub(r'[\+\=\-]$', '', p)`: the tile without the direction it was called from. */
  function StripDirection(p: string): (r: string)
    ensures |p| > 0 && IsDirection(p[|p| - 1]) ==> r == p[..|p| - 1]
    ensures !(|p| > 0 && IsDirection(p[|p| - 1])) ==> r == p
  {
    if |p| > 0 && IsDirection(p[|p| - 1]) then p[..|p| - 1] else p
  }

  /** `re.search(r'[\+\=\-]', m)`: the first direction in the text. */
  function FirstDirection(m: string): (r: Option<char>)
    ensures r.Some? ==> IsDirection(r.value)
    ensures r.Some? ==> exists k :: 0 <= k < |m| && m[k] == r.value && forall i :: 0 <= i < k ==> !IsDirection(m[i])
    ensures r.None? ==> forall i :: 0 <= i < |m| ==> !IsDirection(m[i])
  {
    if |m| == 0 then None
    else if IsDirection(m[0]) then Some(m[0])
    else
      assert forall i :: 1 <= i < |m| ==> m[i] == m[1..][i - 1];
      var r := FirstDirection(m[1..]);
      if r.Some? then
        var k :| 0 <= k < |m| - 1 && m[1..][k] == r.value && forall i :: 0 <= i < k ==> !IsDirection(m[1..][i]);
        assert m[k + 1] == r.value && forall i :: 0 <= i < k + 1 ==> !IsDirection(m[i]);
        r
      else r
  }

  /** The tile a meld claims: its suit and the digit before the direction (`m[0] + (d or '')`). */
  function Claimed(m: string): (p: string)
    requires |m| > 0
    ensures 1 <= |p| <= 2 && p[0] == m[0]
  {
    [m[0]] + (if ClaimedDigit(m).Some? then [ClaimedDigit(m).value] else [])
  }

  /** A discard as the pile keeps it: a tile, with marks. */
  predicate Entry(e: string)
  {
    |e| >= 2 && IsDigit(e[1])
  }

  /** The kinds of a pile's entries. */
  function Keys(pai: seq<string>): set<string>
  {
    set i | 0 <= i < |pai| && Entry(pai[i]) :: Key(pai[i])
  }

  lemma KeysAppend(pai: seq<string>, e: string)
    requires Entry(e)
    ensures Keys(pai + [e]) == Keys(pai) + {Key(e)}
  {
    var q := pai + [e];
    forall k | k in Keys(q)
      ensures k in Keys(pai) + {Key(e)}
    {
      var i :| 0 <= i < |q| && Entry(q[i]) && k == Key(q[i]);
      if i < |pai| {
        assert q[i] == pai[i];
      }
    }
    forall k | k in Keys(pai) + {Key(e)}
      ensures k in Keys(q)
    {
      if k == Key(e) {
        assert q[|pai|] == e;
      } else {
        var i :| 0 <= i < |pai| && Entry(pai[i]) && k == Key(pai[i]);
        assert q[i] == pai[i];
      }
    }
  }

  /** Marking the last entry keeps the kinds. */
  lemma KeysReplaceLast(pai: seq<string>, e: string)
    requires |pai| > 0 && Entry(e) && Entry(pai[|pai| - 1]) && Key(e) == Key(pai[|pai| - 1])
    ensures Keys(pai[|pai| - 1 := e]) == Keys(pai)
  {
    var q := pai[|pai| - 1 := e];
    forall k | k in Keys(q)
      ensures k in Keys(pai)
    {
      var i :| 0 <= i < |q| && Entry(q[i]) && k == Key(q[i]);
      assert Entry(pai[i]) && Key(pai[i]) == k;
    }
    forall k | k in Keys(pai)
      ensures k in Keys(q)
    {
      var i :| 0 <= i < |pai| && Entry(pai[i]) && k == Key(pai[i]);
      assert Entry(q[i]) && Key(q[i]) == k;
    }
  }

  /**
   * `fulou(m)` on the pile: marks the last discard with the direction of
   * the call.  Refused when m is not a meld, names no direction, or does
   * not claim the last discard; an empty pile raises IndexError.
   */
  function FulouSpec(pai: seq<string>, m: string): (seq<string>, Outcome)
    requires forall i :: 0 <= i < |pai| ==> Entry(pai[i])
  {
    if ValidMianzi(m).None? then (pai, Fail(MianziFormat))
    else FulouMark(pai, Claimed(m), FirstDirection(m))
  }

  /** The part of `FulouSpec` after the meld is read: the claimed tile p and the direction d. */
  function FulouMark(pai: seq<string>, p: string, d: Option<char>): (seq<string>, Outcome)
    requires forall i :: 0 <= i < |pai| ==> Entry(pai[i])
  {
    if d.None? then (pai, Fail(InvalidOperation))
    else if |pai| == 0 then (pai, Fail(IndexOutOfRange))
    else
      var last := pai[|pai| - 1];
      assert Entry(last);
      if last[..2] != p then (pai, Fail(InvalidOperation))
      else (pai[|pai| - 1 := last + [d.value]], Pass)
  }

  /**
   * A call never changes how many discards there are; when accepted it
   * claims the last discard (same suit and digit) and appends one
   * direction to it, and when refused the pile is as before.
   */
  lemma FulouProperties(pai: seq<string>, m: string)
    requires forall i :: 0 <= i < |pai| ==> Entry(pai[i])
    ensures var (q, o) := FulouSpec(pai, m);
      |q| == |pai| && (o.Fail? ==> q == pai)
      && (o.Pass? <==> ValidMianzi(m).Some? && FirstDirection(m).Some? && |pai| > 0
                       && pai[|pai| - 1][..2] == Claimed(m))
      && (o.Pass? ==> q[..|q| - 1] == pai[..|pai| - 1] && q[|q| - 1] == pai[|pai| - 1] + [FirstDirection(m).value]
                      && Entry(q[|q| - 1]) && IsDirection(q[|q| - 1][|q[|q| - 1]| - 1]))
  {
    var (q, o) := FulouSpec(pai, m);
    if o.Pass? {
      var last := pai[|pai| - 1];
      assert Entry(last);
      assert q == pai[|pai| - 1 := last + [FirstDirection(m).value]];
      assert q[|q| - 1] == last + [FirstDirection(m).value];
    }
  }

  class He {
    /** `_pai`: the discards in order. */
    var pai: seq<string>
    /** `_find`: the kinds ever discarded. */
    var found: set<string>

    /** Every entry is a tile, and the set holds exactly the kinds of the entries. */
    ghost predicate Valid()
      reads this
    {
      (forall i :: 0 <= i < |pai| ==> Entry(pai[i]))
      && found == Keys(pai)
    }

    /** `He()`: an empty pile. */
    constructor ()
      ensures Valid() && pai == [] && found == {}
    {
      pai := [];
      found := {};
    }

    /**
     * `dapai(p)`: appends the tile without any direction (keeping the `_`
     * and `*` marks) and records its kind; text that is not a tile is
     * refused and nothing changes.
     */
    method Dapai(p: string) returns (o: Outcome)
      requires Valid()
      modifies this
      ensures Valid()
      ensures !ValidPai(p) ==> o == Fail(PaiFormat) && pai == old(pai) && found == old(found)
      ensures ValidPai(p) ==>
        o == Pass && pai == old(pai) + [StripDirection(p)] && found == old(found) + {Key(p)}
    {
      if !ValidPai(p) {
        return Fail(PaiFormat);
      }
      ValidPaiShape(p);
      var e := StripDirection(p);
      assert Entry(e) && Key(e) == Key(p);
      ghost var oldPai := pai;
      pai := pai + [e];
      found := found + {Key(p)};
      assert forall i :: 0 <= i < |oldPai| ==> pai[i] == oldPai[i];
      assert pai[|oldPai|] == e;
      KeysAppend(oldPai, e);
      return Pass;
    }

    /** `fulou(m)`, as `FulouSpec` says; the kinds recorded do not change. */
    method Fulou(m: string) returns (o: Outcome)
      requires Valid()
      modifies this
      ensures Valid() && found == old(found)
      ensures (pai, o) == FulouSpec(old(pai), m)
    {
      if ValidMianzi(m).None? {
        return Fail(MianziFormat);
      }
      o := MarkClaimed(Claimed(m), FirstDirection(m));
    }

    /** `fulou` once the meld is read: the last discard must be the claimed tile p. */
    method MarkClaimed(p: string, d: Option<char>) returns (o: Outcome)
      requires Valid()
      modifies this
      ensures Valid() && found == old(found)
      ensures (pai, o) == FulouMark(old(pai), p, d)
    {
      if d.None? {
        return Fail(InvalidOperation);
      }
      if |pai| == 0 {
        return Fail(IndexOutOfRange);
      }
      var last := pai[|pai| - 1];
      assert Entry(last);
      if last[..2] != p {
        return Fail(InvalidOperation);
      }
      MarkLast(d.value);
      return Pass;
    }

    /** The accepted call: the last discard gets the direction appended. */
    method MarkLast(d: char)
      requires Valid() && |pai| > 0
      modifies this
      ensures Valid() && found == old(found)
      ensures pai == old(pai)[|old(pai)| - 1 := old(pai)[|old(pai)| - 1] + [d]]
    {
      var last := pai[|pai| - 1];
      assert Entry(last);
      var e := last + [d];
      assert e[0] == last[0] && e[1] == last[1];
      KeysReplaceLast(pai, e);
      pai := pai[|pai| - 1 := e];
    }

    /**
     * `find(p)`: whether a tile of p's kind was ever discarded, called
     * later or not.  Text too short raises IndexError, a non-digit rank
     * ValueError.
     */
    function Find(p: string): (r: Result<bool>)
      requires Valid()
      reads this
      ensures |p| < 2 ==> r == Failure(IndexOutOfRange)
      ensures |p| >= 2 && !IsDigit(p[1]) ==> r == Failure(NotANumber)
      ensures |p| >= 2 && IsDigit(p[1]) ==>
        r.Success? && (r.value <==> exists i :: 0 <= i < |pai| && Key(pai[i]) == Key(p))
    {
      if |p| < 2 then Failure(IndexOutOfRange)
      else if !IsDigit(p[1]) then Failure(NotANumber)
      else Success(Key(p) in found)
    }
  }

  /** The pile of the tests: a red five is found as a five, with or without marks, also after it was called. */
  method FindExamples()
  {
    var he := new He();
    var o := he.Dapai("m0");
    assert ValidPai("m0");
    assert he.Find("m5") == Success(true);
    assert ValidPai("m0_*");
    assert he.Find("m0_*") == Success(true);
    o := he.Dapai("m4_");
    assert ValidPai("m4_");
    o := he.Fulou("m234-");
    assert he.Find("m4") == Success(true);
  }
}
