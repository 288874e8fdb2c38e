/**
 * Table bookkeeping (jongpy/core/board.py): the stub wall, seat winds,
 * the order of seats in a hand, scores, riichi deposits and the deferred
 * settlement of wins.  The hands and discard piles the board forwards
 * events to are not part of this model; only the board's own numbers are.
 */
module Board {
  import opened Wrappers

  /** Python's `id + 4 - qijia + 4 - jushu) % 4`: the seat wind of player `id`. */
  function MenfengOf(qijia: int, jushu: int, id: int): (r: int)
    ensures 0 <= r < 4
    ensures (r + qijia + jushu - id) % 4 == 0
  {
    (id + 4 - qijia + 4 - jushu) % 4
  }

  /** `(qijia + jushu + i) % 4`: the player sitting at seat i in this hand. */
  function SeatOf(qijia: int, jushu: int, i: int): (r: int)
    ensures 0 <= r < 4
  {
    (qijia + jushu + i) % 4
  }

  lemma ModShift(a: int, b: int)
    ensures (a % 4 + b) % 4 == (a + b) % 4
  {
    var q := a / 4;
    assert a == 4 * q + a % 4;
    assert a + b == (a % 4 + b) + 4 * q;
  }

  /** Seat wind and seat order are inverse to each other. */
  lemma MenfengOfSeat(qijia: int, jushu: int, i: int)
    requires 0 <= i < 4
    ensures MenfengOf(qijia, jushu, SeatOf(qijia, jushu, i)) == i
  {
    ModShift(qijia + jushu + i, 8 - qijia - jushu);
    assert qijia + jushu + i + 8 - qijia - jushu == i + 8;
  }

  lemma SeatOfMenfeng(qijia: int, jushu: int, id: int)
    requires 0 <= id < 4
    ensures SeatOf(qijia, jushu, MenfengOf(qijia, jushu, id)) == id
  {
    ModShift(id + 8 - qijia - jushu, qijia + jushu);
    assert id + 8 - qijia - jushu + qijia + jushu == id + 8;
  }

  /** The four seats of a hand go to four different players. */
  lemma SeatsDistinct(qijia: int, jushu: int, i: int, k: int)
    requires 0 <= i < 4 && 0 <= k < 4 && i != k
    ensures SeatOf(qijia, jushu, i) != SeatOf(qijia, jushu, k)
  {
    MenfengOfSeat(qijia, jushu, i);
    MenfengOfSeat(qijia, jushu, k);
  }

  /** The players of seats 0..3: four different ids in 0..3. */
  ghost predicate SeatOrder(ids: seq<int>)
  {
    |ids| == 4
    && (forall i :: 0 <= i < 4 ==> 0 <= ids[i] < 4)
    && (forall i, k :: 0 <= i < k < 4 ==> ids[i] != ids[k])
  }

  function Sum(s: seq<int>): int
  {
    if |s| == 0 then 0 else Sum(s[..|s| - 1]) + s[|s| - 1]
  }

  /** Changing one entry by d changes the total by d. */
  lemma {:induction false} SumUpdate(s: seq<int>, i: int, d: int)
    requires 0 <= i < |s|
    ensures Sum(s[i := s[i] + d]) == Sum(s) + d
  {
    var t := s[i := s[i] + d];
    if i == |s| - 1 {
      assert t[..|t| - 1] == s[..|s| - 1];
    } else {
      assert t[..|t| - 1] == s[..|s| - 1][i := s[i] + d];
      SumUpdate(s[..|s| - 1], i, d);
    }
  }

  lemma SumPrefix(s: seq<int>, i: int)
    requires 0 <= i < |s|
    ensures Sum(s[..i + 1]) == Sum(s[..i]) + s[i]
  {
    assert s[..i + 1][..i] == s[..i];
  }

  /** A settlement moves points between players without creating any: its entries sum to its effect. */
  ghost predicate Settled(before: seq<int>, after: seq<int>, ids: seq<int>, f: seq<int>)
    requires SeatOrder(ids) && |before| == 4 && |after| == 4 && |f| >= 4
  {
    forall i :: 0 <= i < 4 ==> after[ids[i]] == before[ids[i]] + f[i]
  }

  /** The stub wall (board.py `Shan`): a tile counter and the dora indicators. */
  class Shan {
    /** `paishu`: tiles left to draw. */
    var paishu: int
    /** `baopai`: the dora indicators shown so far. */
    var baopai: seq<string>
    /** `fubaopai`: the ura-dora indicators, known after a win. */
    var fubaopai: Option<seq<string>>

    /** `Shan(baopai)`: 136 - 13 * 4 - 14 = 70 tiles to draw, one indicator shown. */
    constructor (b: string)
      ensures paishu == 70 && baopai == [b] && fubaopai == None
    {
      paishu := 136 - 13 * 4 - 14;
      baopai := [b];
      fubaopai := None;
    }

    /** `zimo(p)`: one tile fewer; the drawn tile, `_` when it is not known. */
    method Zimo(p: Option<string>) returns (t: string)
      modifies this
      ensures paishu == old(paishu) - 1 && baopai == old(baopai) && fubaopai == old(fubaopai)
      ensures t == (if p.Some? && p.value != "" then p.value else "_")
    {
      paishu := paishu - 1;
      if p.Some? && p.value != "" {
        t := p.value;
      } else {
        t := "_";
      }
    }

    /** `kaigang(baopai)`: one more indicator. */
    method Kaigang(b: string)
      modifies this
      ensures baopai == old(baopai) + [b] && paishu == old(paishu) && fubaopai == old(fubaopai)
    {
      baopai := baopai + [b];
    }
  }

  class Board {
    const title: string
    const player: seq<string>
    const qijia: int
    var zhuangfeng: int
    var jushu: int
    var changbang: int
    var lizhibang: int
    /** `defen`: the score of each player, by player id. */
    const defen: array<int>
    /** `player_id`: the player at each seat of the current hand. */
    const playerId: array<int>
    /** `lunban`: the seat whose turn it is (-1 before the first draw). */
    var lunban: int
    /** `_lizhi`: the last discard declared riichi and its deposit is not yet paid. */
    var lizhiPending: bool
    /** `_fenpei`: the score changes of the last win, applied when the next win is announced. */
    var fenpei: Option<seq<int>>
    var shan: Shan?

    ghost predicate Valid()
      reads this, playerId
    {
      defen.Length == 4 && playerId.Length == 4 && defen != playerId
      && SeatOrder(playerId[..])
      && (fenpei.Some? ==> |fenpei.value| >= 4)
    }

    /** A hand has been dealt: the wall exists. */
    predicate Dealt()
      reads this
    {
      shan != null
    }

    /** The seat the pending riichi deposit is charged to; Python reads a negative index from the back. */
    predicate PendingSeatOk()
      reads this
    {
      lizhiPending ==> -4 <= lunban < 4
    }

    function PendingPlayer(): (r: int)
      requires Valid() && lizhiPending && -4 <= lunban < 4
      reads this, playerId
      ensures 0 <= r < 4
    {
      playerId[if lunban < 0 then lunban + 4 else lunban]
    }

    /** `Board(kaiju)` / `kaiju`: no hand dealt, seats in id order, no deposits. */
    constructor (t: string, players: seq<string>, q: int)
      ensures Valid() && !Dealt() && fresh(defen) && fresh(playerId)
      ensures title == t && player == players && qijia == q
      ensures zhuangfeng == 0 && jushu == 0 && changbang == 0 && lizhibang == 0
      ensures defen[..] == [0, 0, 0, 0] && playerId[..] == [0, 1, 2, 3]
      ensures lunban == -1 && !lizhiPending && fenpei == None
    {
      title := t;
      player := players;
      qijia := q;
      zhuangfeng := 0;
      jushu := 0;
      changbang := 0;
      lizhibang := 0;
      defen := new int[4](_ => 0);
      playerId := new int[4](i => i);
      shan := null;
      lunban := -1;
      lizhiPending := false;
      fenpei := None;
      new;
      assert playerId[..] == [0, 1, 2, 3];
    }

    /** `menfeng(id)`: the seat wind of player id in the current hand. */
    function Menfeng(id: int): (r: int)
      reads this
      ensures 0 <= r < 4 && (r + qijia + jushu - id) % 4 == 0
    {
      MenfengOf(qijia, jushu, id)
    }

    /**
     * `qipai`: starts a hand.  Seat i goes to player (qijia + jushu + i) % 4,
     * whose score becomes the i-th given one, and whose seat wind is then i.
     */
    method Qipai(zf: int, js: int, cb: int, lb: int, scores: seq<int>, baopai: string)
      requires Valid() && |scores| >= 4
      modifies this, defen, playerId
      ensures Valid() && Dealt() && fresh(shan)
      ensures shan.paishu == 70 && shan.baopai == [baopai] && shan.fubaopai == None
      ensures zhuangfeng == zf && jushu == js && changbang == cb && lizhibang == lb
      ensures forall i :: 0 <= i < 4 ==> playerId[i] == SeatOf(qijia, js, i)
      ensures forall i :: 0 <= i < 4 ==> defen[playerId[i]] == scores[i] && Menfeng(playerId[i]) == i
      ensures lunban == -1 && !lizhiPending && fenpei == None
    {
      var i := 0;
      while i < 4
        invariant 0 <= i <= 4
        invariant forall k :: 0 <= k < i ==> playerId[k] == SeatOf(qijia, js, k)
        invariant forall k :: 0 <= k < i ==> defen[SeatOf(qijia, js, k)] == scores[k]
      {
        playerId[i] := SeatOf(qijia, js, i);
        forall k | 0 <= k < i
          ensures SeatOf(qijia, js, k) != SeatOf(qijia, js, i)
        {
          SeatsDistinct(qijia, js, k, i);
        }
        defen[playerId[i]] := scores[i];
        i := i + 1;
      }
      zhuangfeng := zf;
      jushu := js;
      changbang := cb;
      lizhibang := lb;
      shan := new Shan(baopai);
      forall i, k | 0 <= i < k < 4
        ensures playerId[i] != playerId[k]
      {
        SeatsDistinct(qijia, js, i, k);
      }
      forall i | 0 <= i < 4
        ensures Menfeng(playerId[i]) == i
      {
        MenfengOfSeat(qijia, js, i);
      }
      lunban := -1;
      lizhiPending := false;
      fenpei := None;
    }

    /**
     * `lizhi`: settles a pending riichi: the discarder pays 1000 points
     * into one more deposit stick, once.  Points plus deposits are kept.
     */
    method Lizhi()
      requires Valid() && PendingSeatOk()
      modifies this, defen
      ensures Valid() && !lizhiPending
      ensures old(lizhiPending) ==>
        defen[..] == old(defen[..])[old(PendingPlayer()) := old(defen[PendingPlayer()]) - 1000]
        && lizhibang == old(lizhibang) + 1
      ensures !old(lizhiPending) ==> defen[..] == old(defen[..]) && lizhibang == old(lizhibang)
      ensures Sum(defen[..]) + 1000 * lizhibang == old(Sum(defen[..]) + 1000 * lizhibang)
      ensures changbang == old(changbang) && lunban == old(lunban) && fenpei == old(fenpei)
      ensures shan == old(shan) && jushu == old(jushu) && zhuangfeng == old(zhuangfeng)
    {
      if lizhiPending {
        var id := PendingPlayer();
        SumUpdate(defen[..], id, -1000);
        defen[id] := defen[id] - 1000;
        lizhibang := lizhibang + 1;
        lizhiPending := false;
      }
    }

    /** `zimo`: settles a pending riichi, gives the turn to seat l and draws from the wall. */
    method Zimo(l: int, p: Option<string>) returns (t: string)
      requires Valid() && Dealt() && PendingSeatOk() && 0 <= l < 4
      modifies this, defen, shan
      ensures Valid() && Dealt() && shan == old(shan) && lunban == l && !lizhiPending
      ensures old(lizhiPending) ==>
        defen[..] == old(defen[..])[old(PendingPlayer()) := old(defen[PendingPlayer()]) - 1000]
        && lizhibang == old(lizhibang) + 1
      ensures !old(lizhiPending) ==> defen[..] == old(defen[..]) && lizhibang == old(lizhibang)
      ensures Sum(defen[..]) + 1000 * lizhibang == old(Sum(defen[..]) + 1000 * lizhibang)
      ensures changbang == old(changbang) && fenpei == old(fenpei)
      ensures jushu == old(jushu) && zhuangfeng == old(zhuangfeng)
      ensures shan.paishu == old(shan.paishu) - 1 && shan.baopai == old(shan.baopai)
      ensures t == (if p.Some? && p.value != "" then p.value else "_")
    {
      Lizhi();
      lunban := l;
      t := shan.Zimo(p);
    }

    /** `dapai`: seat l discards p; a discard marked `*` declares riichi. */
    method Dapai(l: int, p: string)
      requires Valid() && 0 <= l < 4 && |p| > 0
      modifies this
      ensures Valid() && PendingSeatOk() && lunban == l
      ensures lizhiPending <==> p[|p| - 1] == '*'
      ensures lizhibang == old(lizhibang) && changbang == old(changbang) && fenpei == old(fenpei)
      ensures shan == old(shan) && jushu == old(jushu) && zhuangfeng == old(zhuangfeng)
    {
      lunban := l;
      lizhiPending := p[|p| - 1] == '*';
    }

    /** `fulou`: the discarder's riichi is settled before seat l takes the turn. */
    method Fulou(l: int)
      requires Valid() && PendingSeatOk() && 0 <= l < 4
      modifies this, defen
      ensures Valid() && lunban == l && !lizhiPending && shan == old(shan)
      ensures old(lizhiPending) ==>
        defen[..] == old(defen[..])[old(PendingPlayer()) := old(defen[PendingPlayer()]) - 1000]
        && lizhibang == old(lizhibang) + 1
      ensures !old(lizhiPending) ==> defen[..] == old(defen[..]) && lizhibang == old(lizhibang)
      ensures changbang == old(changbang) && fenpei == old(fenpei)
      ensures jushu == old(jushu) && zhuangfeng == old(zhuangfeng)
    {
      Lizhi();
      lunban := l;
    }

    /** `gang`: seat l declares a quad and keeps the turn. */
    method Gang(l: int)
      requires Valid() && 0 <= l < 4
      modifies this
      ensures Valid() && lunban == l && lizhiPending == old(lizhiPending) && shan == old(shan)
      ensures lizhibang == old(lizhibang) && changbang == old(changbang) && fenpei == old(fenpei)
      ensures jushu == old(jushu) && zhuangfeng == old(zhuangfeng)
    {
      lunban := l;
    }

    /** `kaigang`: a new dora indicator. */
    method Kaigang(b: string)
      requires Valid() && Dealt()
      modifies shan
      ensures shan.baopai == old(shan.baopai) + [b] && shan.paishu == old(shan.paishu)
    {
      shan.Kaigang(b);
    }

    /**
     * `hule`: a win is announced.  The score changes of the PREVIOUS win
     * (if any) are applied now, player by seat, and its sticks and
     * deposits are gone; this win's changes are kept for later.  So with
     * two winners on one discard the deposits go to the first only.
     */
    method Hule(fb: Option<seq<string>>, f: Option<seq<int>>)
      requires Valid() && Dealt() && (f.Some? ==> |f.value| >= 4)
      modifies this, defen, shan
      ensures Valid() && shan == old(shan) && shan.fubaopai == fb && fenpei == f
      ensures shan.paishu == old(shan.paishu) && shan.baopai == old(shan.baopai)
      ensures old(fenpei).Some? ==>
        changbang == 0 && lizhibang == 0
        && Settled(old(defen[..]), defen[..], playerId[..], old(fenpei).value)
        && Sum(defen[..]) == old(Sum(defen[..])) + Sum(old(fenpei).value[..4])
      ensures old(fenpei).None? ==>
        changbang == old(changbang) && lizhibang == old(lizhibang) && defen[..] == old(defen[..])
      ensures lunban == old(lunban) && lizhiPending == old(lizhiPending)
      ensures jushu == old(jushu) && zhuangfeng == old(zhuangfeng)
    {
      if fenpei.Some? {
        changbang := 0;
        lizhibang := 0;
        Settle(fenpei.value);
      }
      shan.fubaopai := fb;
      fenpei := f;
    }

    /** The loop of `hule`: each seat's player receives that seat's entry of g. */
    method Settle(g: seq<int>)
      requires Valid() && |g| >= 4
      modifies defen
      ensures Settled(old(defen[..]), defen[..], playerId[..], g)
      ensures Sum(defen[..]) == old(Sum(defen[..])) + Sum(g[..4])
    {
      var i := 0;
      while i < 4
        invariant 0 <= i <= 4
        invariant forall k :: 0 <= k < 4 ==>
          defen[playerId[k]] == old(defen[playerId[k]]) + (if k < i then g[k] else 0)
        invariant Sum(defen[..]) == old(Sum(defen[..])) + Sum(g[..i])
      {
        SumUpdate(defen[..], playerId[i], g[i]);
        SumPrefix(g, i);
        defen[playerId[i]] := defen[playerId[i]] + g[i];
        i := i + 1;
      }
    }

    /** `pingju`: an exhaustive or abortive draw settles a pending riichi, except a triple ron. */
    method Pingju(name: string)
      requires Valid() && PendingSeatOk()
      modifies this, defen
      ensures Valid() && shan == old(shan) && lunban == old(lunban)
      ensures TripleRon(name) ==>
        defen[..] == old(defen[..]) && lizhibang == old(lizhibang) && lizhiPending == old(lizhiPending)
      ensures !TripleRon(name) ==>
        !lizhiPending
        && (old(lizhiPending) ==>
              defen[..] == old(defen[..])[old(PendingPlayer()) := old(defen[PendingPlayer()]) - 1000]
              && lizhibang == old(lizhibang) + 1)
        && (!old(lizhiPending) ==> lizhibang == old(lizhibang) && defen[..] == old(defen[..]))
      ensures Sum(defen[..]) + 1000 * lizhibang == old(Sum(defen[..]) + 1000 * lizhibang)
      ensures changbang == old(changbang) && fenpei == old(fenpei)
      ensures jushu == old(jushu) && zhuangfeng == old(zhuangfeng)
    {
      if !TripleRon(name) {
        Lizhi();
      }
    }

    /** `jieju`: the final scores of the game; the turn goes back one seat. */
    method Jieju(scores: seq<int>)
      requires Valid() && |scores| >= 4
      modifies this, defen
      ensures Valid() && defen[..] == scores[..4] && lunban == old(lunban) - 1
      ensures lizhibang == old(lizhibang) && lizhiPending == old(lizhiPending) && shan == old(shan)
      ensures changbang == old(changbang) && fenpei == old(fenpei)
      ensures jushu == old(jushu) && zhuangfeng == old(zhuangfeng)
    {
      var id := 0;
      while id < 4
        invariant 0 <= id <= 4
        invariant defen[..id] == scores[..id]
        invariant unchanged(this)
      {
        defen[id] := scores[id];
        id := id + 1;
      }
      lunban := lunban - 1;
    }
  }

  /** `re.search(r'^三家和', name)`: the draw is a triple ron. */
  predicate TripleRon(name: string)
  {
    |name| >= 3 && name[..3] == "三家和"
  }

  /**
   * The double ron of the tests: with qijia 1 and jushu 2 the seats go to
   * players 3, 0, 1, 2, and the first winner's score changes, paid out
   * when the second win is announced, give the final scores.
   */
  lemma DoubleRonExample(after: seq<int>)
    requires |after| == 4
    requires SeatOrder([3, 0, 1, 2])
    requires Settled([20000, 30000, 36000, 10000], after, [3, 0, 1, 2], [0, -2900, 6900, 0])
    ensures after == [17100, 36900, 36000, 10000]
    ensures forall i :: 0 <= i < 4 ==> SeatOf(1, 2, i) == [3, 0, 1, 2][i]
  {
    var before, ids, f := [20000, 30000, 36000, 10000], [3, 0, 1, 2], [0, -2900, 6900, 0];
    forall i | 0 <= i < 4
      ensures after[ids[i]] == before[ids[i]] + f[i]
    {
    }
    assert after[ids[0]] == 10000 && after[ids[1]] == 17100;
    assert after[ids[2]] == 36900 && after[ids[3]] == 36000;
  }
}
