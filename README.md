# jongpy core in Dafny

A Dafny model of the core of jongpy, a Python library for Japanese riichi
mahjong, with proofs about that model. It covers:

- the hand (`Shoupai`):
  - its tile counts, declared melds, draw slot and riichi flag;
  - the tile and meld notation it reads and writes;
  - its moves: draw, discard, call, quad;
  - its queries: which tiles may be discarded, which chows, pungs and quads
    may be called.
- the shanten number (`xiangting`), the distance to a complete hand:
  - of the standard shape (a pair and four melds);
  - of seven pairs (`qidui`);
  - of thirteen orphans (`goushi`).
- the search for the readings of a winning hand (`hule_mianzi`):
  - standard shape, seven pairs, thirteen orphans and nine gates (`jiulian`);
  - marking of the winning tile in each reading.
- the pattern lists that depend on the situation and on dora (`get_pre_hupai`,
  `get_post_hupai`).
- the dora indicator (`zhenbaopai`).
- the discard pile (`He`).
- the table's bookkeeping (`Board` and its stub wall `Shan`).
- the rule filters of the game loop (`Game.get_*_`, `allow_pingju_`,
  `allow_no_daopai`).
- the rule table (`rule`).

Modules:

| module | models |
|---|---|
| `Wrappers`, `Exceptions` | `Option`/`Result` and the library's exception kinds |
| `Notation` | `valid_pai`, `valid_mianzi` and the string helpers they rely on |
| `ShoupaiSpec` | the hand as a value (`HandState`, `Bingpai`) and the functions that specify each move |
| `Shoupai` | the `Shoupai` class over four count arrays, its moves and queries |
| `ShoupaiMoves` | the specifications of `get_dapai`, `get_chi_mianzi`, `get_peng_mianzi`, `get_gang_mianzi` |
| `ShoupaiText` | `__str__` and `from_string` |
| `Xiangting` | `jongpy/core/xiangting.py` |
| `Hule`, `HuleForms` | `hule_mianzi` and its searches, `mianzi_all`, `mianzi`, `add_hulepai` |
| `Hupai` | `get_pre_hupai`, `get_post_hupai` |
| `Shan` | `Shan.zhenbaopai` |
| `He` | the `He` class |
| `Board` | the `Shan` stub and the `Board` class of `board.py` |
| `Game` | the static filters of `Game` |
| `Rule` | `rule()` |

How the model is built:

- Where the source updates state in place, the model is imperative: classes
  with array fields, loops with invariants, and searches that take tiles out
  of a count array, recurse and put the tiles back. Examples: the hand's
  count lists, the shanten and winning-form searches, the discard pile and
  the board.
- Each such method is proved equal to a specification function over values.
  The properties the source promises are then proved about those functions as
  lemmas: soundness and completeness of the query lists, ranges and
  "exactly when" conditions of the shanten numbers, the shape of each winning
  reading, and the preserved invariants.

## Model

| member | source | states |
|---|---|---|
| Notation.ValidPaiShape | jongpy/core/shoupai.py:107-124 | a well-formed tile is a suit letter, a digit (1-7 for honours), then at most three marks that are neither digits nor suit letters |
| Notation.ValidPaiExamples | tests/core/test_shoupai.py:7-11 | `m1` and `p0-` are tiles; `z` and `_` are not |
| Notation.Replace | jongpy/core/shoupai.py:145 | `replace` of one character keeps the length and swaps exactly the matching positions |
| Notation.SubRedFivePermutes | jongpy/core/shoupai.py:147-149 | moving a leading red five behind a plain five keeps the multiset of characters |
| Notation.ClaimedDigit | jongpy/core/game.py:216 | the digit found is followed by a direction; when none is found, no digit in the text is followed by one |
| Notation.Sort | jongpy/core/shoupai.py:151-169 | the sorted digits are a permutation of the input |
| Notation.SortOrdered | jongpy/core/shoupai.py:151-169 | under any total order (digits ascending, digits descending, tokens by code point) the result is in order |
| Notation.SortKeepsOrdered | jongpy/core/shoupai.py:151-169 | a list already in order is returned unchanged |
| Notation.ValidMianzi | jongpy/core/shoupai.py:127-174 | a meld accepted has at least three characters and starts with a suit letter, and the text returned is not empty |
| Notation.ValidMianziNormal | jongpy/core/shoupai.py:127-174 | what `valid_mianzi` returns is a normal form: checked again, it is accepted and returned unchanged (pungs, quads and chows alike) |
| ShoupaiSpec.AcceptedMeldKinds | jongpy/core/shoupai.py:127-174 | every meld returned is in normal form and each of its digits names a slot of its suit |
| ShoupaiSpec.AddPaiValid | jongpy/core/shoupai.py:27-46 | adding one tile keeps the counts valid; it succeeds exactly when the kind (and, for a red five, the five) has fewer than four copies; a success adds one tile |
| ShoupaiSpec.QipaiCountsValid | jongpy/core/shoupai.py:27-46 | from valid counts, a successful initial list gives valid counts holding one more tile per entry |
| ShoupaiSpec.QipaiCountsAgree | jongpy/core/shoupai.py:27-46 | wherever the corrected count accepts a list, the constructor as written gives the same counts |
| ShoupaiSpec.FifthRedFiveAccepted | jongpy/core/shoupai.py:39-46 | the constructor as written accepts m5 m5 m5 m5 m0 and holds five m5; the corrected count refuses it with `PaiOverFlow` |
| ShoupaiSpec.BumpTotal | jongpy/core/shoupai.py:298-303 | adding d to a rank slot changes the tile total by d |
| ShoupaiSpec.DecreaseValid | jongpy/core/shoupai.py:430-441 | `_decrease` fails exactly when the kind is missing and no face-down tile is left; otherwise it removes one tile and keeps the counts valid |
| ShoupaiSpec.DecreaseEachValid | jongpy/core/shoupai.py:370-373 | each successful removal in a call takes one tile; the counts stay valid throughout |
| ShoupaiSpec.ZimoProperties | jongpy/core/shoupai.py:265-304 | a draw succeeds exactly when the slot may take a tile and the tile is face-down or well formed and not a fifth copy; it then fills the slot with one more tile; a refused second draw and a malformed tile change nothing; a fifth copy is refused with the hand unchanged, except that a red five refused for a fifth plain five keeps its raised red count, as the source raises it before the check; melds and riichi never change |
| ShoupaiSpec.DapaiProperties | jongpy/core/shoupai.py:306-336 | a discard succeeds exactly when the slot is filled, the tile is well formed and held (or a face-down tile is); it empties the slot, removes one tile, and sets riichi on `*`; a refusal changes nothing |
| ShoupaiSpec.FulouGuards | jongpy/core/shoupai.py:354-368 | a call is refused with a drawn tile, with a meld not in normal form, and with a concealed or added quad, before any count changes |
| ShoupaiSpec.FulouPath | jongpy/core/shoupai.py:370-373 | an accepted call removes exactly the meld's unclaimed tiles, one by one, in digit order |
| ShoupaiSpec.FulouRefused | jongpy/core/shoupai.py:354-373 | a refused call leaves melds and draw slot alone |
| ShoupaiSpec.FulouAccepted | jongpy/core/shoupai.py:370-379 | an accepted call adds the meld and removes its unclaimed tiles; unless it is a claimed quad it then occupies the slot so that a discard must follow; riichi is untouched |
| ShoupaiSpec.FulouStopped | jongpy/core/shoupai.py:370-373 | a call stopped by a missing tile keeps the counts removed so far and nothing else |
| ShoupaiSpec.FulouSettled | jongpy/core/shoupai.py:374-379 | the state a completed call reaches |
| ShoupaiSpec.FulouEndsMenqian | jongpy/core/shoupai.py:443-446 | after a call the hand is no longer closed |
| ShoupaiSpec.GangGuards | jongpy/core/shoupai.py:397-405 | a quad is refused without a drawn tile, right after a call, and for a meld not in normal form, before any count changes |
| ShoupaiSpec.GangRefused | jongpy/core/shoupai.py:397-426 | a refused quad keeps slot and riichi, and the counts stay valid |
| ShoupaiSpec.GangConcealedPath | jongpy/core/shoupai.py:408-412 | a concealed quad removes its four tiles in digit order |
| ShoupaiSpec.GangConcealed | jongpy/core/shoupai.py:408-428 | a concealed quad joins the melds with its four tiles taken from the hand, and the slot empties |
| ShoupaiSpec.GangAddedPath | jongpy/core/shoupai.py:414-423 | an added quad removes the added tile and replaces the declared pung it extends |
| ShoupaiSpec.GangAdded | jongpy/core/shoupai.py:414-428 | an added quad replaces that pung in place, with one tile taken from the hand |
| ShoupaiSpec.ConcealedGangKeepsMenqian | jongpy/core/shoupai.py:443-446 | a concealed quad leaves a closed hand closed and an open hand open |
| ShoupaiSpec.AddedGangOpen | jongpy/core/shoupai.py:443-446 | an added quad extends a claimed pung, so the hand is open before it and after it |
| ShoupaiSpec.NormalMeldShape | jongpy/core/shoupai.py:127-174 | a meld in normal form is a pung, a quad or a chow text, and never an honour with a bad rank |
| ShoupaiSpec.NormalMeldKinds | jongpy/core/shoupai.py:127-174 | each digit of a normal-form meld names a slot of its suit |
| ShoupaiSpec.CalledMeldMarked | jongpy/core/shoupai.py:127-174 | every normal-form meld except a concealed quad carries a seat mark |
| ShoupaiSpec.ConcealedQuadUnmarked | jongpy/core/shoupai.py:127-174 | a normal-form concealed quad carries no seat mark |
| Shoupai.Shoupai.constructor | jongpy/core/shoupai.py:15-26 | a new hand is empty and valid |
| Shoupai.Shoupai.Create | jongpy/core/shoupai.py:15-46 | corrected (see Findings: shoupai.py:39-46): `Shoupai(qipai)` holds the listed tiles, or fails with the error of the first malformed tile or fifth copy, a fifth five included |
| Shoupai.Shoupai.AddTile | jongpy/core/shoupai.py:27-46 | one entry of the initial list is counted as `QipaiStep` says; on failure nothing changes |
| Shoupai.Shoupai.Copy | jongpy/core/shoupai.py:223-239 | the copy has equal contents and arrays of its own |
| Shoupai.Shoupai.Zimo | jongpy/core/shoupai.py:265-304 | the new state and outcome are those of `ZimoSpec` |
| Shoupai.Shoupai.Decrease | jongpy/core/shoupai.py:430-441 | the new counts are those of `DecreaseSpec`; on failure nothing changes |
| Shoupai.Shoupai.Dapai | jongpy/core/shoupai.py:306-336 | the new state and outcome are those of `DapaiSpec` |
| Shoupai.Shoupai.DecreaseAll | jongpy/core/shoupai.py:370-373 | the removals of a call, stopping at the first failure, are those of `DecreaseEach` |
| Shoupai.Shoupai.Fulou | jongpy/core/shoupai.py:338-379 | the new state and outcome are those of `FulouSpec` |
| Shoupai.Shoupai.Gang | jongpy/core/shoupai.py:381-428 | the new state and outcome are those of `GangSpec` |
| Shoupai.Shoupai.GetDapai | jongpy/core/shoupai.py:453-513 | the loop over the count arrays yields `GetDapaiSpec` |
| Shoupai.Shoupai.GetChiMianzi | jongpy/core/shoupai.py:515-588 | the chow list computed over the arrays is `ChiSpec` |
| Shoupai.Shoupai.GetPengMianzi | jongpy/core/shoupai.py:590-636 | corrected (see Findings: shoupai.py:631-632): the pung list computed over the arrays is `PengSpec`, which offers the pung of a red and a plain five only when a plain five is held |
| Shoupai.Shoupai.GetGangMianzi | jongpy/core/shoupai.py:638-723 | the quad list computed over the arrays is `GangMianziSpec` |
| ShoupaiMoves.DenyList | jongpy/core/shoupai.py:473-484 | after a call the claimed kind is denied, and for a chow claimed at one end also the kind three ranks beyond; a meld with no claimed digit fails |
| ShoupaiMoves.GetDapaiNone | jongpy/core/shoupai.py:468-484 | the discard list is None exactly when the slot is empty, and fails only for a called meld naming no claimed tile |
| ShoupaiMoves.GetDapaiLizhi | jongpy/core/shoupai.py:488-511 | after riichi only the drawn tile may be discarded |
| ShoupaiMoves.GetDapaiSound | jongpy/core/shoupai.py:486-511 | every choice other than the drawn tile is a held tile whose kind is not denied |
| ShoupaiMoves.GetDapaiComplete | jongpy/core/shoupai.py:486-511 | every held kind that is not denied is offered |
| ShoupaiMoves.ChiGuards | jongpy/core/shoupai.py:533-552 | the chow list is None exactly with a drawn tile, fails exactly for a malformed tile or one without a direction, and is empty for an honour, a tile not from the left, or after riichi |
| ShoupaiMoves.ChiSound | jongpy/core/shoupai.py:554-588 | every chow offered uses the claimed tile and two held tiles of consecutive ranks in its suit; with `check`, the kinds the hand could not discard afterwards (where the claimed tile sits decides which) number fewer than 14 − 3·(melds + 1) |
| ShoupaiMoves.ChiComplete | jongpy/core/shoupai.py:558-586 | whenever the hand holds the other two tiles of a chow with the claimed tile in a given position (and it passes the swap-call test under `check`), such a chow is offered |
| ShoupaiMoves.ChiCheckFewer | jongpy/core/shoupai.py:558-586 | the swap-call test only removes chows, and removes none with no declared meld |
| ShoupaiMoves.ChiExamples | tests/core/test_shoupai.py:39-43 | the chows of two concrete hands for p4 from the left |
| ShoupaiMoves.PengGuards | jongpy/core/shoupai.py:606-623 | the pung list is None exactly with a drawn tile, and fails exactly for a malformed tile or one without a direction |
| ShoupaiMoves.PengSound | jongpy/core/shoupai.py:625-634 | every pung offered is made of tiles the hand holds |
| ShoupaiMoves.PengComplete | jongpy/core/shoupai.py:622-634 | a pung is offered exactly when the hand holds two of the kind and is not in riichi |
| ShoupaiMoves.PengAsWrittenOffersMissingFive | jongpy/core/shoupai.py:631-632 | as written, two red fives and no plain five are offered the pung `m505+` |
| ShoupaiMoves.PengExample | tests/core/test_shoupai.py:45-47 | the pungs offered for p5 with one plain and two red p5 |
| ShoupaiMoves.GangGuardsQuery | jongpy/core/shoupai.py:659-692 | the quad query is None exactly in the cases the source returns None, and fails exactly for a malformed claimed tile or one without a direction |
| ShoupaiMoves.GangOpenSound | jongpy/core/shoupai.py:675-685 | a claimed quad is offered exactly when three of the kind are held outside riichi, and it is those three tiles, red fives kept, then the claimed tile |
| ShoupaiMoves.GangClosedSound | jongpy/core/shoupai.py:687-721 | every quad offered without a tile is four held tiles or a declared pung extended by a held tile; after riichi only the concealed quad of the drawn kind |
| ShoupaiMoves.GangClosedComplete | jongpy/core/shoupai.py:687-721 | every concealed or added quad the hand can make is offered |
| ShoupaiMoves.GangOpenExample | tests/core/test_shoupai.py:49-53 | a red five from the right seat completes a quad that keeps its red five |
| ShoupaiText.JoinSplit | jongpy/core/shoupai.py:62-63 | joining the pieces of a split gives the text back |
| ShoupaiText.SplitJoin | jongpy/core/shoupai.py:62-63 | splitting joined pieces without the separator gives the pieces back |
| ShoupaiText.RankTextCounts | jongpy/core/shoupai.py:183-201 | rank 5 is written as one `0` per red five, then 5s; any other rank as its digit, once per copy |
| ShoupaiText.ToString | jongpy/core/shoupai.py:176-221 | `__str__` writes `StrSpec` |
| ShoupaiText.StrLayout | jongpy/core/shoupai.py:176-221 | the text splits at commas into the concealed part, each meld in turn, and an empty piece right after a call |
| ShoupaiText.ReadMeldsNormal | jongpy/core/shoupai.py:85-96 | melds already in normal form are all kept, in order; an empty text after them puts the last one in the draw slot |
| ShoupaiText.StrMeldsRoundTrip | jongpy/core/shoupai.py:62-102 | when `from_string` succeeds on the text `__str__` writes, the melds come back in order, riichi is kept, and a meld just called is back in the draw slot |
| ShoupaiText.StrRiichi | jongpy/core/shoupai.py:177-212 | the concealed part ends in `*` exactly after riichi |
| ShoupaiText.ConcealedNoComma | jongpy/core/shoupai.py:177-212 | the concealed part holds no comma |
| ShoupaiText.MeldsTextJoin | jongpy/core/shoupai.py:214-219 | the melds follow the concealed part as a comma-separated list |
| ShoupaiText.FromStringAgree | jongpy/core/shoupai.py:49-104 | on a non-empty concealed part, wherever the corrected reading succeeds, `from_string` as written gives the same hand |
| ShoupaiText.FromString | jongpy/core/shoupai.py:49-104 | corrected (see Findings: shoupai.py:39-46 and shoupai.py:102): `from_string` builds the hand of `FromStringSpec`, or fails with its error; the tiles go through the corrected constructor, so a fifth five is refused |
| ShoupaiText.ReadMeldsMeaning | jongpy/core/shoupai.py:85-96 | the meld loop keeps the valid melds, normalised, up to the first empty text, and then puts the last kept meld in the draw slot |
| ShoupaiText.FromStringMelds | jongpy/core/shoupai.py:85-96 | the melds read are the valid meld texts before the first empty one, normalised |
| ShoupaiText.FromStringCalled | jongpy/core/shoupai.py:88-91 | after an empty meld text the last kept meld sits in the draw slot |
| ShoupaiText.TilesOfEntries | jongpy/core/shoupai.py:66-74 | every tile read from the concealed part is face-down or well formed |
| ShoupaiText.FromStringRefusal | jongpy/core/shoupai.py:66-82 | `from_string` fails only on a fifth copy |
| ShoupaiText.FromStringBound | jongpy/core/shoupai.py:77 | the hand holds at most 14 tiles less three per non-empty meld text, exactly that many when enough are written, and its counts are valid |
| ShoupaiText.FromStringDrawn | jongpy/core/shoupai.py:79-99 | unless a meld was just called, the last tile kept is the drawn tile exactly when the tile count is 2, 5, 8, 11 or 14 |
| ShoupaiText.FromStringRiichi | jongpy/core/shoupai.py:102 | riichi is read from a `*` ending the concealed part |
| ShoupaiText.FromStringEmptyText | jongpy/core/shoupai.py:102 | `from_string('')` as written fails, where the corrected reading gives the empty hand |
| Xiangting.FormulaRange | jongpy/core/xiangting.py:83-119 | `_xiangting` of non-negative counts lies in -1..13 and is -1 exactly with a pair and four melds |
| Xiangting.FormulaMonotone | jongpy/core/xiangting.py:83-119 | more partials or isolated tiles never raise `_xiangting` |
| Xiangting.Dazi | jongpy/core/xiangting.py:183-202 | the loop computes `DaziSpec` |
| Xiangting.DaziTiles | jongpy/core/xiangting.py:183-202 | the partials and isolated tiles of `dazi` account for every tile, with no negative count |
| Xiangting.Mianzi | jongpy/core/xiangting.py:122-180 | the in-place search returns `MianziSpec` and leaves the list as it was |
| Xiangting.SearchWithoutRun | jongpy/core/xiangting.py:149-156 | the run branch takes n, n+1, n+2 out, returns the search of the smaller row, and leaves the row as it was |
| Xiangting.SearchWithoutPung | jongpy/core/xiangting.py:167-170 | the triplet branch takes three of rank n out, returns the search of the smaller row, and leaves the row as it was |
| Xiangting.AllSplitsTiles | jongpy/core/xiangting.py:122-180 | every split the search explores uses exactly the suit's tiles |
| Xiangting.MianziOptimal | jongpy/core/xiangting.py:122-180 | the search keeps the best split of all it explores, for pattern A and for pattern B |
| Xiangting.MianziTally | jongpy/core/xiangting.py:122-180 | both patterns use exactly the suit's tiles; A has no more isolated tiles than B, and B no fewer melds than A |
| Xiangting.MianziAll | jongpy/core/xiangting.py:241-278 | the in-place computation returns `MianziAllSpec` and leaves the hand as it was |
| Xiangting.ScanCombinations | jongpy/core/xiangting.py:263-278 | the nested loops over the eight combinations compute `ScanM` |
| Xiangting.InnerScanFinal | jongpy/core/xiangting.py:272-276 | the evaluations inside the slot loop give the same minimum as the final one |
| Xiangting.MianziAllMinimum | jongpy/core/xiangting.py:241-278 | `mianzi_all` is the least of 13 and the eight combinations, so it lies in -1..13 |
| Xiangting.MianziAllComplete | jongpy/core/xiangting.py:241-278 | `mianzi_all` is -1 exactly when a pair was set aside and some combination has four melds |
| Xiangting.XiangtingYiban | jongpy/core/xiangting.py:205-238 | the pair loop returns `YibanSpec` and leaves the hand as it was |
| Xiangting.PairAside | jongpy/core/xiangting.py:227-232 | one pair taken out, searched, and put back |
| Xiangting.YibanMinimum | jongpy/core/xiangting.py:220-232 | the loop keeps the least value over no pair and every held pair |
| Xiangting.YibanRange | jongpy/core/xiangting.py:205-238 | the standard shanten lies in -1..13, is -1 exactly when some pair leaves four melds, and is never -1 right after a call |
| Xiangting.XiangtingGoushi | jongpy/core/xiangting.py:9-41 | the loops compute `GoushiSpec` |
| Xiangting.YaojiuTallyCounts | jongpy/core/xiangting.py:27-38 | the first count reaches k exactly when all of the first k terminal and honour kinds are held, the second is positive exactly when one is held twice |
| Xiangting.GoushiRange | jongpy/core/xiangting.py:9-41 | without a meld the value lies in -1..13 and is -1 exactly when all thirteen kinds are held and one twice |
| Xiangting.GoushiExample | tests/core/test_xiangting.py:14-22 | a concrete hand is two from thirteen orphans |
| Xiangting.XiangtingQidui | jongpy/core/xiangting.py:44-80 | the loops compute `QiduiSpec` |
| Xiangting.QiduiRange | jongpy/core/xiangting.py:44-80 | without a meld the value lies in -1..13 and is -1 exactly with seven kinds held twice or more |
| Xiangting.QiduiExample | tests/core/test_xiangting.py:14-22 | four pairs and six single kinds are two from seven pairs |
| Xiangting.QiduiSixExample | tests/core/test_xiangting.py:18-22 | m11144p33366s8899 is one from seven pairs: six kinds held at least twice, a triplet counting as one pair |
| Xiangting.Xiangting | jongpy/core/xiangting.py:281-299 | `xiangting` returns `XiangtingSpec` and leaves the hand as it was |
| Xiangting.XiangtingRange | jongpy/core/xiangting.py:281-299 | the shanten number lies in -1..13 and is at most that of each shape |
| Hule.Mianzi | jongpy/core/hule.py:307-340 | the in-place search returns `Readings` and leaves the counts as they were |
| Hule.MianziRun | jongpy/core/hule.py:317-328 | the run branch prefixes the run to each reading of the rest |
| Hule.MianziTriplet | jongpy/core/hule.py:330-337 | the triplet branch prefixes the triplet to each reading of the rest |
| Hule.PrefixEach | jongpy/core/hule.py:327-328 | the block is put in front of every reading |
| Hule.ReadingsSound | jongpy/core/hule.py:307-340 | each reading of a suit is runs and triplets of that suit holding exactly its tiles |
| Hule.ReadingsComplete | jongpy/core/hule.py:307-340 | conversely, every split of a suit's tiles (at most four per rank) into runs and triplets is listed, with the same blocks in the search's order |
| Hule.CrossMembers | jongpy/core/hule.py:282-288 | the suit loop's product holds exactly one reading of each list joined |
| Hule.CrossSuit | jongpy/core/hule.py:283-288 | one pass of the suit loop joins every reading so far with every reading of the suit |
| Hule.Zipai | jongpy/core/hule.py:291-297 | the honour loop computes `HonourTriplets` |
| Hule.HonourTripletsIff | jongpy/core/hule.py:291-297 | the honour loop succeeds exactly when each honour is held zero or three times, and then lists one triplet per honour held |
| Hule.NormalFulou | jongpy/core/hule.py:300 | each declared meld with red fives written as fives |
| Hule.MianziAll | jongpy/core/hule.py:277-304 | the in-place computation returns `MianziAllSpec` and leaves the hand as it was |
| Hule.MianziAllParts | jongpy/core/hule.py:277-304 | each reading is an m, a p and an s reading, then the honour triplets, then the declared melds |
| Hule.MianziAllHas | jongpy/core/hule.py:277-304 | conversely, any m, p and s readings joined with the honour triplets and the declared melds are a reading |
| Hule.MianziAllCount | jongpy/core/hule.py:277-304 | three times the concealed blocks of a reading is the number of tiles held |
| Hule.MianziAllHonours | jongpy/core/hule.py:292-296 | an honour held once, twice or four times leaves no reading |
| Hule.MarkBlock | jongpy/core/hule.py:346-348 | the greedy substitution marks a matching block with two more characters and leaves other blocks alone |
| Hule.MarkBlockPlace | jongpy/core/hule.py:346-348 | the mark goes right after the last copy of the winning rank |
| Hule.AddHulepai | jongpy/core/hule.py:343-365 | the loop over the blocks computes `MarkedReadings` |
| Hule.MarkedReadingsIff | jongpy/core/hule.py:353-363 | the readings returned are exactly the markings of the markable blocks: concealed, not a repeat of the block before, matching the winning tile |
| Hule.MarkedOnce | jongpy/core/hule.py:343-365 | each reading returned carries exactly one mark, on a concealed block holding the winning tile, all else unchanged |
| Hule.HuleMianziYiban | jongpy/core/hule.py:81-102 | the in-place pair loop returns `YibanSpec` and leaves the hand as it was |
| Hule.YibanReading | jongpy/core/hule.py:81-102 | each standard reading has five blocks, a held pair first, exactly one winning mark, from a hand of 14 less three per meld tiles |
| Hule.YibanComplete | jongpy/core/hule.py:81-102 | conversely, every split of the hand into a held pair, runs and triplets, honour triplets and declared melds, five blocks in all, is returned (its blocks in the search's order) with the winning tile marked on any concealed block of it that holds the tile |
| HuleForms.HuleMianziQidui | jongpy/core/hule.py:105-125 | the loops compute `QiduiForms` |
| HuleForms.QiduiScanSome | jongpy/core/hule.py:113-123 | the scan goes through exactly when every kind is held zero or two times |
| HuleForms.QiduiScanPairs | jongpy/core/hule.py:113-123 | a scan that goes through lists one pair per kind held twice, each the pair of a kind held twice, marked when it is the winning kind |
| HuleForms.QiduiFormsIff | jongpy/core/hule.py:105-125 | a seven-pairs reading exists exactly with no meld and seven kinds held twice and nothing else; the seven-pairs shanten is then -1 |
| HuleForms.HuleMianziGoushi | jongpy/core/hule.py:128-152 | the loops compute `GoushiForms` |
| HuleForms.GoushiScanSome | jongpy/core/hule.py:137-150 | the scan goes through exactly when each terminal and honour is held once or twice |
| HuleForms.GoushiScanShape | jongpy/core/hule.py:137-150 | a scan that goes through has one block per kind, counts the kinds held twice, and puts the pair first |
| HuleForms.GoushiFormsIff | jongpy/core/hule.py:128-152 | a thirteen-orphans reading exists exactly with no meld and each of the thirteen kinds once or twice, exactly one twice; the thirteen-orphans shanten is then -1 |
| HuleForms.HuleMianziJiulian | jongpy/core/hule.py:155-181 | the loop and length check compute `JiulianForms` |
| HuleForms.JiulianDigitsIff | jongpy/core/hule.py:167-175 | the digits exist exactly when every rank is held and 1 and 9 three times; there is one per tile, one fewer at the winning rank |
| HuleForms.JiulianFormsIff | jongpy/core/hule.py:155-181 | a nine-gates reading exists exactly with no meld, a numeral winning tile, and that suit holding every rank (1 and 9 three times) for fourteen tiles |
| HuleForms.JiulianExample | tests/core/test_hule.py:56-60 | a pure nine gates in characters won on m1 gives the single expected text |
| HuleForms.WithRongpai | jongpy/core/hule.py:64-66 | the copy searched, with the claimed tile drawn into it |
| HuleForms.WinningTile | jongpy/core/hule.py:73 | the winning tile has three characters, keeps suit and rank, and a red five reads as a five |
| HuleForms.HuleMianzi | jongpy/core/hule.py:47-78 | `hule_mianzi` returns `HuleMianziSpec` of the hand, which it leaves alone |
| HuleForms.AllForms | jongpy/core/hule.py:75-78 | the four searches, concatenated in order |
| HuleForms.HuleMianziShapes | jongpy/core/hule.py:47-78 | each reading is a pair and four melds with exactly one mark, seven pairs, thirteen orphans, or one nine-gates text |
| HuleForms.HuleMianziRefusals | jongpy/core/hule.py:64-70 | no reading without a drawn tile or right after a call; a claimed tile is refused when the slot is taken or its kind is already held four times |
| Hupai.GetPreHupai | jongpy/core/hule.py:184-208 | the nine tests compute the table-driven `PreHupaiUpTo` |
| Hupai.PreHupaiUpToIff | jongpy/core/hule.py:184-208 | every entry listed is from the table, and entry i is listed exactly when its condition holds |
| Hupai.PreHupaiIff | jongpy/core/hule.py:184-208 | each situational pattern is listed with its fan exactly when its flag is set |
| Hupai.SuitRuns | jongpy/core/hule.py:222 | each run starts with a suit letter and holds no further suit letter or comma |
| Notation.OccurrencesMultiset | jongpy/core/hule.py:233-234 | the count found is the multiplicity of the character in the text |
| Hupai.DoraCount | jongpy/core/hule.py:225-238 | the indicator loop fails with `PaiFormat` exactly when an indicator is not a tile |
| Hupai.BonusPatterns | jongpy/core/hule.py:222-262 | the counting fails with `PaiFormat` exactly when an indicator of either list is not a tile |
| Hupai.GetPostHupai | jongpy/core/hule.py:211-262 | `get_post_hupai` returns `PostHupaiSpec` and leaves the hand alone |
| Hupai.CountBonus | jongpy/core/hule.py:222-262 | the counting part computes `BonusPatterns` |
| Hupai.CountDora | jongpy/core/hule.py:225-238 | the indicator loop computes `DoraCount` |
| Hupai.CountRank | jongpy/core/hule.py:229-236 | the run loop computes `DoraIn` |
| Hupai.BonusPatternsListed | jongpy/core/hule.py:225-260 | at most three patterns, each with a positive count, and each present exactly when its count is positive; the red-five count is the number of `0` in the hand's text |
| Hupai.BonusRedFive | jongpy/core/hule.py:240-246 | the red-five pattern is listed exactly when the hand's text shows a red five |
| Hupai.RedFiveCountsAsFive | jongpy/core/hule.py:232-234 | after the replacement a red five counts as a five and no longer as a `0` |
| Hupai.DoraCountAppend | jongpy/core/hule.py:225-238 | the count of two indicator lists is the sum of their counts |
| Hupai.DoraInOtherSuit | jongpy/core/hule.py:229-236 | an indicator whose dora has no run of its suit adds nothing |
| Shan.Zhenbaopai | jongpy/core/shan.py:10-29 | fails with `PaiFormat` exactly for text that is not a tile; otherwise the dora is of the same group, next in its cycle |
| Shan.NextRankBijective | jongpy/core/shan.py:27-29 | the successor map is a permutation of each group |
| Shan.Orbit | jongpy/core/shan.py:27-29 | after i steps a rank has moved i places round its cycle |
| Shan.Cycles | jongpy/core/shan.py:27-29 | numerals return after nine steps, winds after four, dragons after three, and not sooner |
| Shan.ZhenbaopaiExamples | tests/core/test_shan.py:15-60 | the indicator cases of the tests, a red five among them |
| He.Key | jongpy/core/he.py:31 | the kind recorded keeps the suit and reads a red five as a five |
| He.StripDirection | jongpy/core/he.py:30 | a trailing direction is removed and nothing else |
| He.FulouProperties | jongpy/core/he.py:34-58 | a call keeps the number of discards; when accepted it claims the last discard and appends one direction to it; when refused the pile is as before |
| He.He.constructor | jongpy/core/he.py:14-16 | the pile starts empty |
| He.He.Dapai | jongpy/core/he.py:18-32 | a tile is appended without its direction and its kind recorded; text that is not a tile is refused and nothing changes |
| He.He.Fulou | jongpy/core/he.py:34-58 | a call changes the pile as `FulouSpec` says and keeps the kinds recorded |
| He.He.Find | jongpy/core/he.py:60-74 | true exactly when a tile of that kind was discarded; short text and a non-digit rank raise the errors Python raises |
| Board.MenfengOf | jongpy/core/board.py:67-68 | the seat wind lies in 0..3 and is congruent to the player's offset from the dealer |
| Board.MenfengOfSeat | jongpy/core/board.py:67-80 | the seat wind of the player at seat i is i |
| Board.SeatOfMenfeng | jongpy/core/board.py:67-80 | the player at the seat of player id's wind is id |
| Board.SeatsDistinct | jongpy/core/board.py:76-81 | the four seats of a hand go to four different players |
| Board.Shan.constructor | jongpy/core/board.py:11-14 | 70 tiles to draw and one indicator |
| Board.Shan.Zimo | jongpy/core/board.py:16-18 | one tile fewer; the drawn tile, or `_` when not known |
| Board.Shan.Kaigang | jongpy/core/board.py:20-21 | one more indicator |
| Board.Board.constructor | jongpy/core/board.py:43-65 | no hand dealt, seats in id order, no deposits |
| Board.Board.Menfeng | jongpy/core/board.py:67-68 | the seat wind of player id |
| Board.Board.Qipai | jongpy/core/board.py:70-85 | as the tests intend (as written the call at line 78 raises, see Left out): seat i goes to player (qijia + jushu + i) mod 4, whose score becomes the i-th given, and whose seat wind is i |
| Board.Board.Lizhi | jongpy/core/board.py:87-91 | a pending riichi costs the discarder 1000 points for one more deposit, once; points plus deposits are kept |
| Board.Board.Zimo | jongpy/core/board.py:93-96 | settles a pending riichi (the discarder's seat pays 1000, one more stick; scores unchanged when none is pending) and gives the turn to seat l; `changbang`, `_fenpei`, `jushu` and `zhuangfeng` stay |
| Board.Board.Dapai | jongpy/core/board.py:98-102 | the discarder takes the turn; a discard marked `*` makes riichi pending; `lizhibang`, `changbang`, `_fenpei`, `jushu` and `zhuangfeng` stay |
| Board.Board.Fulou | jongpy/core/board.py:104-108 | the discarder's riichi is settled (that seat pays 1000) before the caller takes the turn; `changbang`, `_fenpei`, `jushu` and `zhuangfeng` stay |
| Board.Board.Gang | jongpy/core/board.py:110-112 | the declarer takes the turn; riichi state, `lizhibang`, `changbang`, `_fenpei`, `jushu` and `zhuangfeng` stay |
| Board.Board.Kaigang | jongpy/core/board.py:114-115 | one more indicator on the wall |
| Board.Board.Hule | jongpy/core/board.py:117-128 | as the tests intend (as written the call at line 119 raises, see Left out): the previous win's changes are paid now, by seat, and the sticks and deposits cleared; this win's are kept for later; `lunban`, `jushu` and `zhuangfeng` stay |
| Board.Board.Settle | jongpy/core/board.py:125-126 | each seat's player receives that seat's entry; the total changes by their sum |
| Board.Board.Pingju | jongpy/core/board.py:130-135 | a draw settles a pending riichi (the discarder's seat pays 1000) except on a triple ron; points plus deposits are kept; `changbang`, `_fenpei`, `jushu` and `zhuangfeng` stay |
| Board.Board.Jieju | jongpy/core/board.py:137-140 | the final scores replace the points; the turn goes back one seat; `lizhibang`, `changbang`, `_fenpei`, `jushu` and `zhuangfeng` stay |
| Board.DoubleRonExample | tests/core/test_board.py:249-265 | the double ron of the tests gives the final scores 17100, 36900, 36000, 10000 |
| Board.SumUpdate | jongpy/core/board.py:89-90 | changing one score by d changes the total by d |
| Game.ClaimedKind | jongpy/core/game.py:216 | the denied kind keeps the meld's suit and reads a red five as a five; a meld without a claimed digit fails |
| Game.OtherKinds | jongpy/core/game.py:217 | the list comprehension keeps exactly the choices not of kind k, in order |
| Game.GetDapaiRule | jongpy/core/game.py:210-218 | with nothing drawn there is no discard list; outside level 0 every tile offered is one the unchecked list offers |
| Game.GetDapaiUnchecked | jongpy/core/game.py:218 | without the check the list is the held kinds followed by the drawn tile |
| Game.DapaiRuleClaimedKind | jongpy/core/game.py:215-217 | at level 1 after a call a tile is offered exactly when the unchecked list offers it and it is not of the claimed kind |
| Game.DapaiLevelOneWider | jongpy/core/game.py:211-218 | after a call level 1 offers every tile level 0 offers |
| Game.Narrow | jongpy/core/game.py:224-228 | None, an error or an empty list passes through; otherwise an empty wall gives the empty list |
| Game.ChiRuleAsWritten | jongpy/core/game.py:221-228 | a non-empty answer comes from a non-empty wall and is the hand's own answer; any other change gives the empty list |
| Game.ChiRule | jongpy/core/game.py:221-228 | as for the rule as written, with the level-1 refusal counting fives red or not |
| Game.ChiRuleSound | jongpy/core/game.py:221-228 | every chow the rule offers is offered by the hand and made of held tiles, never from an empty wall nor in the level-1 refusal case |
| Game.ChiRuleKeeps | jongpy/core/game.py:221-228 | the hand's answer is returned unchanged exactly when it is None, an error or empty, or when the wall is not empty and the refusal does not apply |
| Game.ChiRuleRedFive | jongpy/core/game.py:226 | for m0 from the left with m4 m5 m5 m6 and three melds, the rule as written offers m40-6; the corrected rule offers nothing |
| Game.PengRule | jongpy/core/game.py:231-236 | a non-empty answer comes from a non-empty wall and is the hand's own; the answer differs from the hand's only as the empty list from an empty wall |
| Game.PengRuleSound | jongpy/core/game.py:231-236 | every pung the rule offers is offered by the hand, from a wall that is not empty |
| Game.GangRule | jongpy/core/game.py:239-269 | a non-empty answer is the hand's own list, from a non-empty wall with fewer than four quads, and after riichi only with quads allowed and the waits kept; any other change gives the empty list |
| Game.GangRuleKeeps | jongpy/core/game.py:239-269 | a quad is offered only when the hand offers it, the wall is not empty, fewer than four quads were made, and after riichi the rule and the waits allow it; under those conditions the whole list is returned |
| Game.GangRuleLizhi | jongpy/core/game.py:245-247 | after riichi with quads disallowed nothing is offered |
| Game.AllowPingju | jongpy/core/game.py:336-350 | the loop computes `PingjuSpec` |
| Game.HeldYaojiuCount | jongpy/core/game.py:343-349 | the count is the number of distinct terminal and honour kinds held |
| Game.PingjuKinds | jongpy/core/game.py:336-350 | the abortive draw is allowed exactly on the first draw, with a drawn tile and the rule on, holding nine or more terminal and honour kinds; such a closed hand is at most four from thirteen orphans |
| Game.NoDaopai | jongpy/core/game.py:353-362 | hiding the hand is allowed only at the end of the wall, with nothing drawn, the rule on, no riichi, a ready hand and a wait |
| Game.NoDaopaiGuards | jongpy/core/game.py:353-362 | hiding the hand is allowed exactly at the end of the wall, with nothing drawn, the rule on, no riichi, a ready hand and a wait |
| Rule.Rule | jongpy/core/rule.py:4-54 | every default and every parameter key, a parameter winning over a default |
| Rule.RuleUnique | jongpy/core/rule.py:4-54 | the result is determined by the parameters |
| Rule.RuleExample | tests/core/test_game.py:163 | `origin_points` 30000 replaces 25000 and `allow_fulou_slide` keeps 0 |

## Left out

- Unicode: `\d` in the source's regular expressions also matches non-ASCII digits; the model reads only ASCII digits.
- `hule()` (hule.py:9-44) is not modelled. As written it cannot return a result: the name `max` is shadowed and `h_max` is never set. It also calls the empty stubs `get_hudi`, `get_hupai` and `get_defen` (hule.py:265-274).
- `Game.allow_lizhi_` and `Game.allow_hule_` are not modelled. They call `tingpai` and `hule`: `tingpai` is imported from `xiangting.py` but not defined there, so it is not part of this model, and `hule` is left out as above.
- Game.GangRule: the `allow_angang_after_lizhi` levels 1 and 2 compare waits computed with `tingpai`. The model takes the outcome of that comparison as the parameter `keepsWaits`.
- Game.NoDaopai: `len(tingpai(shoupai)) > 0` is the parameter `hasWaits`.
- Board: the hands and discard piles it forwards events to are not modelled. This covers `Shoupai.from_str` and `update`, which do not exist in `shoupai.py`, and the `He` calls. Only the board's own counters, scores and wall are modelled. As written, `qipai` and `hule` cannot complete: `Shoupai.from_str` (jongpy/core/board.py:78) and `Shoupai.update` (jongpy/core/board.py:119) do not exist, so `qipai` raises AttributeError on its first seat, after setting `zhuangfeng`, `jushu`, `changbang`, `lizhibang` and `shan` but before `player_id`, `defen`, `lunban` and the pending riichi and payment; `hule` raises before any payment is made; `pingju` raises at jongpy/core/board.py:135 whenever a hand text is given, after settling the riichi. Board.Board.Qipai, Board.Board.Hule and Board.Board.Pingju model the completed updates that tests/core/test_board.py expects, not these failures.
- `Shoupai.update_from_string` is not modelled: it is not among the operations modelled here. The `lizhi` property (jongpy/core/shoupai.py:448-451) is modelled as the field `lizhi` of the hand state.
- ShoupaiText.StrLayout: the full round trip from `__str__` back through `from_string` is not proved. `ShoupaiText.StrMeldsRoundTrip` covers the melds, riichi and a meld just called; it does not cover the concealed tile counts or a drawn tile. Reading those back depends on the 14-tile cut and the drawn-tile rule of `from_string`.
- Notation.ValidMianzi: its own contract states only that an accepted meld starts with a suit letter and gives a non-empty text. That the text returned is a normal form is proved in `Notation.ValidMianziNormal`; the shape of that form in `ShoupaiSpec.NormalMeldShape` and `ShoupaiSpec.NormalMeldKinds`, chained in `ShoupaiSpec.AcceptedMeldKinds`.
- Concrete examples of `valid_mianzi` and `from_string` from the tests are not proved: evaluating the sort and the normalisation on literals is beyond the solver's budget.
- Concrete cases of the shanten and winning-hand tests are proved only for the one shape a single tally decides: `Xiangting.GoushiExample`, `Xiangting.QiduiExample`, `Xiangting.QiduiSixExample` (the seven-pairs part of `m11144p33366s8899`) and `HuleForms.JiulianExample`. The others are not proved: `m12389p456s12789z1` and `s1223444556889s1` (shanten 1), the overall shanten 1 of `m11144p33366s8899`, and the `hule_mianzi` cases normal_1 to normal_3, goushi, qidui and normal_qidui. Each needs the full search evaluated on a literal hand, which costs several times the solver's budget per proof. The properties those tests exercise are proved for all hands instead: `MianziOptimal`, `YibanMinimum`, `MarkedReadingsIff`, `QiduiFormsIff` and `GoushiFormsIff`.
- A move that fails part-way keeps its partial effect, as the source does. For example, a call stopped by a missing tile keeps the tiles removed before it. The caller's Python exception is modelled as an `Outcome`/`Result` error value.
- HuleForms.HuleMianzi: the claimed tile is required to be three characters (a tile with its direction), as every caller passes it.
- HuleForms.HuleMianzi: a hand whose drawn tile is face-down (`_`, which `zimo` accepts) is excluded by `DrawnTileOk`. Only another player's hand holds such a tile, and it is never read as a win. For it the source builds the winning tile `__`. Without melds it then raises TypeError at hule.py:166-169, which indexes the integer `_bingpai['_']`. With melds it runs the standard search for a tile of suit `_`. The model does not capture either outcome.
- The source's `Exception(p)` with a list or object payload is modelled by its error kind only.

## Findings

| source | as written | input that shows it | evidently intended | confidence | as-written member | corrected member |
|---|---|---|---|---|---|---|
| jongpy/core/shoupai.py:39-46 | `__init__` checks only the red-five counter before adding a red five, then also adds it to the five's count | `Shoupai(['m5','m5','m5','m5','m0'])` holds five m5 | a fifth five (red or not) raises, like any fifth copy | high, not executed | ShoupaiSpec.QipaiCountsAsWritten (shown by ShoupaiSpec.FifthRedFiveAccepted) | ShoupaiSpec.QipaiCounts (proved by ShoupaiSpec.QipaiCountsValid) |
| jongpy/core/shoupai.py:102 | `bingpai[-1]` on an empty concealed part raises IndexError | `Shoupai.from_string('')` | the empty hand, riichi false | medium, not executed | ShoupaiText.FromStringAsWritten (shown by ShoupaiText.FromStringEmptyText) | ShoupaiText.FromStringSpec (proved by ShoupaiText.FromStringEmptyText and ShoupaiText.FromStringRiichi) |
| jongpy/core/shoupai.py:631-632 | the pung of a red and a plain five is offered whenever a red five is held | hand with two red m5 and no plain m5, offered m5 from the right: `m505+` is offered | that pung only when a plain five is also held | high, not executed | ShoupaiMoves.PengMeldsAsWritten (shown by ShoupaiMoves.PengAsWrittenOffersMissingFive) | ShoupaiMoves.PengMelds (proved by ShoupaiMoves.PengSound) |
| jongpy/core/game.py:226 | `_bingpai[p[0]][int(p[1])]` reads the red-five counter when p is a red five | m0 from the left, hand m4 m5 m5 m6 with three melds, `allow_fulou_slide` 1: m40-6 is offered | count the fives (`int(p[1]) or 5`), so the chow is refused | high, not executed | Game.ChiRuleAsWritten (shown by Game.ChiRuleRedFive) | Game.ChiRule (proved by Game.ChiRuleSound) |
