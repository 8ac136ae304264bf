/** The round engine of the second draft of the game: dealing by seat,
    choosing the trump, bidding, resolving the contract, the thirteen tricks
    decided by `CanBeat`, the score of a round and the cut between rounds.
    Players sit at seats 0..3; seat `i` is `players[i]`. */
module GameEngine {
  import opened Cards
  import opened Deck
  import opened Players

  /** The seat `i` places after `starting`, going round the table. */
  function SeatAt(starting: nat, i: nat): (s: nat)
    requires starting < 4 && i < 4
    ensures s == if starting + i < 4 then starting + i else starting + i - 4
  {
    (starting + i) % 4
  }

  /** How many places after `starting` the seat `s` sits. */
  function Offset(starting: nat, s: nat): (k: nat)
    requires starting < 4 && s < 4
    ensures k < 4 && SeatAt(starting, k) == s
  {
    (s + 4 - starting) % 4
  }

  /** How far `s` sits after `starting`, counted round the table. */
  lemma OffsetValue(starting: nat, s: nat)
    requires starting < 4 && s < 4
    ensures Offset(starting, s) == if starting <= s then s - starting else s + 4 - starting
  {
  }

  /** Going round the table from any seat reaches four different seats. */
  lemma SeatsAroundTheTable(starting: nat, i: nat)
    requires starting < 4 && i < 4
    ensures Offset(starting, SeatAt(starting, i)) == i
  {
  }

  /** `run`: round `round` (counted from 1) is started by seat `(round - 1) % 4`. */
  function StartingIndex(round: nat): (s: nat)
    requires round >= 1
    ensures s < 4
  {
    (round - 1) % 4
  }

  /** Each round is started by the seat after the one that started the round before. */
  lemma StartingSeatMovesOn(round: nat)
    requires round >= 1
    ensures StartingIndex(round + 1) == SeatAt(StartingIndex(round), 1)
  {
  }

  // ---------------------------------------------------------------- contract

  datatype Mode = Redeal | Solo | Team

  /** The outcome of `determine_mode`: the mode, the bidding side and the other players. */
  datatype Contract = Contract(mode: Mode, team: seq<nat>, opponents: seq<nat>)

  const Seats: seq<nat> := [0, 1, 2, 3]

  /** The seats of `seats`, in order, that are not in `xs`. */
  function Outside(seats: seq<nat>, xs: seq<nat>): seq<nat>
  {
    if seats == [] then []
    else (if seats[0] in xs then [] else [seats[0]]) + Outside(seats[1..], xs)
  }

  /** `Outside` keeps exactly the seats not in `xs`. */
  lemma {:induction false} OutsideMembers(seats: seq<nat>, xs: seq<nat>)
    ensures forall p :: p in Outside(seats, xs) <==> p in seats && p !in xs
  {
    if seats != [] {
      OutsideMembers(seats[1..], xs);
      assert seats == [seats[0]] + seats[1..];
    }
  }

  /** `determine_mode`: nobody asked, one player goes alone against the other
      three, or the askers play together against the others. */
  function DetermineMode(askers: seq<nat>): (c: Contract)
    ensures c.mode == Redeal <==> askers == []
    ensures c.mode == Solo <==> |askers| == 1
    ensures c.mode == Redeal ==> c.team == [] && c.opponents == []
  {
    if askers == [] then Contract(Redeal, [], [])
    else if |askers| == 1 then Contract(Solo, [askers[0]], Outside(Seats, [askers[0]]))
    else Contract(Team, askers, Outside(Seats, askers))
  }

  /** Bidding hands `determine_mode` distinct seats, at most two of them. */
  ghost predicate ValidAskers(askers: seq<nat>)
  {
    |askers| <= 2 && (forall k :: 0 <= k < |askers| ==> askers[k] < 4) && NoRepeats(askers)
  }

  ghost predicate NoRepeats(xs: seq<nat>)
  {
    forall k, m :: 0 <= k < m < |xs| ==> xs[k] != xs[m]
  }

  /** The opponents `determine_mode` lists are the seats not in `xs`. */
  lemma OutsideSeats(xs: seq<nat>)
    ensures forall p: nat :: p in Outside(Seats, xs) <==> p < 4 && p !in xs
  {
    OutsideMembers(Seats, xs);
  }

  /** One seat of the four per seat not named in `xs`. */
  lemma OutsideLength(xs: seq<nat>)
    ensures |Outside(Seats, xs)| == (if 0 in xs then 0 else 1) + (if 1 in xs then 0 else 1)
                                  + (if 2 in xs then 0 else 1) + (if 3 in xs then 0 else 1)
  {
    assert Seats[1..] == [1, 2, 3] && [1, 2, 3][1..] == [2, 3] && [2, 3][1..] == [3] && [3][1..] == [];
    assert |Outside([3], xs)| == (if 3 in xs then 0 else 1);
    assert |Outside([2, 3], xs)| == (if 2 in xs then 0 else 1) + |Outside([3], xs)|;
    assert |Outside([1, 2, 3], xs)| == (if 1 in xs then 0 else 1) + |Outside([2, 3], xs)|;
  }

  lemma OutsideCount(askers: seq<nat>)
    requires ValidAskers(askers) && |askers| > 0
    ensures |Outside(Seats, askers)| == 4 - |askers|
  {
    OutsideLength(askers);
    if |askers| == 1 {
      assert askers == [askers[0]];
    } else {
      assert askers == [askers[0], askers[1]];
    }
  }

  /** `determine_mode` splits the table: the askers form the bidding side,
      alone or in pairs, and the opponents are exactly the other seats. */
  lemma ContractPartition(askers: seq<nat>)
    requires ValidAskers(askers) && |askers| > 0
    ensures var c := DetermineMode(askers);
      c.mode == (if |askers| == 1 then Solo else Team) &&
      c.team == askers &&
      |c.opponents| == 4 - |askers| &&
      (forall p :: p in c.opponents ==> p < 4) &&
      (forall p :: 0 <= p < 4 ==> (p in c.team <==> p !in c.opponents))
  {
    OutsideCount(askers);
    OutsideSeats(askers);
    OutsideSeats([askers[0]]);
    if |askers| == 1 {
      assert [askers[0]] == askers;
    }
  }

  // ----------------------------------------------------------------- scoring

  /** What each member of the bidding side gets in a two-against-two game:
      two points and one per trick above eight, or pays two and one per
      trick below eight. */
  function TeamValue(wins: int): (v: int)
    ensures v > 0 <==> wins >= 8
    ensures v >= 2 || v <= -2
  {
    if wins >= 8 then 2 + (wins - 8) else -(2 + (8 - wins))
  }

  /** What a soloist gets in total: six points and three per trick above
      five, or pays six and three per trick below five. */
  function SoloTotal(wins: int): (v: int)
    ensures v > 0 <==> wins >= 5
    ensures v >= 6 || v <= -6
  {
    if wins >= 5 then 6 + 3 * (wins - 5) else -(6 + 3 * (5 - wins))
  }

  /** The rates of `calculate_points`: a team member gets 2 at 8 tricks and
      pays 3 at 7, a soloist gets 6 at 5 tricks and pays 9 at 4, and every
      other trick moves the value by one point (three for a soloist). With
      these anchors and steps the two values are fixed for every count. */
  lemma TrickRates(w: int)
    ensures TeamValue(8) == 2 && TeamValue(7) == -3
    ensures SoloTotal(5) == 6 && SoloTotal(4) == -9
    ensures w != 7 ==> TeamValue(w + 1) == TeamValue(w) + 1
    ensures w != 4 ==> SoloTotal(w + 1) == SoloTotal(w) + 3
  {
  }

  /** More tricks always score more, for a team as for a soloist. */
  lemma ValuesGrowWithTricks(w: int, v: int)
    requires w < v
    ensures TeamValue(w) < TeamValue(v) && SoloTotal(w) < SoloTotal(v)
  {
  }

  /** A soloist's result is split evenly between three opponents. */
  lemma SoloTotalDivisible(wins: int)
    ensures SoloTotal(wins) % 3 == 0
  {
    if wins >= 5 {
      assert SoloTotal(wins) == 3 * (wins - 3);
    } else {
      assert SoloTotal(wins) == 3 * (wins - 7);
    }
  }

  /** The tricks won by the seats of `team` together. */
  function TeamTricks(team: seq<nat>, tricks: seq<nat>): nat
    requires forall k :: 0 <= k < |team| ==> team[k] < |tricks|
  {
    if team == [] then 0 else tricks[team[0]] + TeamTricks(team[1..], tricks)
  }

  /** `calculate_points`: the points of every seat. In a team game each member
      of the bidding side gets `TeamValue` of the side's tricks and each
      opponent pays it; in a solo game the soloist gets `SoloTotal` and each
      opponent pays a third of it. Points start at zero, team points are set
      before opponent points. */
  function CalculatePoints(c: Contract, tricks: seq<nat>): (pts: seq<int>)
    requires |tricks| == 4 && forall k :: 0 <= k < |c.team| ==> c.team[k] < 4
    requires c.mode == Solo ==> |c.team| > 0
    ensures |pts| == 4
  {
    var wins := TeamTricks(c.team, tricks);
    match c.mode
    case Team =>
      var v := TeamValue(wins);
      seq(4, p => if p in c.opponents then -v else if p in c.team then v else 0)
    case Solo =>
      var total := SoloTotal(wins);
      seq(4, p => if p in c.opponents then -(total / 3) else if p == c.team[0] then total else 0)
    case Redeal => [0, 0, 0, 0]
  }

  function Total(pts: seq<int>): int
    requires |pts| == 4
  {
    pts[0] + pts[1] + pts[2] + pts[3]
  }

  /** Two askers: each gets `TeamValue` of their tricks together, each of the
      other two seats pays it. */
  lemma TeamPoints(a: nat, b: nat, tricks: seq<nat>)
    requires a < 4 && b < 4 && a != b && |tricks| == 4
    ensures var pts := CalculatePoints(DetermineMode([a, b]), tricks);
      var v := TeamValue(tricks[a] + tricks[b]);
      forall p :: 0 <= p < 4 ==> pts[p] == if p == a || p == b then v else -v
  {
    assert [a, b][1..] == [b] && [b][1..] == [];
    assert TeamTricks([b], tricks) == tricks[b];
    OutsideSeats([a, b]);
  }

  /** One asker: the soloist gets `SoloTotal` of their tricks, each of the
      other three seats pays a third of it. */
  lemma SoloPoints(a: nat, tricks: seq<nat>)
    requires a < 4 && |tricks| == 4
    ensures var pts := CalculatePoints(DetermineMode([a]), tricks);
      var total := SoloTotal(tricks[a]);
      forall p :: 0 <= p < 4 ==> pts[p] == if p == a then total else -(total / 3)
  {
    assert [a][1..] == [];
    assert TeamTricks([a], tricks) == tricks[a];
    OutsideSeats([a]);
  }

  /** Whatever the tricks, the points of a round add up to zero. */
  lemma PointsZeroSum(askers: seq<nat>, tricks: seq<nat>)
    requires ValidAskers(askers) && |tricks| == 4
    ensures var c := DetermineMode(askers);
      (c.mode == Solo ==> |c.team| > 0) && (forall k :: 0 <= k < |c.team| ==> c.team[k] < 4) &&
      Total(CalculatePoints(c, tricks)) == 0
  {
    if |askers| == 1 {
      assert askers == [askers[0]];
      SoloPoints(askers[0], tricks);
      SoloTotalDivisible(tricks[askers[0]]);
    } else if |askers| == 2 {
      assert askers == [askers[0], askers[1]];
      TeamPoints(askers[0], askers[1], tricks);
    }
  }

  // ---------------------------------------------------------------- bidding

  /** What each seat bids with its hand. */
  function Bids(hands: seq<seq<Card>>, trump: Suit): (b: seq<Bid>)
    requires |hands| == 4
    ensures |b| == 4 && forall s :: 0 <= s < 4 ==> b[s] == DecideBid(hands[s], trump)
  {
    seq(4, s requires 0 <= s < 4 => DecideBid(hands[s], trump))
  }

  /** The seats among the first `i` in bidding order from `starting` that
      ask, in that order. */
  function AskingSeats(bids: seq<Bid>, starting: nat, i: nat): (r: seq<nat>)
    requires |bids| == 4 && starting < 4 && i <= 4
    ensures |r| <= i && forall k :: 0 <= k < |r| ==> r[k] < 4
  {
    if i == 0 then []
    else
      var s := SeatAt(starting, i - 1);
      AskingSeats(bids, starting, i - 1) + (if bids[s] == Ask then [s] else [])
  }

  /** The asking seats are the seats within `i` places of `starting` that ask. */
  lemma {:induction false} AskingSeatsMembers(bids: seq<Bid>, starting: nat, i: nat)
    requires |bids| == 4 && starting < 4 && i <= 4
    ensures forall s: nat :: s in AskingSeats(bids, starting, i) <==> s < 4 && Offset(starting, s) < i && bids[s] == Ask
  {
    if i > 0 {
      AskingSeatsMembers(bids, starting, i - 1);
      var prev := AskingSeats(bids, starting, i - 1);
      var x := SeatAt(starting, i - 1);
      SeatsAroundTheTable(starting, i - 1);
      assert AskingSeats(bids, starting, i) == prev + (if bids[x] == Ask then [x] else []);
      forall s: nat | s < 4 ensures Offset(starting, s) == i - 1 <==> s == x {
      }
    }
  }

  /** Each seat asks at most once. */
  lemma {:induction false} AskingSeatsDistinct(bids: seq<Bid>, starting: nat, i: nat)
    requires |bids| == 4 && starting < 4 && i <= 4
    ensures NoRepeats(AskingSeats(bids, starting, i))
  {
    if i > 0 {
      AskingSeatsDistinct(bids, starting, i - 1);
      AskingSeatsMembers(bids, starting, i - 1);
      var prev := AskingSeats(bids, starting, i - 1);
      var s := SeatAt(starting, i - 1);
      SeatsAroundTheTable(starting, i - 1);
      var r := AskingSeats(bids, starting, i);
      assert r == prev + (if bids[s] == Ask then [s] else []);
      forall k, m | 0 <= k < m < |r| ensures r[k] != r[m] {
        assert r[k] == prev[k];
        if m == |prev| {
          assert r[m] == s && s !in prev;
        } else {
          assert r[m] == prev[m];
        }
      }
    }
  }

  /** Bidding further round the table only adds askers at the end. */
  lemma {:induction false} AskingSeatsPrefix(bids: seq<Bid>, starting: nat, i: nat, j: nat)
    requires |bids| == 4 && starting < 4 && i <= j <= 4
    ensures var a := AskingSeats(bids, starting, i);
      var b := AskingSeats(bids, starting, j);
      |a| <= |b| && a == b[..|a|]
  {
    if i < j {
      AskingSeatsPrefix(bids, starting, i, j - 1);
    }
  }

  /** The seat `i` places after `starting` bids next. */
  lemma AskingSeatsNext(bids: seq<Bid>, starting: nat, i: nat)
    requires |bids| == 4 && starting < 4 && i < 4
    ensures var s := SeatAt(starting, i);
      AskingSeats(bids, starting, i + 1) == AskingSeats(bids, starting, i) + (if bids[s] == Ask then [s] else [])
  {
  }

  /** The `i`-th seat in bidding order bids and joins the askers when it asks. */
  method BidInTurn(hands: seq<seq<Card>>, trump: Suit, starting: nat, i: nat, askers: seq<nat>)
    returns (askers': seq<nat>)
    requires |hands| == 4 && starting < 4 && i < 4
    requires askers == AskingSeats(Bids(hands, trump), starting, i)
    ensures askers' == AskingSeats(Bids(hands, trump), starting, i + 1)
  {
    var s := SeatAt(starting, i);
    AskingSeatsNext(Bids(hands, trump), starting, i);
    askers' := askers;
    if DecideBid(hands[s], trump) == Ask {
      askers' := askers + [s];
    }
  }

  /** Once two seats have asked, the later seats do not bid. */
  lemma BiddingStops(bids: seq<Bid>, starting: nat, i: nat)
    requires |bids| == 4 && starting < 4 && i <= 4 && |AskingSeats(bids, starting, i)| == 2
    ensures Askers(bids, starting) == AskingSeats(bids, starting, i)
  {
    AskingSeatsPrefix(bids, starting, i, 4);
  }

  /** The bidding of `play_round`: the first two seats in bidding order that ask. */
  function Askers(bids: seq<Bid>, starting: nat): (a: seq<nat>)
    requires |bids| == 4 && starting < 4
    ensures |a| <= 2 && a <= AskingSeats(bids, starting, 4)
    ensures |a| < 2 ==> a == AskingSeats(bids, starting, 4)
  {
    var all := AskingSeats(bids, starting, 4);
    if |all| <= 2 then all else all[..2]
  }

  /** Bidding stops at two askers, every asker asks, and when fewer than two
      ask every other seat passes. */
  lemma AskersProperties(bids: seq<Bid>, starting: nat)
    requires |bids| == 4 && starting < 4
    ensures var a := Askers(bids, starting);
      ValidAskers(a) &&
      (forall s :: s in a ==> bids[s] == Ask) &&
      (|a| < 2 ==> forall s :: 0 <= s < 4 && s !in a ==> bids[s] == Pass)
  {
    AskingSeatsMembers(bids, starting, 4);
    AskingSeatsDistinct(bids, starting, 4);
    var all := AskingSeats(bids, starting, 4);
    var a := Askers(bids, starting);
    assert forall k :: 0 <= k < |a| ==> a[k] == all[k];
    forall k, m | 0 <= k < m < |a| ensures a[k] != a[m] {
      assert a[k] == all[k] && a[m] == all[m];
    }
    forall s | s in a ensures s in all {
      var k :| 0 <= k < |a| && a[k] == s;
      assert all[k] == s;
    }
  }

  // ------------------------------------------------------------------ tricks

  /** The table during a trick of `play_round`: the hands, the cards played
      so far, the current winning card and the seat that played it. */
  datatype TrickState = TrickState(hands: seq<seq<Card>>, cards: seq<Card>, best: Option<Card>, winner: nat)

  /** A trick led by `lead` after its first `j` cards: each seat in turn plays
      `PlayCardSpec` (leading the first card, following the suit of the first
      card after that) and its card becomes the winning card when it is the
      first or `CanBeat` holds against the winning card so far. */
  function TrickTurns(hands: seq<seq<Card>>, lead: nat, trump: Suit, j: nat): (t: TrickState)
    requires |hands| == 4 && lead < 4 && j <= 4
    requires forall s :: 0 <= s < 4 ==> |hands[s]| > 0
    ensures |t.hands| == 4 && |t.cards| == j && t.winner < 4
    ensures t.best.None? <==> j == 0
    ensures forall m :: j <= m < 4 ==> t.hands[SeatAt(lead, m)] == hands[SeatAt(lead, m)]
  {
    if j == 0 then TrickState(hands, [], None, lead)
    else Turn(TrickTurns(hands, lead, trump, j - 1), SeatAt(lead, j - 1), trump)
  }

  /** One turn of a trick: seat `s` plays `PlayCardSpec` and takes the lead of
      the trick when it plays the first card or `CanBeat` holds. */
  function Turn(t: TrickState, s: nat, trump: Suit): (u: TrickState)
    requires s < |t.hands| && |t.hands[s]| > 0
    ensures |u.hands| == |t.hands| && u.hands == t.hands[s := u.hands[s]] && |u.hands[s]| == |t.hands[s]| - 1
    ensures |u.cards| == |t.cards| + 1 && u.cards[..|t.cards|] == t.cards
    ensures var takes := t.cards == [] || CanBeat(u.cards[|t.cards|], t.best, trump);
      u.best == (if takes then Some(u.cards[|t.cards|]) else t.best) &&
      u.winner == (if takes then s else t.winner)
  {
    var first := t.cards == [];
    var leadSuit := if first then None else Some(t.cards[0].suit);
    var play := PlayCardSpec(t.hands[s], leadSuit, trump, t.best, first);
    var takes := first || CanBeat(play.card, t.best, trump);
    TrickState(t.hands[s := play.rest], t.cards + [play.card],
               if takes then Some(play.card) else t.best, if takes then s else t.winner)
  }

  /** A trick only moves cards from the hands to the table. */
  lemma {:induction false} TrickConservation(hands: seq<seq<Card>>, lead: nat, trump: Suit, j: nat)
    requires |hands| == 4 && lead < 4 && j <= 4
    requires forall s :: 0 <= s < 4 ==> |hands[s]| > 0
    ensures var t := TrickTurns(hands, lead, trump, j);
      multiset(Flatten(t.hands)) + multiset(t.cards) == multiset(Flatten(hands))
  {
    if j > 0 {
      TrickConservation(hands, lead, trump, j - 1);
      var t := TrickTurns(hands, lead, trump, j - 1);
      var s := SeatAt(lead, j - 1);
      var leadSuit := if j == 1 then None else Some(t.cards[0].suit);
      var play := PlayCardSpec(t.hands[s], leadSuit, trump, t.best, j == 1);
      FlattenRemove(t.hands, s, play.card, play.rest);
      MoveOne(multiset(Flatten(t.hands[s := play.rest])), multiset(Flatten(t.hands)),
              t.cards, play.card, multiset(Flatten(hands)));
    }
  }

  /** Every seat that has played holds one card fewer; the others hold what they held. */
  lemma {:induction false} TrickHandSizes(hands: seq<seq<Card>>, lead: nat, trump: Suit, j: nat)
    requires |hands| == 4 && lead < 4 && j <= 4
    requires forall s :: 0 <= s < 4 ==> |hands[s]| > 0
    ensures var t := TrickTurns(hands, lead, trump, j);
      forall s :: 0 <= s < 4 ==> |t.hands[s]| == if Offset(lead, s) < j then |hands[s]| - 1 else |hands[s]|
  {
    if j > 0 {
      TrickHandSizes(hands, lead, trump, j - 1);
      var t := TrickTurns(hands, lead, trump, j - 1);
      var s := SeatAt(lead, j - 1);
      HandSizesStep(hands, t.hands, Turn(t, s, trump).hands, lead, j - 1);
    }
  }

  /** The seat `j` places after `lead` plays one card. */
  lemma HandSizesStep(hands: seq<seq<Card>>, before: seq<seq<Card>>, after: seq<seq<Card>>, lead: nat, j: nat)
    requires |hands| == 4 && |before| == 4 && |after| == 4 && lead < 4 && j < 4
    requires forall s :: 0 <= s < 4 ==> |before[s]| == if Offset(lead, s) < j then |hands[s]| - 1 else |hands[s]|
    requires after == before[SeatAt(lead, j) := after[SeatAt(lead, j)]]
    requires |after[SeatAt(lead, j)]| == |before[SeatAt(lead, j)]| - 1
    ensures forall s :: 0 <= s < 4 ==> |after[s]| == if Offset(lead, s) < j + 1 then |hands[s]| - 1 else |hands[s]|
  {
    SeatsAroundTheTable(lead, j);
  }

  /** The position of the winning card among the cards of a trick: the first
      card, replaced by each later card that can beat the winner so far. */
  function WinningIndex(cards: seq<Card>, trump: Suit): (k: nat)
    requires |cards| > 0
    ensures k < |cards|
  {
    if |cards| == 1 then 0
    else
      var k := WinningIndex(cards[..|cards| - 1], trump);
      if CanBeat(cards[|cards| - 1], Some(cards[k]), trump) then |cards| - 1 else k
  }

  /** No card of a trick can beat the winning card. */
  lemma {:induction false} WinningCardUnbeaten(cards: seq<Card>, trump: Suit)
    requires |cards| > 0
    ensures forall i :: 0 <= i < |cards| ==> !CanBeat(cards[i], Some(cards[WinningIndex(cards, trump)]), trump)
  {
    var w := cards[WinningIndex(cards, trump)];
    if |cards| == 1 {
      CanBeatIsStrictOrder(w, w, w, trump);
    } else {
      var front := cards[..|cards| - 1];
      WinningCardUnbeaten(front, trump);
      var v := front[WinningIndex(front, trump)];
      forall i | 0 <= i < |cards| ensures !CanBeat(cards[i], Some(w), trump) {
        CanBeatIsStrictOrder(cards[i], w, v, trump);
        if i < |cards| - 1 {
          assert cards[i] == front[i];
        }
      }
    }
  }

  /** A turn after the first keeps the winner at `WinningIndex`. */
  lemma TurnKeepsWinner(u: TrickState, lead: nat, trump: Suit)
    requires lead < 4 && 0 < |u.cards| < 4 && |u.hands| == 4 && |u.hands[SeatAt(lead, |u.cards|)]| > 0
    requires var k := WinningIndex(u.cards, trump);
      u.best == Some(u.cards[k]) && u.winner == SeatAt(lead, k)
    ensures var t := Turn(u, SeatAt(lead, |u.cards|), trump);
      var k := WinningIndex(t.cards, trump);
      t.best == Some(t.cards[k]) && t.winner == SeatAt(lead, k)
  {
    var t := Turn(u, SeatAt(lead, |u.cards|), trump);
    var k := WinningIndex(u.cards, trump);
    assert t.cards[..|u.cards|] == u.cards && t.cards[k] == u.cards[k];
  }

  /** The winner `TrickTurns` keeps is the seat that played the card at
      `WinningIndex`. */
  lemma {:induction false} TrickWinner(hands: seq<seq<Card>>, lead: nat, trump: Suit, j: nat)
    requires |hands| == 4 && lead < 4 && 0 < j <= 4
    requires forall s :: 0 <= s < 4 ==> |hands[s]| > 0
    ensures var t := TrickTurns(hands, lead, trump, j);
      var k := WinningIndex(t.cards, trump);
      t.best == Some(t.cards[k]) && t.winner == SeatAt(lead, k)
  {
    if j > 1 {
      TrickWinner(hands, lead, trump, j - 1);
      TurnKeepsWinner(TrickTurns(hands, lead, trump, j - 1), lead, trump);
    }
  }

  // -------------------------------------------------------------- deal, trump

  /** `random.shuffle(deck)`, with the permutation `perm` standing for the
      random choice. */
  function Shuffle(deck: seq<Card>, perm: seq<nat>): (r: seq<Card>)
    requires IsPermutation(perm, |deck|)
    ensures |r| == |deck| && multiset(r) == multiset(deck)
  {
    PermutePreservesMultiset(deck, perm);
    Permute(deck, perm)
  }

  /** Where the passes of a 4-4-5 deal to four players start in the deck. */
  function FourPassStart(r: nat): (p: nat)
    requires r <= 3
    ensures p == PassStart(4, r) && p <= 52
    ensures r < 3 ==> p + 4 * DealCounts[r] == PassStart(4, r + 1)
  {
    assert PassStart(4, 1) == 16 && PassStart(4, 2) == 32;
    [0, 16, 32, 52][r]
  }

  /** The hands after a 4-4-5 deal from `starting`: the seat `i` places after
      `starting` is served `i`-th in each pass. */
  function DealtHands(cards: seq<Card>, starting: nat): (hands: seq<seq<Card>>)
    requires starting < 4
    ensures |hands| == 4 && forall s :: 0 <= s < 4 ==> hands[s] == DealShare(cards, 4, Offset(starting, s))
  {
    [DealShare(cards, 4, Offset(starting, 0)), DealShare(cards, 4, Offset(starting, 1)),
     DealShare(cards, 4, Offset(starting, 2)), DealShare(cards, 4, Offset(starting, 3))]
  }

  /** Every seat gets 13 cards and together the hands hold the first 52
      cards of the deck, whoever is served first. */
  lemma DealtHandsPartition(cards: seq<Card>, starting: nat)
    requires |cards| >= 52 && starting < 4
    ensures var hands := DealtHands(cards, starting);
      (forall s :: 0 <= s < 4 ==> |hands[s]| == 13) &&
      multiset(Flatten(hands)) == multiset(cards[..52])
  {
    DealFourPartition(cards);
    var d := [DealShare(cards, 4, 0), DealShare(cards, 4, 1), DealShare(cards, 4, 2), DealShare(cards, 4, 3)];
    FlattenFour(d);
    RotatedHands(DealtHands(cards, starting), d, starting);
  }

  /** Handing out four shares from another first seat changes who holds
      which share, not the cards held together. */
  lemma RotatedHands<T>(hands: seq<seq<T>>, d: seq<seq<T>>, starting: nat)
    requires |hands| == 4 && |d| == 4 && starting < 4
    requires forall s :: 0 <= s < 4 ==> hands[s] == d[Offset(starting, s)]
    ensures multiset(Flatten(hands)) == multiset(Flatten(d))
  {
    var a, m := Multisets(hands), Multisets(d);
    assert multiset(Flatten(hands)) == a[0] + a[1] + a[2] + a[3] by { FourMultiset(hands); }
    assert multiset(Flatten(d)) == m[0] + m[1] + m[2] + m[3] by { FourMultiset(d); }
    forall s | 0 <= s < 4 ensures a[s] == m[Offset(starting, s)] {
      assert hands[s] == d[Offset(starting, s)];
    }
    RotateFour(a, m, starting);
  }

  /** The cards of each list, counted. */
  function Multisets<T>(xs: seq<seq<T>>): (r: seq<multiset<T>>)
    ensures |r| == |xs| && forall i :: 0 <= i < |xs| ==> r[i] == multiset(xs[i])
  {
    seq(|xs|, i requires 0 <= i < |xs| => multiset(xs[i]))
  }

  /** Four multisets summed in the order of the seats from `starting` on. */
  lemma RotateFour<T>(a: seq<multiset<T>>, m: seq<multiset<T>>, starting: nat)
    requires |a| == 4 && |m| == 4 && starting < 4
    requires forall s :: 0 <= s < 4 ==> a[s] == m[Offset(starting, s)]
    ensures a[0] + a[1] + a[2] + a[3] == m[0] + m[1] + m[2] + m[3]
  {
    assert a[0] == m[Offset(starting, 0)] && a[1] == m[Offset(starting, 1)];
    assert a[2] == m[Offset(starting, 2)] && a[3] == m[Offset(starting, 3)];
    OffsetValue(starting, 0);
    OffsetValue(starting, 1);
    OffsetValue(starting, 2);
    OffsetValue(starting, 3);
    if starting == 1 {
      UnionRotate(m[3], m[0], m[1], m[2]);
    } else if starting == 2 {
      UnionRotate(m[2], m[3], m[0], m[1]);
      UnionRotate(m[3], m[0], m[1], m[2]);
    } else if starting == 3 {
      UnionRotate(m[1], m[2], m[3], m[0]);
      UnionRotate(m[2], m[3], m[0], m[1]);
      UnionRotate(m[3], m[0], m[1], m[2]);
    }
  }

  lemma UnionRotate<T>(a: multiset<T>, b: multiset<T>, c: multiset<T>, e: multiset<T>)
    ensures a + b + c + e == b + c + e + a
  {
  }

  /** The trump card of `play_round`: the last card left in the deck, or the
      last card of seat 3's hand when the deal used up the deck. */
  function TrumpCard(rest: seq<Card>, lastHand: seq<Card>): (c: Card)
    requires rest != [] || lastHand != []
    ensures rest != [] ==> c in rest
    ensures rest == [] ==> c in lastHand
  {
    if rest != [] then rest[|rest| - 1] else lastHand[|lastHand| - 1]
  }

  /** The trump card after dealing the first 52 cards of `cards` from `starting`. */
  function DealtTrumpCard(cards: seq<Card>, starting: nat): (c: Card)
    requires |cards| >= 52 && starting < 4
    ensures c in cards
  {
    DealtHandsPartition(cards, starting);
    var hands := DealtHands(cards, starting);
    FlattenFour(hands);
    assert multiset(hands[3]) <= multiset(Flatten(hands));
    assert cards == cards[..52] + cards[52..];
    TrumpCard(cards[52..], DealtHands(cards, starting)[3])
  }

  /** With a 52-card deck the trump card is the last card dealt to seat 3,
      which is the last card of the deck only when seat 0 was served first:
      the last card of the deck goes to the seat three places after `starting`. */
  lemma TrumpOfFullDeck(cards: seq<Card>, starting: nat)
    requires |cards| == 52 && starting < 4
    ensures DealtTrumpCard(cards, starting) == cards[36 + 5 * Offset(starting, 3)]
    ensures 36 + 5 * Offset(starting, 3) == 51 <==> starting == 0
  {
    var k := Offset(starting, 3);
    OffsetValue(starting, 3);
    DealShareOfFour(cards, k);
    var last := DealtHands(cards, starting)[3];
    assert last == DealShare(cards, 4, k);
    assert DealtTrumpCard(cards, starting) == last[|last| - 1];
    assert DealShare(cards, 4, k)[12] == cards[36 + 5 * k];
  }

  /** The fourth share of a 52-card deck ends with its last card. */
  lemma DealShareFourLast(cards: seq<Card>)
    requires |cards| == 52
    ensures |DealShare(cards, 4, 3)| == 13 && DealShare(cards, 4, 3)[12] == cards[51]
  {
    DealShareOfFour(cards, 3);
    var a, b, c := cards[12..16], cards[28..32], cards[47..52];
    assert |a + b + c| == 13 && (a + b + c)[12] == c[4] == cards[51];
  }

  /** With a 52-card deck the last card of the deck goes to the seat three
      places after `starting`, as the last card of its hand. */
  lemma LastCardDealt(cards: seq<Card>, starting: nat)
    requires |cards| == 52 && starting < 4
    ensures |DealtHands(cards, starting)[SeatAt(starting, 3)]| == 13 &&
      DealtHands(cards, starting)[SeatAt(starting, 3)][12] == cards[51]
  {
    assert DealtHands(cards, starting)[SeatAt(starting, 3)] == DealShare(cards, 4, 3) by {
      SeatsAroundTheTable(starting, 3);
    }
    assert |DealShare(cards, 4, 3)| == 13 && DealShare(cards, 4, 3)[12] == cards[51] by {
      DealShareFourLast(cards);
    }
  }

  /** The contract the bidding gives for the hands' bids. */
  function BiddingContract(bids: seq<Bid>, starting: nat): (c: Contract)
    requires |bids| == 4 && starting < 4
    ensures (c.mode == Solo ==> |c.team| > 0) && forall k :: 0 <= k < |c.team| ==> c.team[k] < 4
    ensures c.mode == Redeal <==> Askers(bids, starting) == []
  {
    AskersProperties(bids, starting);
    PointsZeroSum(Askers(bids, starting), [0, 0, 0, 0]);
    DetermineMode(Askers(bids, starting))
  }

  /** `reassemble_deck`: the collected cards cut at `cut`, so that card `i` of
      the new deck is card `(i + cut) % n` of the old one. Fewer than two cards
      cannot be cut: `randint(1, len - 1)` has an empty range. */
  function ReassembleDeck(cards: seq<Card>, cut: nat): (r: Option<seq<Card>>)
    requires |cards| < 2 || 1 <= cut < |cards|
    ensures r.None? <==> |cards| < 2
    ensures r.Some? ==> |r.value| == |cards| && multiset(r.value) == multiset(cards)
    ensures r.Some? ==> forall i :: 0 <= i < |cards| ==> r.value[i] == cards[(i + cut) % |cards|]
  {
    if |cards| < 2 then None
    else
      var d := Cut(cards, cut);
      assert forall i :: 0 <= i < |cards| ==> d[i] == cards[(i + cut) % |cards|] by {
        forall i | 0 <= i < |cards| ensures d[i] == cards[(i + cut) % |cards|] {
          if i < |cards| - cut {
            ModBelow(i + cut, |cards|);
          } else {
            ModWrap(i + cut, |cards|);
          }
        }
      }
      Some(d)
  }

  lemma ModBelow(a: int, n: int)
    requires 0 <= a < n
    ensures a % n == a
  {
  }

  lemma ModWrap(a: int, n: int)
    requires 0 < n <= a < 2 * n
    ensures a % n == a - n
  {
    ModBelow(a - n, n);
    assert a == (a - n) + n;
  }


  // ------------------------------------------------------- tricks of a round

  /** The four seats' trick counts together. */
  function TrickTotal(tricks: seq<nat>): nat
    requires |tricks| == 4
  {
    tricks[0] + tricks[1] + tricks[2] + tricks[3]
  }

  /** Every seat's pile holds four cards per trick it won. */
  ghost predicate PilesMatchTricks(piles: seq<seq<Card>>, tricks: seq<nat>)
    requires |piles| == 4 && |tricks| == 4
  {
    forall s :: 0 <= s < 4 ==> |piles[s]| == 4 * tricks[s]
  }

  /** Adding a trick to one pile adds its cards to the cards of all piles. */
  lemma AwardKeepsCards(piles: seq<seq<Card>>, w: nat, trick: seq<Card>)
    requires w < |piles|
    ensures multiset(Flatten(piles[w := piles[w] + trick])) == multiset(Flatten(piles)) + multiset(trick)
  {
    FlattenUpdate(piles, w, piles[w] + trick);
    MultisetCancel(multiset(Flatten(piles[w := piles[w] + trick])),
                   multiset(Flatten(piles)) + multiset(trick), multiset(piles[w]));
  }

  /** What the seats hold during the play of a round: their hands, the tricks
      they won, the cards they collected, and the seat to lead. */
  datatype Table = Table(hands: seq<seq<Card>>, tricks: seq<nat>, piles: seq<seq<Card>>, lead: nat)

  /** Four seats, each holding `n` cards, and a seat to lead. */
  ghost predicate Seated(tb: Table, n: nat)
  {
    |tb.hands| == 4 && |tb.tricks| == 4 && |tb.piles| == 4 && tb.lead < 4 &&
    forall s :: 0 <= s < 4 ==> |tb.hands[s]| == n
  }

  /** The table after a trick that left the hands `hands`, in which the cards
      `cards` were played and `w` won: the winner counts the trick, adds the
      cards to their pile and leads next. */
  function Award(tricks: seq<nat>, piles: seq<seq<Card>>, hands: seq<seq<Card>>, cards: seq<Card>, w: nat): (u: Table)
    requires |tricks| == 4 && |piles| == 4 && w < 4
    ensures u.hands == hands && u.lead == w && |u.tricks| == 4 && |u.piles| == 4
    ensures TrickTotal(u.tricks) == TrickTotal(tricks) + 1
    ensures u.tricks[w] == tricks[w] + 1 && u.piles[w] == piles[w] + cards
    ensures forall s :: 0 <= s < 4 && s != w ==> u.tricks[s] == tricks[s] && u.piles[s] == piles[s]
  {
    Table(hands, tricks[w := tricks[w] + 1], piles[w := piles[w] + cards], w)
  }

  /** One trick of the 13: the seats play `TrickTurns` from the lead and the
      trick is awarded. */
  function TrickPlayed(tb: Table, trump: Suit, n: nat): (u: Table)
    requires Seated(tb, n) && n > 0
    ensures Seated(u, n - 1)
  {
    TrickHandSizes(tb.hands, tb.lead, trump, 4);
    var t := TrickTurns(tb.hands, tb.lead, trump, 4);
    Award(tb.tricks, tb.piles, t.hands, t.cards, t.winner)
  }

  /** The first `k` tricks of a round in which every seat starts with `n` cards. */
  function TricksPlayed(tb: Table, trump: Suit, n: nat, k: nat): (u: Table)
    requires Seated(tb, n) && k <= n
    ensures Seated(u, n - k)
  {
    if k == 0 then tb else TrickPlayed(TricksPlayed(tb, trump, n, k - 1), trump, n - k + 1)
  }

  lemma TricksPlayedNext(tb: Table, trump: Suit, n: nat, j: nat)
    requires Seated(tb, n) && j < n
    ensures TricksPlayed(tb, trump, n, j + 1) == TrickPlayed(TricksPlayed(tb, trump, n, j), trump, n - j)
  {
  }

  /** The cards the four seats hold together. */
  ghost function Held(xs: seq<seq<Card>>): multiset<Card>
    requires |xs| == 4
  {
    multiset(xs[0]) + multiset(xs[1]) + multiset(xs[2]) + multiset(xs[3])
  }

  lemma HeldFlatten(xs: seq<seq<Card>>)
    requires |xs| == 4
    ensures Held(xs) == multiset(Flatten(xs))
  {
    FlattenFour(xs);
  }

  /** The cards at the table: those in the hands and those in the piles. */
  ghost function CardsAtTable(tb: Table): multiset<Card>
    requires |tb.hands| == 4 && |tb.piles| == 4
  {
    Held(tb.hands) + Held(tb.piles)
  }

  /** A trick moves cards from the hands to a pile and loses none. */
  lemma TrickPlayedKeepsCards(tb: Table, trump: Suit, n: nat)
    requires Seated(tb, n) && n > 0
    ensures CardsAtTable(TrickPlayed(tb, trump, n)) == CardsAtTable(tb)
  {
    var t := TrickTurns(tb.hands, tb.lead, trump, 4);
    TrickConservation(tb.hands, tb.lead, trump, 4);
    AwardKeepsCards(tb.piles, t.winner, t.cards);
    var u := TrickPlayed(tb, trump, n);
    HeldFlatten(tb.hands);
    HeldFlatten(tb.piles);
    HeldFlatten(u.hands);
    HeldFlatten(u.piles);
    Transfer(multiset(Flatten(u.hands)), multiset(Flatten(tb.hands)), multiset(t.cards),
             multiset(Flatten(u.piles)), multiset(Flatten(tb.piles)),
             multiset(Flatten(tb.hands)) + multiset(Flatten(tb.piles)));
  }

  /** A trick adds one to the total, and the piles keep four cards per trick won. */
  lemma TrickPlayedCounts(tb: Table, trump: Suit, n: nat)
    requires Seated(tb, n) && n > 0 && PilesMatchTricks(tb.piles, tb.tricks)
    ensures var u := TrickPlayed(tb, trump, n);
      PilesMatchTricks(u.piles, u.tricks) && TrickTotal(u.tricks) == TrickTotal(tb.tricks) + 1
  {
  }

  /** A trick goes to the seat that played its winning card: that seat counts
      one more trick, its pile gains the four cards of the trick in play order
      and it leads next; the other seats keep their counts and piles. */
  lemma TrickCredited(tb: Table, trump: Suit, n: nat)
    requires Seated(tb, n) && n > 0
    ensures var u := TrickPlayed(tb, trump, n);
      var t := TrickTurns(tb.hands, tb.lead, trump, 4);
      var w := SeatAt(tb.lead, WinningIndex(t.cards, trump));
      u.lead == w && u.tricks[w] == tb.tricks[w] + 1 && u.piles[w] == tb.piles[w] + t.cards &&
      forall s :: 0 <= s < 4 && s != w ==> u.tricks[s] == tb.tricks[s] && u.piles[s] == tb.piles[s]
  {
    TrickWinner(tb.hands, tb.lead, trump, 4);
    TrickHandSizes(tb.hands, tb.lead, trump, 4);
    var t := TrickTurns(tb.hands, tb.lead, trump, 4);
    assert TrickPlayed(tb, trump, n) == Award(tb.tricks, tb.piles, t.hands, t.cards, t.winner);
  }

  /** The tricks of a round lose no card. */
  lemma {:induction false} TricksPlayedKeepCards(tb: Table, trump: Suit, n: nat, k: nat)
    requires Seated(tb, n) && k <= n
    ensures CardsAtTable(TricksPlayed(tb, trump, n, k)) == CardsAtTable(tb)
  {
    if k == 0 {
      assert TricksPlayed(tb, trump, n, k) == tb;
    } else {
      var j := k - 1;
      TricksPlayedKeepCards(tb, trump, n, j);
      KeepCardsStep(tb, trump, n, j);
    }
  }

  lemma KeepCardsStep(tb: Table, trump: Suit, n: nat, j: nat)
    requires Seated(tb, n) && j < n
    requires CardsAtTable(TricksPlayed(tb, trump, n, j)) == CardsAtTable(tb)
    ensures CardsAtTable(TricksPlayed(tb, trump, n, j + 1)) == CardsAtTable(tb)
  {
    TrickPlayedKeepsCards(TricksPlayed(tb, trump, n, j), trump, n - j);
  }

  /** After `k` tricks the counts have grown by `k` and the piles still hold
      four cards per trick won. */
  lemma {:induction false} TricksPlayedCount(tb: Table, trump: Suit, n: nat, k: nat)
    requires Seated(tb, n) && k <= n && PilesMatchTricks(tb.piles, tb.tricks)
    ensures var u := TricksPlayed(tb, trump, n, k);
      PilesMatchTricks(u.piles, u.tricks) && TrickTotal(u.tricks) == TrickTotal(tb.tricks) + k
  {
    if k == 0 {
      assert TricksPlayed(tb, trump, n, k) == tb;
    } else {
      var j := k - 1;
      TricksPlayedCount(tb, trump, n, j);
      CountStep(tb, trump, n, j);
    }
  }

  lemma CountStep(tb: Table, trump: Suit, n: nat, j: nat)
    requires Seated(tb, n) && j < n
    requires var v := TricksPlayed(tb, trump, n, j);
      PilesMatchTricks(v.piles, v.tricks) && TrickTotal(v.tricks) == TrickTotal(tb.tricks) + j
    ensures var u := TricksPlayed(tb, trump, n, j + 1);
      PilesMatchTricks(u.piles, u.tricks) && TrickTotal(u.tricks) == TrickTotal(tb.tricks) + j + 1
  {
    TrickPlayedCounts(TricksPlayed(tb, trump, n, j), trump, n - j);
  }

  /** Playing out hands of `n` cards from empty piles: the hands end empty,
      `n` tricks are won in all, each pile holds four cards per trick won,
      and together the piles hold exactly the cards that were in the hands. */
  lemma PlayedOut(tb: Table, trump: Suit, n: nat)
    requires Seated(tb, n) && PilesMatchTricks(tb.piles, tb.tricks) && TrickTotal(tb.tricks) == 0
    requires Held(tb.piles) == multiset{}
    ensures var u := TricksPlayed(tb, trump, n, n);
      u.hands == [[], [], [], []] && TrickTotal(u.tricks) == n && PilesMatchTricks(u.piles, u.tricks) &&
      Held(u.piles) == Held(tb.hands)
  {
    var u := TricksPlayed(tb, trump, n, n);
    TricksPlayedKeepCards(tb, trump, n, n);
    TricksPlayedCount(tb, trump, n, n);
    assert u.hands == [[], [], [], []];
    assert Held(u.hands) == multiset{};
    MultisetCancel(Held(u.piles), Held(tb.hands), multiset{});
  }

  // ------------------------------------------------------------------- rounds

  /** The contract the bidding reaches over the hands dealt from `cards`. */
  function RoundContract(cards: seq<Card>, starting: nat): (c: Contract)
    requires |cards| >= 52 && starting < 4
    ensures (c.mode == Solo ==> |c.team| > 0) && forall k :: 0 <= k < |c.team| ==> c.team[k] < 4
  {
    var trump := DealtTrumpCard(cards, starting).suit;
    BiddingContract(Bids(DealtHands(cards, starting), trump), starting)
  }

  /** The points of a round by seat, and the cards it hands back as the next deck. */
  datatype RoundResult = RoundResult(points: seq<int>, collected: seq<Card>)

  /** `play_round` on a deck already shuffled into `cards`: deal, trump, bid;
      on a redeal nobody scores and the undealt rest of the deck comes back;
      otherwise the 13 tricks are played, scored, and the piles come back in
      seat order. */
  function Round(cards: seq<Card>, starting: nat): (r: RoundResult)
    requires |cards| >= 52 && starting < 4
    ensures |r.points| == 4
  {
    var c := RoundContract(cards, starting);
    if c.mode == Redeal then RoundResult([0, 0, 0, 0], cards[52..])
    else
      DealtHandsPartition(cards, starting);
      PlayedRound(DealtHands(cards, starting), starting, DealtTrumpCard(cards, starting).suit, c)
  }

  /** A contract every seat of which is at the table. */
  predicate Playable(c: Contract)
  {
    c.mode != Redeal && (c.mode == Solo ==> |c.team| > 0) && forall k :: 0 <= k < |c.team| ==> c.team[k] < 4
  }

  /** The 13 tricks of a round played from `hands` with `starting` leading,
      scored for the contract `c`; the piles come back in seat order. */
  function PlayedRound(hands: seq<seq<Card>>, starting: nat, trump: Suit, c: Contract): (r: RoundResult)
    requires |hands| == 4 && starting < 4 && forall s :: 0 <= s < 4 ==> |hands[s]| == 13
    requires Playable(c)
    ensures |r.points| == 4
  {
    var u := TricksPlayed(Table(hands, [0, 0, 0, 0], [[], [], [], []], starting), trump, 13, 13);
    RoundResult(CalculatePoints(c, u.tricks), Flatten(u.piles))
  }

  /** A round is zero-sum: the points of the seats add up to nothing. */
  lemma RoundZeroSum(cards: seq<Card>, starting: nat)
    requires |cards| >= 52 && starting < 4
    ensures Total(Round(cards, starting).points) == 0
  {
    var c := RoundContract(cards, starting);
    var trump := DealtTrumpCard(cards, starting).suit;
    var bids := Bids(DealtHands(cards, starting), trump);
    AskersProperties(bids, starting);
    if c.mode != Redeal {
      DealtHandsPartition(cards, starting);
      var u := TricksPlayed(Table(DealtHands(cards, starting), [0, 0, 0, 0], [[], [], [], []], starting), trump, 13, 13);
      PointsZeroSum(Askers(bids, starting), u.tricks);
    }
  }

  /** A redeal scores nothing and hands back only the cards left after the
      deal; a played round hands back the 52 dealt cards and scores the
      contract on trick counts that add up to 13. */
  lemma RoundOutcome(cards: seq<Card>, starting: nat)
    requires |cards| >= 52 && starting < 4
    ensures var r := Round(cards, starting);
      var c := RoundContract(cards, starting);
      c.mode == Redeal ==> r.points == [0, 0, 0, 0] && r.collected == cards[52..]
    ensures var r := Round(cards, starting);
      var c := RoundContract(cards, starting);
      c.mode != Redeal ==>
        |r.collected| == 52 && multiset(r.collected) == multiset(cards[..52]) &&
        exists tricks: seq<nat> :: |tricks| == 4 && TrickTotal(tricks) == 13 && r.points == CalculatePoints(c, tricks)
  {
    var c := RoundContract(cards, starting);
    if c.mode != Redeal {
      DealtHandsPartition(cards, starting);
      var hands := DealtHands(cards, starting);
      var trump := DealtTrumpCard(cards, starting).suit;
      FreshTablePlayedOut(hands, starting, trump);
      var u := TricksPlayed(Table(hands, [0, 0, 0, 0], [[], [], [], []], starting), trump, 13, 13);
      assert |u.tricks| == 4 && TrickTotal(u.tricks) == 13;
    }
  }

  /** Thirteen tricks played from hands of 13 cards and empty piles: the
      counts add up to 13 and the piles hand back exactly the 52 cards held. */
  lemma FreshTablePlayedOut(hands: seq<seq<Card>>, starting: nat, trump: Suit)
    requires |hands| == 4 && starting < 4 && forall s :: 0 <= s < 4 ==> |hands[s]| == 13
    ensures var u := TricksPlayed(Table(hands, [0, 0, 0, 0], [[], [], [], []], starting), trump, 13, 13);
      TrickTotal(u.tricks) == 13 &&
      |Flatten(u.piles)| == 52 && multiset(Flatten(u.piles)) == multiset(Flatten(hands))
  {
    var tb := Table(hands, [0, 0, 0, 0], [[], [], [], []], starting);
    PlayedOut(tb, trump, 13);
    var u := TricksPlayed(tb, trump, 13, 13);
    HeldFlatten(u.piles);
    HeldFlatten(hands);
    FlattenFour(hands);
  }

  /** With a 52-card deck a redeal hands back no cards at all, and the next
      `reassemble_deck` has nothing to cut. */
  lemma RedealEmptiesDeck(cards: seq<Card>, starting: nat, cut: nat)
    requires |cards| == 52 && starting < 4 && RoundContract(cards, starting).mode == Redeal
    ensures Round(cards, starting).collected == []
    ensures ReassembleDeck(Round(cards, starting).collected, cut) == None
  {
  }

  /** The match scores after a round: each seat adds its round points. */
  function AddPoints(totals: seq<int>, points: seq<int>): (r: seq<int>)
    requires |totals| == 4 && |points| == 4
    ensures |r| == 4 && forall s :: 0 <= s < 4 ==> r[s] == totals[s] + points[s]
    ensures Total(r) == Total(totals) + Total(points)
  {
    [totals[0] + points[0], totals[1] + points[1], totals[2] + points[2], totals[3] + points[3]]
  }

  /** `run` goes on while every score is below the target. */
  predicate MatchOver(totals: seq<int>, target: int): (b: bool)
    requires |totals| == 4
    ensures b <==> totals[OverallWinner(totals)] >= target
  {
    exists s :: 0 <= s < 4 && totals[s] >= target
  }

  /** The overall winner of `run`: the first seat with the highest score. */
  function OverallWinner(totals: seq<int>): (w: nat)
    requires |totals| == 4
    ensures w < 4 && forall s :: 0 <= s < 4 ==> totals[s] <= totals[w]
    ensures forall s :: 0 <= s < w ==> totals[s] < totals[w]
  {
    FirstBest(totals, 0, 1)
  }

  /** The first seat holding the highest score among seat `best` and seats `i` to 3. */
  function FirstBest(totals: seq<int>, best: nat, i: nat): (w: nat)
    requires |totals| == 4 && best < i <= 4
    requires forall s :: 0 <= s < i ==> totals[s] <= totals[best]
    requires forall s :: 0 <= s < best ==> totals[s] < totals[best]
    ensures w < 4 && forall s :: 0 <= s < 4 ==> totals[s] <= totals[w]
    ensures forall s :: 0 <= s < w ==> totals[s] < totals[w]
    decreases 4 - i
  {
    if i == 4 then best
    else if totals[i] > totals[best] then FirstBest(totals, i, i + 1)
    else FirstBest(totals, best, i + 1)
  }

  /** `randint(1, len - 1)` with `choice` standing for the random draw. */
  function CutPoint(n: nat, choice: nat): (cut: nat)
    ensures n >= 2 ==> 1 <= cut < n
  {
    if n >= 2 then 1 + choice % (n - 1) else 0
  }

  /** The deck for the next round of `run`: the cards handed back, cut at
      `CutPoint` with `choice` standing for the random draw. */
  function NextDeck(collected: seq<Card>, choice: nat): (r: Option<seq<Card>>)
    ensures r.None? <==> |collected| < 2
    ensures r.Some? ==> multiset(r.value) == multiset(collected)
  {
    ReassembleDeck(collected, CutPoint(|collected|, choice))
  }

  // ------------------------------------------------------------ seat values

  /** Seat by seat, the cards of `h` followed by those of `d`. */
  function Joined(h: seq<seq<Card>>, d: seq<seq<Card>>): (j: seq<seq<Card>>)
    requires |h| == 4 && |d| == 4
    ensures |j| == 4
  {
    [h[0] + d[0], h[1] + d[1], h[2] + d[2], h[3] + d[3]]
  }

  /** Where the slice of the `k`-th seat served in pass `r` starts. */
  function PassOffset(r: nat, k: nat): (p: nat)
    requires r < 3
    ensures k < 4 ==> p + DealCounts[r] <= FourPassStart(r + 1)
    ensures k == 4 ==> p == FourPassStart(r + 1)
  {
    FourPassStart(r) + DealCounts[r] * k
  }

  lemma PassOffsetStep(r: nat, k: nat)
    requires r < 3
    ensures PassOffset(r, k + 1) == PassOffset(r, k) + DealCounts[r]
  {
  }

  /** What seat `s` gets in pass `r` of a deal from `starting` once the
      first `i` seats of the pass have been served. */
  function PassPart(deck: seq<Card>, starting: nat, r: nat, i: nat, s: nat): seq<Card>
    requires starting < 4 && r < 3 && s < 4
  {
    var k := Offset(starting, s);
    if k < i then Slice(deck, PassOffset(r, k), DealCounts[r]) else []
  }

  function PassParts(deck: seq<Card>, starting: nat, r: nat, i: nat): (p: seq<seq<Card>>)
    requires starting < 4 && r < 3
    ensures |p| == 4
  {
    [PassPart(deck, starting, r, i, 0), PassPart(deck, starting, r, i, 1),
     PassPart(deck, starting, r, i, 2), PassPart(deck, starting, r, i, 3)]
  }

  /** Before a pass serves any seat, the hands are as they were. */
  lemma NothingPassedYet(h: seq<seq<Card>>, deck: seq<Card>, starting: nat, r: nat)
    requires |h| == 4 && starting < 4 && r < 3
    ensures Joined(h, PassParts(deck, starting, r, 0)) == h
  {
    assert h[0] + [] == h[0] && h[1] + [] == h[1] && h[2] + [] == h[2] && h[3] + [] == h[3];
  }

  /** Serving the `i`-th seat of a pass adds its slice to that seat alone. */
  lemma PassStep(h: seq<seq<Card>>, deck: seq<Card>, starting: nat, r: nat, i: nat)
    requires |h| == 4 && starting < 4 && r < 3 && i < 4
    ensures var s := SeatAt(starting, i);
      var before := Joined(h, PassParts(deck, starting, r, i));
      Joined(h, PassParts(deck, starting, r, i + 1))
        == before[s := before[s] + Slice(deck, PassOffset(r, i), DealCounts[r])]
  {
    var s := SeatAt(starting, i);
    var before := Joined(h, PassParts(deck, starting, r, i));
    var after := Joined(h, PassParts(deck, starting, r, i + 1));
    var slice := Slice(deck, PassOffset(r, i), DealCounts[r]);
    forall m | 0 <= m < 4 ensures after[m] == before[s := before[s] + slice][m] {
      PassPartStep(h[m], deck, starting, r, i, m);
    }
  }

  /** One seat's view of `PassStep`. */
  lemma PassPartStep(hm: seq<Card>, deck: seq<Card>, starting: nat, r: nat, i: nat, m: nat)
    requires starting < 4 && r < 3 && i < 4 && m < 4
    ensures var slice := Slice(deck, PassOffset(r, i), DealCounts[r]);
      hm + PassPart(deck, starting, r, i + 1, m)
        == if m == SeatAt(starting, i) then hm + PassPart(deck, starting, r, i, m) + slice
           else hm + PassPart(deck, starting, r, i, m)
  {
    SeatsAroundTheTable(starting, i);
    if m == SeatAt(starting, i) {
      assert hm + [] == hm;
    }
  }

  /** What the seats hold after the first `r` passes of a deal from `starting`. */
  function DealUpTo(deck: seq<Card>, starting: nat, r: nat): (d: seq<seq<Card>>)
    requires starting < 4 && r <= 3
    ensures |d| == 4
  {
    [DealShareUpTo(deck, 4, Offset(starting, 0), r), DealShareUpTo(deck, 4, Offset(starting, 1), r),
     DealShareUpTo(deck, 4, Offset(starting, 2), r), DealShareUpTo(deck, 4, Offset(starting, 3), r)]
  }

  /** A whole pass takes the deal from `r` passes to `r + 1`. */
  lemma DealStep(h: seq<seq<Card>>, deck: seq<Card>, starting: nat, r: nat)
    requires |h| == 4 && starting < 4 && r < 3
    ensures Joined(Joined(h, DealUpTo(deck, starting, r)), PassParts(deck, starting, r, 4))
         == Joined(h, DealUpTo(deck, starting, r + 1))
  {
    var before := Joined(Joined(h, DealUpTo(deck, starting, r)), PassParts(deck, starting, r, 4));
    var after := Joined(h, DealUpTo(deck, starting, r + 1));
    forall s | 0 <= s < 4 ensures before[s] == after[s] {
      DealSeatStep(h[s], deck, starting, r, s);
    }
  }

  /** One seat's view of `DealStep`. */
  lemma DealSeatStep(hs: seq<Card>, deck: seq<Card>, starting: nat, r: nat, s: nat)
    requires starting < 4 && r < 3 && s < 4
    ensures hs + DealShareUpTo(deck, 4, Offset(starting, s), r) + PassPart(deck, starting, r, 4, s)
         == hs + DealShareUpTo(deck, 4, Offset(starting, s), r + 1)
  {
    DealShareStep(deck, 4, Offset(starting, s), r);
  }

  /** Seats holding nothing hold what they are given. */
  lemma JoinedToNothing(d: seq<seq<Card>>)
    requires |d| == 4
    ensures Joined([[], [], [], []], d) == d
  {
    assert [] + d[0] == d[0] && [] + d[1] == d[1] && [] + d[2] == d[2] && [] + d[3] == d[3];
  }

  /** `xs` with its first `k` entries replaced by `v`. */
  function Reset<T>(xs: seq<T>, k: nat, v: T): (r: seq<T>)
    ensures |r| == |xs|
  {
    seq(|xs|, i requires 0 <= i < |xs| => if i < k then v else xs[i])
  }

  /** Resetting one more entry. */
  lemma ResetStep<T>(xs: seq<T>, k: nat, v: T)
    requires k < |xs|
    ensures Reset(xs, k + 1, v) == Reset(xs, k, v)[k := v]
  {
  }

  // --------------------------------------------------------------------- game

  /** `Game`: four players, seat `s` is `players[s]`, and the match score by seat. */
  class Game {
    const players: seq<BaselinePlayer>
    var totalPoints: seq<int>
    const targetScore: int

    ghost predicate Valid()
      reads this
    {
      |players| == 4 && |totalPoints| == 4 &&
      forall s, r :: 0 <= s < r < 4 ==> players[s] != players[r]
    }

    /** The seats' hands. */
    function Hands(): (h: seq<seq<Card>>)
      reads this, players
      requires |players| == 4
      ensures |h| == 4 && forall i :: 0 <= i < 4 ==> h[i] == players[i].hand
    {
      [players[0].hand, players[1].hand, players[2].hand, players[3].hand]
    }

    /** The seats' trick counts. */
    function TricksWon(): (t: seq<nat>)
      reads this, players
      requires |players| == 4
      ensures |t| == 4
    {
      [players[0].tricksWon, players[1].tricksWon, players[2].tricksWon, players[3].tricksWon]
    }

    /** The seats' piles of collected cards. */
    function Collected(): (c: seq<seq<Card>>)
      reads this, players
      requires |players| == 4
      ensures |c| == 4
    {
      [players[0].collectedCards, players[1].collectedCards, players[2].collectedCards, players[3].collectedCards]
    }

    /** Between rounds: no cards in hand, no tricks, no collected cards. */
    ghost predicate RoundClear()
      reads this, players
      requires |players| == 4
    {
      Hands() == [[], [], [], []] && TricksWon() == [0, 0, 0, 0] && Collected() == [[], [], [], []]
    }

    /** `Game()`: players "Player 1" to "Player 4", no points, playing to 9. */
    constructor()
      ensures Valid() && RoundClear() && fresh(players)
      ensures players[0].name == "Player 1" && players[1].name == "Player 2"
      ensures players[2].name == "Player 3" && players[3].name == "Player 4"
      ensures totalPoints == [0, 0, 0, 0] && targetScore == 9
    {
      var p1 := new BaselinePlayer("Player 1");
      var p2 := new BaselinePlayer("Player 2");
      var p3 := new BaselinePlayer("Player 3");
      var p4 := new BaselinePlayer("Player 4");
      players := [p1, p2, p3, p4];
      totalPoints := [0, 0, 0, 0];
      targetScore := 9;
    }

    /** `add_cards` on seat `s`. */
    method Give(s: nat, cards: seq<Card>)
      requires Valid() && s < 4
      modifies players[s]
      ensures Hands() == old(Hands())[s := old(Hands())[s] + cards]
      ensures TricksWon() == old(TricksWon()) && Collected() == old(Collected())
    {
      players[s].AddCards(cards);
    }

    /** `clear_round_data` on seat `s`. */
    method ClearSeat(s: nat)
      requires Valid() && s < 4
      modifies players[s]
      ensures Hands() == old(Hands())[s := []]
      ensures TricksWon() == old(TricksWon())[s := 0] && Collected() == old(Collected())[s := []]
    {
      players[s].ClearRoundData();
    }

    /** One pass of the deal: each seat in turn from `starting` gets the next
        `DealCounts[r]` cards of the deck. */
    method DealPass(deck: seq<Card>, rest: seq<Card>, starting: nat, r: nat) returns (left: seq<Card>)
      requires Valid() && starting < 4 && r < 3 && |deck| >= 52 && rest == deck[FourPassStart(r)..]
      modifies players
      ensures left == deck[FourPassStart(r + 1)..]
      ensures Hands() == Joined(old(Hands()), PassParts(deck, starting, r, 4))
      ensures TricksWon() == old(TricksWon()) && Collected() == old(Collected())
    {
      ghost var h := Hands();
      NothingPassedYet(h, deck, starting, r);
      left := rest;
      var i := 0;
      while i < 4
        invariant i <= 4 && Passing(deck, h, starting, r, i, left)
        invariant TricksWon() == old(TricksWon()) && Collected() == old(Collected())
      {
        left := ServeSeat(deck, h, starting, r, i, left);
        i := i + 1;
      }
    }

    /** Pass `r` of a deal from `starting` has served its first `i` seats,
        which have added their slices to the hands `h`, and `left` is the
        deck from the next slice on. */
    ghost predicate Passing(deck: seq<Card>, h: seq<seq<Card>>, starting: nat, r: nat, i: nat, left: seq<Card>)
      reads this, players
    {
      |players| == 4 && |h| == 4 && starting < 4 && r < 3 && i <= 4 && |deck| >= 52 &&
      PassOffset(r, i) <= |deck| &&
      left == deck[PassOffset(r, i)..] &&
      Hands() == Joined(h, PassParts(deck, starting, r, i))
    }

    /** The `i`-th seat of pass `r` takes the next `DealCounts[r]` cards. */
    method ServeSeat(deck: seq<Card>, ghost h: seq<seq<Card>>, starting: nat, r: nat, i: nat, left: seq<Card>)
      returns (left': seq<Card>)
      requires Valid() && i < 4 && Passing(deck, h, starting, r, i, left)
      modifies players[SeatAt(starting, i)]
      ensures Passing(deck, h, starting, r, i + 1, left')
      ensures TricksWon() == old(TricksWon()) && Collected() == old(Collected())
    {
      var count := DealCounts[r];
      ghost var slice := Slice(deck, PassOffset(r, i), count);
      assert left[..count] == slice && left[count..] == deck[PassOffset(r, i + 1)..] by {
        PassOffsetStep(r, i);
      }
      ghost var before := Joined(h, PassParts(deck, starting, r, i));
      assert Hands() == before;
      Give(SeatAt(starting, i), left[..count]);
      left' := left[count..];
      assert Hands() == Joined(h, PassParts(deck, starting, r, i + 1)) by {
        PassStep(h, deck, starting, r, i);
      }
    }

    /** The 4-4-5 deal of `play_round`: seat `s` gets `DealShare` of its place
        after `starting`, and the deck keeps what is left after 52 cards. */
    method Deal(deck: seq<Card>, starting: nat) returns (rest: seq<Card>)
      requires Valid() && starting < 4 && |deck| >= 52
      modifies players
      ensures rest == deck[52..]
      ensures Hands() == Joined(old(Hands()), DealtHands(deck, starting))
      ensures TricksWon() == old(TricksWon()) && Collected() == old(Collected())
    {
      ghost var h := Hands();
      assert Joined(h, DealUpTo(deck, starting, 0)) == h by {
        assert h[0] + [] == h[0] && h[1] + [] == h[1] && h[2] + [] == h[2] && h[3] + [] == h[3];
      }
      rest := deck;
      for r := 0 to 3
        invariant rest == deck[FourPassStart(r)..]
        invariant Hands() == Joined(h, DealUpTo(deck, starting, r))
        invariant TricksWon() == old(TricksWon()) && Collected() == old(Collected())
      {
        DealStep(h, deck, starting, r);
        rest := DealPass(deck, rest, starting, r);
      }
      assert DealUpTo(deck, starting, 3) == DealtHands(deck, starting);
    }

    /** The bidding of `play_round`: seats from `starting` on bid in turn
        until two have asked. */
    method Bidding(trump: Suit, starting: nat) returns (askers: seq<nat>)
      requires Valid() && starting < 4
      ensures askers == Askers(Bids(Hands(), trump), starting)
    {
      var hands := Hands();
      ghost var bids := Bids(hands, trump);
      askers := [];
      var i := 0;
      while i < 4
        invariant i <= 4 && askers == AskingSeats(bids, starting, i) && |askers| < 2
      {
        askers := BidInTurn(hands, trump, starting, i, askers);
        if |askers| == 2 {
          BiddingStops(bids, starting, i + 1);
          return;
        }
        i := i + 1;
      }
    }

    /** `play_card` on seat `s`. */
    method PlayFromSeat(s: nat, leadingSuit: Option<Suit>, trump: Suit, winner: Option<Card>, isLeading: bool)
      returns (card: Card)
      requires Valid() && s < 4 && |Hands()[s]| > 0
      modifies players[s]
      ensures Hands() == old(Hands())[s := Hands()[s]]
      ensures Play(card, Hands()[s]) == PlayCardSpec(old(Hands())[s], leadingSuit, trump, winner, isLeading)
      ensures TricksWon() == old(TricksWon()) && Collected() == old(Collected())
    {
      ghost var hand := players[s].hand;
      ghost var before := Hands();
      card := players[s].PlayCard(leadingSuit, trump, winner, isLeading);
      forall i | 0 <= i < 4 ensures Hands()[i] == before[s := players[s].hand][i] {
        if i != s {
          assert players[i] != players[s];
        }
      }
    }

    /** One turn of a trick: the seat plays its card, which takes the trick
        so far when it leads or can beat the winning card, as `Turn` says. */
    method PlayTurn(s: nat, trump: Suit, trick: seq<Card>, best: Option<Card>, winner: nat)
      returns (trick': seq<Card>, best': Option<Card>, winner': nat)
      requires Valid() && s < 4 && |Hands()[s]| > 0
      modifies players[s]
      ensures var t := Turn(TrickState(old(Hands()), trick, best, winner), s, trump);
        Hands() == t.hands && trick' == t.cards && best' == t.best && winner' == t.winner
      ensures TricksWon() == old(TricksWon()) && Collected() == old(Collected())
    {
      var isLeading := trick == [];
      var leadSuit := if isLeading then None else Some(trick[0].suit);
      var card := PlayFromSeat(s, leadSuit, trump, best, isLeading);
      trick' := trick + [card];
      if isLeading || CanBeat(card, best, trump) {
        best' := Some(card);
        winner' := s;
      } else {
        best' := best;
        winner' := winner;
      }
    }

    /** One trick of `play_round`: the seats from `lead` on play in turn and
        the trick goes as `TrickTurns` says. */
    method PlayTrick(lead: nat, trump: Suit) returns (trick: seq<Card>, winner: nat)
      requires Valid() && lead < 4
      requires forall s :: 0 <= s < 4 ==> |Hands()[s]| > 0
      modifies players
      ensures var t := TrickTurns(old(Hands()), lead, trump, 4);
        Hands() == t.hands && trick == t.cards && winner == t.winner
      ensures TricksWon() == old(TricksWon()) && Collected() == old(Collected())
    {
      ghost var hands := Hands();
      trick := [];
      var best: Option<Card> := None;
      winner := lead;
      var i := 0;
      while i < 4
        invariant i <= 4
        invariant var t := TrickTurns(hands, lead, trump, i);
          Hands() == t.hands && trick == t.cards && best == t.best && winner == t.winner
        invariant TricksWon() == old(TricksWon()) && Collected() == old(Collected())
      {
        trick, best, winner := TrickStep(lead, trump, hands, i, trick, best, winner);
        i := i + 1;
      }
    }

    /** The `i`-th turn of a trick led by `lead`. */
    method TrickStep(lead: nat, trump: Suit, ghost hands: seq<seq<Card>>, i: nat,
                     trick: seq<Card>, best: Option<Card>, winner: nat)
      returns (trick': seq<Card>, best': Option<Card>, winner': nat)
      requires Valid() && lead < 4 && i < 4
      requires |hands| == 4 && forall s :: 0 <= s < 4 ==> |hands[s]| > 0
      requires var t := TrickTurns(hands, lead, trump, i);
        Hands() == t.hands && trick == t.cards && best == t.best && winner == t.winner
      modifies players[SeatAt(lead, i)]
      ensures var t := TrickTurns(hands, lead, trump, i + 1);
        Hands() == t.hands && trick' == t.cards && best' == t.best && winner' == t.winner
      ensures TricksWon() == old(TricksWon()) && Collected() == old(Collected())
    {
      var s := SeatAt(lead, i);
      assert Hands()[s] == hands[s];
      trick', best', winner' := PlayTurn(s, trump, trick, best, winner);
    }

    /** The winner of a trick counts it and adds its cards to their pile. */
    method AwardTrick(winner: nat, trick: seq<Card>)
      requires Valid() && winner < 4
      modifies players[winner]
      ensures Table(Hands(), TricksWon(), Collected(), winner)
           == Award(old(TricksWon()), old(Collected()), old(Hands()), trick, winner)
    {
      players[winner].tricksWon := players[winner].tricksWon + 1;
      players[winner].collectedCards := players[winner].collectedCards + trick;
    }

    /** A trick played and awarded, as `TrickPlayed` says; the winner leads next. */
    method TrickOfTheRound(lead: nat, trump: Suit, ghost n: nat) returns (winner: nat)
      requires Valid() && n > 0 && Seated(Table(Hands(), TricksWon(), Collected(), lead), n)
      modifies players
      ensures Table(Hands(), TricksWon(), Collected(), winner)
           == TrickPlayed(Table(old(Hands()), old(TricksWon()), old(Collected()), lead), trump, n)
    {
      var trick;
      trick, winner := PlayTrick(lead, trump);
      AwardTrick(winner, trick);
    }

    /** The thirteen tricks of `play_round`, each led by the winner of the
        one before, as `TricksPlayed` says. */
    method PlayTricks(starting: nat, trump: Suit)
      requires Valid() && Seated(Table(Hands(), TricksWon(), Collected(), starting), 13)
      modifies players
      ensures Valid()
      ensures var u := TricksPlayed(Table(old(Hands()), old(TricksWon()), old(Collected()), starting), trump, 13, 13);
        Hands() == u.hands && TricksWon() == u.tricks && Collected() == u.piles
    {
      ghost var tb := Table(Hands(), TricksWon(), Collected(), starting);
      var lead := starting;
      var k := 0;
      while k < 13
        invariant k <= 13
        invariant Table(Hands(), TricksWon(), Collected(), lead) == TricksPlayed(tb, trump, 13, k)
      {
        lead := NextTrick(lead, trump, tb, k);
        k := k + 1;
      }
    }

    /** Trick `k + 1` of the thirteen, after the first `k`. */
    method NextTrick(lead: nat, trump: Suit, ghost tb: Table, ghost k: nat) returns (winner: nat)
      requires Valid() && Seated(tb, 13) && k < 13
      requires Table(Hands(), TricksWon(), Collected(), lead) == TricksPlayed(tb, trump, 13, k)
      modifies players
      ensures Table(Hands(), TricksWon(), Collected(), winner) == TricksPlayed(tb, trump, 13, k + 1)
    {
      winner := TrickOfTheRound(lead, trump, 13 - k);
      TricksPlayedNext(tb, trump, 13, k);
    }

    /** The collecting at the end of `play_round`: the piles in seat order,
        and every player cleared for the next round. */
    method CollectAll() returns (all: seq<Card>)
      requires Valid()
      modifies players
      ensures Valid() && all == Flatten(old(Collected()))
      ensures RoundClear()
    {
      ghost var hands, tricks, piles := Hands(), TricksWon(), Collected();
      all := [];
      for s := 0 to 4
        invariant all == Flatten(piles[..s])
        invariant Hands() == Reset(hands, s, []) && TricksWon() == Reset(tricks, s, 0)
        invariant Collected() == Reset(piles, s, [])
      {
        FlattenSnoc(piles[..s], piles[s]);
        assert piles[..s + 1] == piles[..s] + [piles[s]];
        assert players[s].collectedCards == Collected()[s] == Reset(piles, s, [])[s];
        all := all + players[s].collectedCards;
        ClearSeat(s);
        ResetStep(hands, s, []);
        ResetStep(tricks, s, 0);
        ResetStep(piles, s, []);
      }
      assert piles[..4] == piles;
    }

    /** The redeal of `play_round`: every player cleared. */
    method ClearAll()
      requires Valid()
      modifies players
      ensures Valid() && RoundClear()
    {
      ghost var hands, tricks, piles := Hands(), TricksWon(), Collected();
      for s := 0 to 4
        invariant Hands() == Reset(hands, s, []) && TricksWon() == Reset(tricks, s, 0)
        invariant Collected() == Reset(piles, s, [])
      {
        ClearSeat(s);
      }
    }

    /** `play_round`: shuffle with `perm`, deal from `starting`, turn up the
        trump, bid, and either redeal or play and score the 13 tricks, as
        `Round` says; the players end the round cleared. */
    method PlayRound(deck: seq<Card>, perm: seq<nat>, starting: nat) returns (points: seq<int>, collected: seq<Card>)
      requires Valid() && RoundClear() && starting < 4 && |deck| >= 52 && IsPermutation(perm, |deck|)
      modifies players
      ensures Valid() && RoundClear() && |points| == 4
      ensures RoundResult(points, collected) == Round(Shuffle(deck, perm), starting)
    {
      var cards := Shuffle(deck, perm);
      var rest, trump, contract := Prepare(cards, starting);
      if contract.mode == Redeal {
        ClearAll();
        points := [0, 0, 0, 0];
        collected := rest;
      } else {
        DealtHandsPartition(cards, starting);
        points, collected := PlayOut(starting, trump, contract);
      }
    }

    /** The deal, the trump card and the bidding of `play_round`. */
    method Prepare(cards: seq<Card>, starting: nat) returns (rest: seq<Card>, trump: Suit, contract: Contract)
      requires Valid() && RoundClear() && starting < 4 && |cards| >= 52
      modifies players
      ensures Valid() && rest == cards[52..]
      ensures Hands() == DealtHands(cards, starting) && TricksWon() == [0, 0, 0, 0] && Collected() == [[], [], [], []]
      ensures trump == DealtTrumpCard(cards, starting).suit && contract == RoundContract(cards, starting)
    {
      rest := Deal(cards, starting);
      JoinedToNothing(DealtHands(cards, starting));
      DealtHandsPartition(cards, starting);
      trump := TrumpCard(rest, players[3].hand).suit;
      var askers := Bidding(trump, starting);
      contract := DetermineMode(askers);
    }

    /** The played branch of `play_round`: the 13 tricks, the points of the
        contract on the tricks won, and the piles collected. */
    method PlayOut(starting: nat, trump: Suit, contract: Contract) returns (points: seq<int>, collected: seq<Card>)
      requires Valid() && starting < 4 && Playable(contract)
      requires Seated(Table(Hands(), TricksWon(), Collected(), starting), 13)
      requires TricksWon() == [0, 0, 0, 0] && Collected() == [[], [], [], []]
      modifies players
      ensures Valid() && RoundClear()
      ensures RoundResult(points, collected) == PlayedRound(old(Hands()), starting, trump, contract)
    {
      PlayTricks(starting, trump);
      points := CalculatePoints(contract, TricksWon());
      collected := CollectAll();
    }

    /** One pass of the loop of `run`: the round starts at seat
        `StartingIndex(round)`, every seat adds its round points to its score,
        and the cards handed back are cut at `CutPoint` into the next deck. */
    method PlayMatchRound(deck: seq<Card>, perm: seq<nat>, round: nat, choice: nat)
      returns (points: seq<int>, next: Option<seq<Card>>)
      requires Valid() && RoundClear() && round >= 1 && |deck| >= 52 && IsPermutation(perm, |deck|)
      modifies this, players
      ensures Valid() && RoundClear()
      ensures var r := Round(Shuffle(deck, perm), StartingIndex(round));
        points == r.points && next == NextDeck(r.collected, choice)
      ensures |points| == 4 && totalPoints == AddPoints(old(totalPoints), points)
      ensures Total(totalPoints) == Total(old(totalPoints))
    {
      var totals, collected := totalPoints, [];
      RoundZeroSum(Shuffle(deck, perm), StartingIndex(round));
      points, collected := PlayRound(deck, perm, StartingIndex(round));
      AddScore(totals, points);
      next := NextDeck(collected, choice);
    }

    /** The loop of `run` adds each seat's round points to its score. */
    method AddScore(totals: seq<int>, points: seq<int>)
      requires |players| == 4 && RoundClear() && |totals| == 4 && |points| == 4
      modifies this
      ensures RoundClear() && totalPoints == AddPoints(totals, points)
    {
      totalPoints := AddPoints(totals, points);
    }
  }
}
