/** The first draft of the round (src/normalgame.py): four players named
    player1..player4 (seats 0..3 here), a 4-4-5 deal, thirteen tricks played by
    a follow-suit rule without trumps or bidding, and a deck rebuilt from the
    collected piles in stacks of four and cut. */
module NormalGame {
  import opened Cards
  import opened Deck

  /** The seats player1..player4 in their fixed order. */
  const AllPlayers: seq<nat> := [0, 1, 2, 3]

  /** `cut_deck` with the outcome of `random.randint(1, len(cards) - 1)` as `cut`:
      the card at `cut` comes to the top and the one just above it goes to the bottom. */
  function CutDeck(cards: seq<Card>, cut: nat): (r: seq<Card>)
    requires 1 <= cut < |cards|
    ensures |r| == |cards| && multiset(r) == multiset(cards)
    ensures r[0] == cards[cut] && r[|r| - 1] == cards[cut - 1]
  {
    Cut(cards, cut)
  }

  /** One pass of `deal_deck`: each player in turn extends the hand with the
      next `count` cards from `start`. */
  method DealPass(cards: seq<Card>, hands: seq<seq<Card>>, start: nat, count: nat)
    returns (dealt: seq<seq<Card>>, next: nat)
    ensures |dealt| == |hands| && next == start + count * |hands|
    ensures forall j :: 0 <= j < |hands| ==> dealt[j] == hands[j] + Slice(cards, start + count * j, count)
  {
    dealt := hands;
    next := start;
    for j := 0 to |hands|
      invariant |dealt| == |hands| && next == start + count * j
      invariant forall m :: 0 <= m < j ==> dealt[m] == hands[m] + Slice(cards, start + count * m, count)
      invariant forall m :: j <= m < |hands| ==> dealt[m] == hands[m]
    {
      dealt := dealt[j := dealt[j] + Slice(cards, next, count)];
      next := next + count;
    }
  }

  /** `deal_deck`: three passes over the players in order, giving 4, 4 and 5
      consecutive cards from a running index (slices clamp at the end of the deck). */
  method DealDeck(cards: seq<Card>, hands: seq<seq<Card>>) returns (dealt: seq<seq<Card>>)
    ensures |dealt| == |hands|
    ensures forall j :: 0 <= j < |hands| ==> dealt[j] == hands[j] + DealShare(cards, |hands|, j)
  {
    var n := |hands|;
    dealt := hands;
    var cardIndex := 0;
    for r := 0 to 3
      invariant |dealt| == n
      invariant cardIndex == PassStart(n, r)
      invariant forall j :: 0 <= j < n ==> dealt[j] == hands[j] + DealShareUpTo(cards, n, j, r)
    {
      var before := dealt;
      dealt, cardIndex := DealPass(cards, dealt, cardIndex, DealCounts[r]);
      forall j | 0 <= j < n
        ensures dealt[j] == hands[j] + DealShareUpTo(cards, n, j, r + 1)
      {
        DealShareStep(cards, n, j, r);
      }
    }
  }

  /** `get_current_winning_card`: the best card of the leading suit played so
      far, or `None` when no card of that suit has been played. */
  function CurrentWinningCard(dealt: seq<Card>, lead: Suit): (r: Option<Card>)
    ensures r.None? <==> forall c :: c in dealt ==> c.suit != lead
    ensures r.Some? ==> r.value in dealt && r.value.suit == lead
    ensures r.Some? ==> forall c :: c in dealt && c.suit == lead ==> Key(r.value) <= Key(c)
  {
    var inSuit := FilterSuit(dealt, lead);
    if |inSuit| == 0 then
      assert inSuit == [];
      None
    else
      var b := BestCard(inSuit);
      assert forall c :: c in dealt && c.suit == lead ==> Key(b) <= Key(c) by {
        var i := BestCardIsFirstBest(inSuit);
        forall c | c in dealt && c.suit == lead ensures Key(b) <= Key(c) {
          assert c in inSuit;
          var k :| 0 <= k < |inSuit| && inSuit[k] == c;
        }
      }
      Some(b)
  }

  /** `can_beat_current_winner`: any card beats an absent winner; otherwise only
      a card of strictly lower rank value does. */
  predicate CanBeatCurrentWinner(card: Card, winner: Option<Card>): (b: bool)
    ensures winner.None? ==> b
    ensures winner.Some? && card.rank == winner.value.rank ==> !b
  {
    winner.None? || Key(card) < Key(winner.value)
  }

  /** A card of the leading suit that was not played before beats the current
      winner exactly when it becomes the current winner once played. */
  lemma BeatingTakesTheLead(dealt: seq<Card>, lead: Suit, c: Card)
    requires c.suit == lead && c !in dealt
    ensures CanBeatCurrentWinner(c, CurrentWinningCard(dealt, lead))
        <==> CurrentWinningCard(dealt + [c], lead) == Some(c)
  {
    var before := CurrentWinningCard(dealt, lead);
    var after := CurrentWinningCard(dealt + [c], lead);
    assert c in dealt + [c];
    var w := after.value;
    if CanBeatCurrentWinner(c, before) {
      forall d | d in dealt + [c] && d.suit == lead ensures Key(c) <= Key(d) {
        if d != c {
          assert d in dealt;
        }
      }
      assert Key(w) == Key(c);
      RankValueInjective(w.rank, c.rank);
    } else {
      var b := before.value;
      assert b in dealt + [c];
      DistinctCardsOfASuit(b, c);
      assert Key(w) <= Key(b) < Key(c);
    }
  }

  /** Index `i` holds the first card of minimal rank value among the
      leading-suit cards of `dealt[..n]`. */
  ghost predicate IsTrickWinnerIndex(dealt: seq<Card>, lead: Suit, n: nat, i: int)
    requires n <= |dealt|
  {
    0 <= i < n && dealt[i].suit == lead &&
    (forall j :: 0 <= j < n && dealt[j].suit == lead ==> Key(dealt[i]) <= Key(dealt[j])) &&
    (forall j :: 0 <= j < i && dealt[j].suit == lead ==> Key(dealt[j]) > Key(dealt[i]))
  }

  function Min(a: nat, b: nat): nat
  {
    if a < b then a else b
  }

  /** `get_round_winner`: walks the played cards alongside the play order and
      keeps the first card of the leading suit with the lowest rank value; when
      no card is of the leading suit, index -1 selects the last player. */
  method GetRoundWinner<P>(dealt: seq<Card>, order: seq<P>, lead: Suit) returns (winner: P)
    requires |order| > 0
    ensures (exists j :: 0 <= j < Min(|dealt|, |order|) && dealt[j].suit == lead) ==>
      exists i :: IsTrickWinnerIndex(dealt, lead, Min(|dealt|, |order|), i) && winner == order[i]
    ensures (forall j :: 0 <= j < Min(|dealt|, |order|) ==> dealt[j].suit != lead) ==>
      winner == order[|order| - 1]
  {
    var n := Min(|dealt|, |order|);
    var bestIndex := -1;
    var bestValue := 13;  // stands for float('inf'): above every rank value
    for i := 0 to n
      invariant -1 <= bestIndex < n
      invariant bestIndex == -1 <==> forall j :: 0 <= j < i ==> dealt[j].suit != lead
      invariant bestIndex == -1 ==> bestValue == 13
      invariant bestIndex >= 0 ==> IsTrickWinnerIndex(dealt, lead, i, bestIndex) && bestValue == Key(dealt[bestIndex])
    {
      if dealt[i].suit == lead {
        if Key(dealt[i]) < bestValue {
          bestValue := Key(dealt[i]);
          bestIndex := i;
        }
      }
    }
    winner := if bestIndex == -1 then order[|order| - 1] else order[bestIndex];
  }

  /** The position `get_round_winner` settles on among `dealt[..n]`: the first
      card of the leading suit with the lowest rank value, or -1 when no card
      is of the leading suit. */
  function FirstMinLead(dealt: seq<Card>, lead: Suit, n: nat): (b: int)
    requires n <= |dealt|
    ensures -1 <= b < n
    ensures b == -1 <==> forall j :: 0 <= j < n ==> dealt[j].suit != lead
    ensures b >= 0 ==> IsTrickWinnerIndex(dealt, lead, n, b)
  {
    if n == 0 then -1
    else
      var b := FirstMinLead(dealt, lead, n - 1);
      if dealt[n - 1].suit == lead && (b == -1 || Key(dealt[n - 1]) < Key(dealt[b])) then n - 1 else b
  }

  /** The winning position of a turn of four cards, led by its first card. */
  function TrickWinnerIndex(dealt: seq<Card>): (i: nat)
    requires |dealt| == 4
    ensures i < 4 && IsTrickWinnerIndex(dealt, dealt[0].suit, 4, i)
  {
    FirstMinLead(dealt, dealt[0].suit, 4)
  }

  /** At most one position holds the first card of minimal rank value. */
  lemma TrickWinnerUnique(dealt: seq<Card>, lead: Suit, n: nat, i: int, j: int)
    requires n <= |dealt|
    requires IsTrickWinnerIndex(dealt, lead, n, i) && IsTrickWinnerIndex(dealt, lead, n, j)
    ensures i == j
  {
  }

  /** `rotate_player_order`: the order starting at `start` and wrapping around. */
  function RotatePlayerOrder<T(==)>(names: seq<T>, start: T): (r: seq<T>)
    requires start in names
    ensures |r| == |names| && multiset(r) == multiset(names)
    ensures r[0] == start
  {
    Cut(names, IndexOf(names, start))
  }

  /** `names` lists each seat 0..3 exactly once. */
  ghost predicate IsSeatOrder(names: seq<nat>)
  {
    |names| == 4 &&
    (forall m :: 0 <= m < 4 ==> names[m] < 4) &&
    (forall a, b :: 0 <= a < b < 4 ==> names[a] != names[b]) &&
    (forall i :: 0 <= i < 4 ==> i in names)
  }

  /** The position of seat `i` in a seat order. */
  lemma SeatOf(names: seq<nat>, i: nat) returns (m: nat)
    requires IsSeatOrder(names) && i < 4
    ensures m < 4 && names[m] == i
  {
    assert i in names;
    m :| 0 <= m < 4 && names[m] == i;
  }

  /** The four rotations of the seats, by starting seat. */
  const SeatRotations: seq<seq<nat>> := [[0, 1, 2, 3], [1, 2, 3, 0], [2, 3, 0, 1], [3, 0, 1, 2]]

  lemma SeatIndex(k: nat)
    requires k < 4
    ensures IndexOf(AllPlayers, k) == k
  {
    assert AllPlayers[k] == k;
  }

  lemma RotationSlices(k: nat)
    requires k < 4
    ensures AllPlayers[k..] + AllPlayers[..k] == SeatRotations[k]
  {
    if k == 0 {
      assert AllPlayers[0..] + AllPlayers[..0] == [0, 1, 2, 3];
    } else if k == 1 {
      assert AllPlayers[1..] + AllPlayers[..1] == [1, 2, 3, 0];
    } else if k == 2 {
      assert AllPlayers[2..] + AllPlayers[..2] == [2, 3, 0, 1];
    } else {
      assert AllPlayers[3..] + AllPlayers[..3] == [3, 0, 1, 2];
    }
  }

  lemma RotationTable(k: nat)
    requires k < 4
    ensures RotatePlayerOrder(AllPlayers, k) == SeatRotations[k]
  {
    SeatIndex(k);
    RotationSlices(k);
  }

  lemma SeatRotationsAreOrders(k: nat)
    requires k < 4
    ensures IsSeatOrder(SeatRotations[k])
  {
    if k == 0 {
      assert IsSeatOrder([0, 1, 2, 3]);
    } else if k == 1 {
      assert IsSeatOrder([1, 2, 3, 0]);
    } else if k == 2 {
      assert IsSeatOrder([2, 3, 0, 1]);
    } else {
      assert IsSeatOrder([3, 0, 1, 2]);
    }
  }

  /** Rotating the seats to begin at `k` lists every seat once. */
  lemma RotateSeats(k: nat)
    requires k < 4
    ensures IsSeatOrder(RotatePlayerOrder(AllPlayers, k))
  {
    RotationTable(k);
    SeatRotationsAreOrders(k);
  }

  /** The card a player of the first draft plays: the best card when leading;
      otherwise, holding the leading suit, the best card of that suit if it beats
      the current winner and the worst of that suit if not; otherwise the worst card. */
  function FirstDraftChoice(hand: seq<Card>, leading: Option<Suit>, dealt: seq<Card>): (c: Card)
    requires |hand| > 0
    ensures c in hand
  {
    if leading.None? then BestCard(hand)
    else
      var inSuit := FilterSuit(hand, leading.value);
      if |inSuit| > 0 then
        var best := BestCard(inSuit);
        if CanBeatCurrentWinner(best, CurrentWinningCard(dealt, leading.value)) then best
        else WorstCard(inSuit)
      else WorstCard(hand)
  }

  /** A follower holding the leading suit follows it: when some card of that
      suit beats the current winner, the best such card, which beats it; when
      none does, the worst such card. */
  lemma FirstDraftFollowsSuit(hand: seq<Card>, lead: Suit, dealt: seq<Card>, d0: Card)
    requires d0 in hand && d0.suit == lead
    ensures var c := FirstDraftChoice(hand, Some(lead), dealt);
      var w := CurrentWinningCard(dealt, lead);
      c.suit == lead && c in hand &&
      ((exists d :: d in hand && d.suit == lead && CanBeatCurrentWinner(d, w)) ==>
         CanBeatCurrentWinner(c, w) && forall d :: d in hand && d.suit == lead ==> Key(c) <= Key(d)) &&
      ((forall d :: d in hand && d.suit == lead ==> !CanBeatCurrentWinner(d, w)) ==>
         forall d :: d in hand && d.suit == lead ==> Key(d) <= Key(c))
  {
    var c := FirstDraftChoice(hand, Some(lead), dealt);
    var inSuit := FilterSuit(hand, lead);
    assert d0 in inSuit;
    var best := BestCard(inSuit);
    var worst := WorstCard(inSuit);
    var winner := CurrentWinningCard(dealt, lead);
    var bi := BestCardIsFirstBest(inSuit);
    var wi := WorstCardIsLastWorst(inSuit);
    forall d | d in hand && d.suit == lead
      ensures Key(best) <= Key(d) <= Key(worst)
    {
      assert d in inSuit;
      var k :| 0 <= k < |inSuit| && inSuit[k] == d;
    }
    if CanBeatCurrentWinner(best, winner) {
      assert c == best;
    } else {
      assert c == worst;
      assert best in hand && best.suit == lead;
    }
  }

  /** A follower void in the leading suit discards a card of maximal rank value. */
  lemma FirstDraftDiscards(hand: seq<Card>, lead: Suit, dealt: seq<Card>)
    requires |hand| > 0
    requires forall d :: d in hand ==> d.suit != lead
    ensures var c := FirstDraftChoice(hand, Some(lead), dealt);
      forall d :: d in hand ==> Key(d) <= Key(c)
  {
    var inSuit := FilterSuit(hand, lead);
    FilterSuitEmpty(hand, lead);
    var wi := WorstCardIsLastWorst(hand);
    forall d | d in hand ensures Key(d) <= Key(FirstDraftChoice(hand, Some(lead), dealt)) {
      var k :| 0 <= k < |hand| && hand[k] == d;
    }
  }

  /** The leading suit once the cards `dealt` are on the table: none before the
      first card, then the suit of the first card. */
  function LeadOf(dealt: seq<Card>): (r: Option<Suit>)
    ensures r.None? <==> dealt == []
  {
    if dealt == [] then None else Some(dealt[0].suit)
  }

  /** The hands and the cards on the table during a turn. */
  datatype Table = Table(hands: seq<seq<Card>>, dealt: seq<Card>)

  /** The table after the first `j` players of `names` have played their
      `FirstDraftChoice` and removed it from their hand. */
  function FirstDraftTurns(hands: seq<seq<Card>>, names: seq<nat>, j: nat): (t: Table)
    requires |hands| == 4 && IsSeatOrder(names) && j <= 4
    requires forall i :: 0 <= i < 4 ==> |hands[i]| > 0
    ensures |t.hands| == 4 && |t.dealt| == j
    ensures forall m :: j <= m < 4 ==> t.hands[names[m]] == hands[names[m]]
  {
    if j == 0 then Table(hands, [])
    else
      var t := FirstDraftTurns(hands, names, j - 1);
      var p := names[j - 1];
      var c := FirstDraftChoice(t.hands[p], LeadOf(t.dealt), t.dealt);
      var rest := t.hands[p := RemoveFirst(t.hands[p], c)];
      assert forall m :: j <= m < 4 ==> names[m] != p;
      Table(rest, t.dealt + [c])
  }

  /** The last step of `FirstDraftTurns`, spelled out. */
  lemma TurnStep(hands: seq<seq<Card>>, names: seq<nat>, j: nat) returns (t: Table, c: Card)
    requires |hands| == 4 && IsSeatOrder(names) && 0 < j <= 4
    requires forall i :: 0 <= i < 4 ==> |hands[i]| > 0
    ensures t == FirstDraftTurns(hands, names, j - 1)
    ensures c in t.hands[names[j - 1]]
    ensures c == FirstDraftChoice(t.hands[names[j - 1]], LeadOf(t.dealt), t.dealt)
    ensures FirstDraftTurns(hands, names, j)
         == Table(t.hands[names[j - 1] := RemoveFirst(t.hands[names[j - 1]], c)], t.dealt + [c])
  {
    t := FirstDraftTurns(hands, names, j - 1);
    c := FirstDraftChoice(t.hands[names[j - 1]], LeadOf(t.dealt), t.dealt);
  }

  /** Every card played in a turn leaves its player's hand and lands on the table. */
  lemma {:induction false} TurnsConserveCards(hands: seq<seq<Card>>, names: seq<nat>, j: nat)
    requires |hands| == 4 && IsSeatOrder(names) && j <= 4
    requires forall i :: 0 <= i < 4 ==> |hands[i]| > 0
    ensures var t := FirstDraftTurns(hands, names, j);
      multiset(Flatten(t.hands)) + multiset(t.dealt) == multiset(Flatten(hands))
  {
    if j > 0 {
      TurnsConserveCards(hands, names, j - 1);
      var t, c := TurnStep(hands, names, j);
      var p := names[j - 1];
      var rest := t.hands[p := RemoveFirst(t.hands[p], c)];
      FlattenRemove(t.hands, p, c, RemoveFirst(t.hands[p], c));
      MoveOne(multiset(Flatten(rest)), multiset(Flatten(t.hands)), t.dealt, c, multiset(Flatten(hands)));
    }
  }

  /** In a turn, the m-th player plays `FirstDraftChoice` for the cards before
      them and loses exactly that card. */
  lemma TurnsPlayChoices(hands: seq<seq<Card>>, names: seq<nat>, j: nat)
    requires |hands| == 4 && IsSeatOrder(names) && j <= 4
    requires forall i :: 0 <= i < 4 ==> |hands[i]| > 0
    ensures var t := FirstDraftTurns(hands, names, j);
      forall m :: 0 <= m < j ==>
        t.dealt[m] == FirstDraftChoice(hands[names[m]], LeadOf(t.dealt[..m]), t.dealt[..m]) &&
        t.hands[names[m]] == RemoveFirst(hands[names[m]], t.dealt[m])
  {
    forall m | 0 <= m < j
      ensures var t := FirstDraftTurns(hands, names, j);
        t.dealt[m] == FirstDraftChoice(hands[names[m]], LeadOf(t.dealt[..m]), t.dealt[..m]) &&
        t.hands[names[m]] == RemoveFirst(hands[names[m]], t.dealt[m])
    {
      TurnPlaysChoice(hands, names, j, m);
    }
  }

  /** The m-th player's card and hand, `TurnsPlayChoices` for one player. */
  lemma {:induction false} TurnPlaysChoice(hands: seq<seq<Card>>, names: seq<nat>, j: nat, m: nat)
    requires |hands| == 4 && IsSeatOrder(names) && m < j <= 4
    requires forall i :: 0 <= i < 4 ==> |hands[i]| > 0
    ensures var t := FirstDraftTurns(hands, names, j);
      t.dealt[m] == FirstDraftChoice(hands[names[m]], LeadOf(t.dealt[..m]), t.dealt[..m]) &&
      t.hands[names[m]] == RemoveFirst(hands[names[m]], t.dealt[m])
  {
    var t, c := TurnStep(hands, names, j);
    var p := names[j - 1];
    var u := FirstDraftTurns(hands, names, j);
    assert u.dealt == t.dealt + [c] && u.hands == t.hands[p := RemoveFirst(t.hands[p], c)];
    PrefixesOfSnoc(t.dealt, c);
    assert u.dealt[..m] == t.dealt[..m];
    if m < j - 1 {
      TurnPlaysChoice(hands, names, j - 1, m);
      assert names[m] != p;
      assert u.dealt[m] == t.dealt[m] && u.hands[names[m]] == t.hands[names[m]];
    } else {
      assert t.hands[p] == hands[p] && t.dealt[..m] == t.dealt;
      assert u.dealt[m] == c && u.hands[p] == RemoveFirst(hands[p], c);
    }
    assert u.dealt[m] == FirstDraftChoice(hands[names[m]], LeadOf(u.dealt[..m]), u.dealt[..m]);
    assert u.hands[names[m]] == RemoveFirst(hands[names[m]], u.dealt[m]);
  }

  /** A turn takes one card from every hand. */
  lemma TurnSizes(hands: seq<seq<Card>>, names: seq<nat>)
    requires |hands| == 4 && IsSeatOrder(names)
    requires forall i :: 0 <= i < 4 ==> |hands[i]| > 0
    ensures var t := FirstDraftTurns(hands, names, 4);
      forall i :: 0 <= i < 4 ==> |t.hands[i]| == |hands[i]| - 1
  {
    TurnsPlayChoices(hands, names, 4);
    var t := FirstDraftTurns(hands, names, 4);
    forall i | 0 <= i < 4 ensures |t.hands[i]| == |hands[i]| - 1 {
      var m := SeatOf(names, i);
    }
  }

  /** One turn of `play_game_round`: every player in `names` order plays
      `FirstDraftChoice` for the cards dealt so far and removes it from the hand. */
  method PlayFirstDraftTrick(hands: seq<seq<Card>>, names: seq<nat>)
    returns (after: seq<seq<Card>>, dealt: seq<Card>)
    requires |hands| == 4 && IsSeatOrder(names)
    requires forall i :: 0 <= i < 4 ==> |hands[i]| > 0
    ensures Table(after, dealt) == FirstDraftTurns(hands, names, 4)
    ensures |after| == 4 && |dealt| == 4
    ensures forall i :: 0 <= i < 4 ==> |after[i]| == |hands[i]| - 1
    ensures multiset(Flatten(after)) + multiset(dealt) == multiset(Flatten(hands))
  {
    after := hands;
    dealt := [];
    var leading: Option<Suit> := None;
    for j := 0 to 4
      invariant Table(after, dealt) == FirstDraftTurns(hands, names, j)
      invariant leading == LeadOf(dealt)
    {
      var player := names[j];
      var hand := after[player];
      var card := FirstDraftChoice(hand, leading, dealt);
      if j == 0 {
        leading := Some(card.suit);
      }
      after := after[player := RemoveFirst(hand, card)];
      dealt := dealt + [card];
    }
    TurnsConserveCards(hands, names, 4);
    TurnSizes(hands, names);
  }

  function Sum4(xs: seq<nat>): nat
    requires |xs| == 4
  {
    xs[0] + xs[1] + xs[2] + xs[3]
  }

  lemma Sum4Increment(xs: seq<nat>, k: nat)
    requires |xs| == 4 && k < 4
    ensures Sum4(xs[k := xs[k] + 1]) == Sum4(xs) + 1
  {
  }

  /** `deal_deck` from four empty hands: 13 cards each, the first 52 of the deck. */
  method DealFourHands(cards: seq<Card>) returns (hands: seq<seq<Card>>)
    requires |cards| >= 52
    ensures |hands| == 4
    ensures forall i :: 0 <= i < 4 ==> hands[i] == DealShare(cards, 4, i) && |hands[i]| == 13
    ensures multiset(Flatten(hands)) == multiset(cards[..52])
  {
    hands := DealDeck(cards, [[], [], [], []]);
    forall i | 0 <= i < 4 ensures hands[i] == DealShare(cards, 4, i) {
      assert [] + DealShare(cards, 4, i) == DealShare(cards, 4, i);
    }
    DealFourPartition(cards);
    FlattenFour(hands);
  }

  /** The winner of a turn extends their pile with the turn's cards, in the
      order `order` (the outcome of the per-turn `random.shuffle`). */
  method GatherTrick(collected: seq<seq<Card>>, winner: nat, dealt: seq<Card>, order: seq<nat>)
    returns (result: seq<seq<Card>>)
    requires winner < |collected| && IsPermutation(order, |dealt|)
    ensures InBounds(order, |dealt|)
    ensures result == collected[winner := collected[winner] + Permute(dealt, order)]
    ensures |result| == |collected|
    ensures result[winner] == collected[winner] + Permute(dealt, order)
    ensures |result[winner]| == |collected[winner]| + |dealt|
    ensures forall i :: 0 <= i < |collected| && i != winner ==> result[i] == collected[i]
    ensures multiset(Flatten(result)) == multiset(Flatten(collected)) + multiset(dealt)
  {
    GatheredCards(collected, winner, dealt, order);
    result := collected[winner := collected[winner] + Permute(dealt, order)];
  }

  /** Gathering a turn's cards onto one pile adds exactly those cards. */
  lemma GatheredCards(collected: seq<seq<Card>>, winner: nat, dealt: seq<Card>, order: seq<nat>)
    requires winner < |collected| && IsPermutation(order, |dealt|)
    ensures InBounds(order, |dealt|) && |Permute(dealt, order)| == |dealt|
    ensures multiset(Flatten(collected[winner := collected[winner] + Permute(dealt, order)]))
         == multiset(Flatten(collected)) + multiset(dealt)
  {
    PermutePreservesMultiset(dealt, order);
    var gathered := Permute(dealt, order);
    var result := collected[winner := collected[winner] + gathered];
    FlattenUpdate(collected, winner, collected[winner] + gathered);
    assert multiset(collected[winner] + gathered) == multiset(collected[winner]) + multiset(dealt);
    MultisetCancel(multiset(Flatten(result)), multiset(Flatten(collected)) + multiset(dealt), multiset(collected[winner]));
  }

  /** Every pile holds four cards for each turn its player won. */
  predicate PilesMatchCounts(piles: seq<seq<Card>>, counts: seq<nat>)
    requires |piles| == 4 && |counts| == 4
  {
    forall i :: 0 <= i < 4 ==> |piles[i]| == 4 * counts[i]
  }

  /** Piles grow by four cards for the winner of a turn, whose count grows by one. */
  lemma PileSizesStep(piles: seq<seq<Card>>, counts: seq<nat>, w: nat, result: seq<seq<Card>>)
    requires |piles| == 4 && |counts| == 4 && |result| == 4 && w < 4
    requires PilesMatchCounts(piles, counts)
    requires |result[w]| == |piles[w]| + 4
    requires forall i :: 0 <= i < 4 && i != w ==> result[i] == piles[i]
    ensures PilesMatchCounts(result, counts[w := counts[w] + 1])
  {
  }

  /** One turn of the trick loop of `play_game_round`: the players in `names`
      order play their cards and `GetRoundWinner` names the winner. */
  method PlayTrick(hands: seq<seq<Card>>, names: seq<nat>)
    returns (after: seq<seq<Card>>, dealt: seq<Card>, winner: nat)
    requires |hands| == 4 && IsSeatOrder(names)
    requires forall i :: 0 <= i < 4 ==> |hands[i]| > 0
    ensures winner < 4 && |after| == 4 && |dealt| == 4
    ensures Table(after, dealt) == FirstDraftTurns(hands, names, 4)
    ensures winner == names[TrickWinnerIndex(dealt)]
    ensures forall i :: 0 <= i < 4 ==> |after[i]| == |hands[i]| - 1
    ensures multiset(Flatten(after)) + multiset(dealt) == multiset(Flatten(hands))
  {
    after, dealt := PlayFirstDraftTrick(hands, names);
    winner := GetRoundWinner(dealt, names, dealt[0].suit);
    assert Min(|dealt|, |names|) == 4;
    assert dealt[0].suit == dealt[0].suit;
    ghost var i :| IsTrickWinnerIndex(dealt, dealt[0].suit, 4, i) && winner == names[i];
    TrickWinnerUnique(dealt, dealt[0].suit, 4, i, TrickWinnerIndex(dealt));
  }

  /** The bookkeeping after a turn of `play_game_round`: the winner's count
      grows by one, their pile gathers the four cards in the order `order`, and
      the next turn is played in the order starting at the winner. */
  method RecordTrick(roundsWon: seq<nat>, collected: seq<seq<Card>>, winner: nat,
                     dealt: seq<Card>, order: seq<nat>)
    returns (won: seq<nat>, piles: seq<seq<Card>>, next: seq<nat>)
    requires |roundsWon| == 4 && |collected| == 4 && winner < 4 && |dealt| == 4
    requires PilesMatchCounts(collected, roundsWon)
    requires IsPermutation(order, 4)
    ensures |won| == 4 && |piles| == 4
    ensures won == roundsWon[winner := roundsWon[winner] + 1]
    ensures InBounds(order, 4) && piles == collected[winner := collected[winner] + Permute(dealt, order)]
    ensures Sum4(won) == Sum4(roundsWon) + 1
    ensures PilesMatchCounts(piles, won)
    ensures multiset(Flatten(piles)) == multiset(Flatten(collected)) + multiset(dealt)
    ensures next == RotatePlayerOrder(AllPlayers, winner) && IsSeatOrder(next)
  {
    Sum4Increment(roundsWon, winner);
    won := roundsWon[winner := roundsWon[winner] + 1];
    piles := GatherTrick(collected, winner, dealt, order);
    PileSizesStep(collected, roundsWon, winner, piles);
    assert AllPlayers[winner] == winner;
    next := RotatePlayerOrder(AllPlayers, winner);
    RotateSeats(winner);
  }

  /** What `play_game_round` keeps between turns: the hands, the turns won,
      the collected piles and the order of play. */
  datatype RoundState = RoundState(hands: seq<seq<Card>>, won: seq<nat>, piles: seq<seq<Card>>, names: seq<nat>)

  /** Four players holding `n` cards each, with counts, piles and an order of play. */
  ghost predicate Ready(st: RoundState, n: nat)
  {
    |st.hands| == 4 && |st.won| == 4 && |st.piles| == 4 && IsSeatOrder(st.names) &&
    forall i :: 0 <= i < 4 ==> |st.hands[i]| == n
  }

  /** One turn of `play_game_round`: the players play in `names` order, the
      player of the winning card counts the turn, gathers the four cards in
      the order `order` and leads the next turn. */
  function TurnPlayed(st: RoundState, order: seq<nat>, n: nat): (u: RoundState)
    requires Ready(st, n) && n > 0 && IsPermutation(order, 4)
    ensures Ready(u, n - 1)
    ensures Sum4(u.won) == Sum4(st.won) + 1
  {
    TurnSizes(st.hands, st.names);
    PermutationBounds(order, 4);
    var t := FirstDraftTurns(st.hands, st.names, 4);
    Awarded(st, t.hands, t.dealt, st.names[TrickWinnerIndex(t.dealt)], order)
  }

  /** The state after a turn in which the hands became `after` and `w` won
      the cards `dealt`: `w` counts the turn, gathers the cards in the order
      `order` and leads next. */
  function Awarded(st: RoundState, after: seq<seq<Card>>, dealt: seq<Card>, w: nat, order: seq<nat>): (u: RoundState)
    requires |st.won| == 4 && |st.piles| == 4 && w < 4 && InBounds(order, |dealt|)
    ensures u.hands == after && |u.won| == 4 && |u.piles| == 4
    ensures Sum4(u.won) == Sum4(st.won) + 1
    ensures u.names == RotatePlayerOrder(AllPlayers, w) && IsSeatOrder(u.names)
  {
    Sum4Increment(st.won, w);
    RotateSeats(w);
    assert AllPlayers[w] == w;
    RoundState(after, st.won[w := st.won[w] + 1], st.piles[w := st.piles[w] + Permute(dealt, order)],
               RotatePlayerOrder(AllPlayers, w))
  }

  /** The first `k` turns of a round in which every player starts with `n`
      cards; turn `t` gathers its cards in the order `gather[t]`. */
  function TurnsPlayed(st: RoundState, gather: seq<seq<nat>>, n: nat, k: nat): (u: RoundState)
    requires Ready(st, n) && k <= n && k <= |gather| && AllPermutations(gather, 4)
    ensures Ready(u, n - k)
    ensures Sum4(u.won) == Sum4(st.won) + k
  {
    if k == 0 then st else TurnPlayed(TurnsPlayed(st, gather, n, k - 1), gather[k - 1], n - k + 1)
  }

  /** The round of `play_game_round` from the dealt hands: no turns won, empty
      piles, the order of play starting at `starting`, then thirteen turns. */
  function FirstDraftRound(hands: seq<seq<Card>>, starting: nat, gather: seq<seq<nat>>): (r: RoundState)
    requires |hands| == 4 && forall i :: 0 <= i < 4 ==> |hands[i]| == 13
    requires starting < 4 && |gather| == 13 && AllPermutations(gather, 4)
    ensures Ready(r, 0) && Sum4(r.won) == 13
  {
    TurnsPlayed(Dealt(hands, starting), gather, 13, 13)
  }

  /** The state before the first turn: no turns won, empty piles, and the
      order of play starting at `starting`. */
  function Dealt(hands: seq<seq<Card>>, starting: nat): (st: RoundState)
    requires |hands| == 4 && forall i :: 0 <= i < 4 ==> |hands[i]| == 13
    requires starting < 4
    ensures Ready(st, 13) && Sum4(st.won) == 0
    ensures st.names == RotatePlayerOrder(AllPlayers, starting)
  {
    assert AllPlayers[starting] == starting;
    RotateSeats(starting);
    RoundState(hands, [0, 0, 0, 0], [[], [], [], []], RotatePlayerOrder(AllPlayers, starting))
  }

  /** Before the first turn every card is in a hand and every pile is empty. */
  lemma DealtKeeps(hands: seq<seq<Card>>, names: seq<nat>)
    requires |hands| == 4 && forall i :: 0 <= i < 4 ==> |hands[i]| == 13
    requires IsSeatOrder(names)
    ensures MidRound(hands, [0, 0, 0, 0], [[], [], [], []], names, multiset(Flatten(hands)), 0)
  {
    var piles: seq<seq<Card>> := [[], [], [], []];
    FlattenEmpties(piles);
    assert PilesMatchCounts(piles, [0, 0, 0, 0]);
  }

  /** The hands `deal_deck` gives four empty hands. */
  function FourShares(cards: seq<Card>): (hands: seq<seq<Card>>)
    requires |cards| >= 52
    ensures |hands| == 4 && forall i :: 0 <= i < 4 ==> hands[i] == DealShare(cards, 4, i) && |hands[i]| == 13
  {
    DealFourPartition(cards);
    [DealShare(cards, 4, 0), DealShare(cards, 4, 1), DealShare(cards, 4, 2), DealShare(cards, 4, 3)]
  }

  /** The thirteen turns of `play_game_round`: each turn goes to
      `GetRoundWinner`, whose player leads next and gathers the four cards in the
      order `gather[t]` (the outcome of the per-turn `random.shuffle`). The
      counts and piles are those of `FirstDraftRound`, and every card dealt ends
      up in exactly one collected pile, four per turn won. */
  method PlayTurns(dealtHands: seq<seq<Card>>, starting: nat, gather: seq<seq<nat>>)
    returns (roundsWon: seq<nat>, collected: seq<seq<Card>>)
    requires |dealtHands| == 4 && forall i :: 0 <= i < 4 ==> |dealtHands[i]| == 13
    requires starting < 4
    requires |gather| == 13 && AllPermutations(gather, 4)
    ensures var r := FirstDraftRound(dealtHands, starting, gather);
      roundsWon == r.won && collected == r.piles
    ensures |roundsWon| == 4 && |collected| == 4
    ensures Sum4(roundsWon) == 13
    ensures forall i :: 0 <= i < 4 ==> |collected[i]| == 4 * roundsWon[i]
    ensures multiset(Flatten(collected)) == multiset(Flatten(dealtHands))
  {
    var hands := dealtHands;
    var names;
    roundsWon, collected, names := StartTurns(dealtHands, starting);
    ghost var st := RoundState(dealtHands, roundsWon, collected, names);
    assert st == Dealt(dealtHands, starting);
    ghost var total := multiset(Flatten(dealtHands));
    var t := 0;
    while t < 13
      invariant t <= 13 && RoundState(hands, roundsWon, collected, names) == TurnsPlayed(st, gather, 13, t)
    {
      TurnsPlayedKeeps(st, gather, total, t);
      hands, roundsWon, collected, names := TakeTurn(hands, roundsWon, collected, names, gather[t], total, t);
      t := t + 1;
    }
    FirstDraftRoundConserves(dealtHands, starting, gather);
  }

  /** Before the first turn: no turns won, empty piles, and the players in
      order from `starting`. */
  method StartTurns(dealtHands: seq<seq<Card>>, starting: nat)
    returns (roundsWon: seq<nat>, collected: seq<seq<Card>>, names: seq<nat>)
    requires |dealtHands| == 4 && forall i :: 0 <= i < 4 ==> |dealtHands[i]| == 13
    requires starting < 4
    ensures roundsWon == [0, 0, 0, 0] && collected == [[], [], [], []]
    ensures starting in AllPlayers && names == RotatePlayerOrder(AllPlayers, starting)
    ensures MidRound(dealtHands, roundsWon, collected, names, multiset(Flatten(dealtHands)), 0)
  {
    roundsWon := [0, 0, 0, 0];
    collected := [[], [], [], []];
    FlattenEmpties(collected);
    assert PilesMatchCounts(collected, roundsWon);
    assert AllPlayers[starting] == starting;
    names := RotatePlayerOrder(AllPlayers, starting);
    RotateSeats(starting);
  }

  /** After the thirteenth turn the hands are empty and the piles hold every card. */
  lemma TurnsDone(hands: seq<seq<Card>>, won: seq<nat>, collected: seq<seq<Card>>, names: seq<nat>, total: multiset<Card>)
    requires MidRound(hands, won, collected, names, total, 13)
    ensures |won| == 4 && |collected| == 4 && Sum4(won) == 13
    ensures forall i :: 0 <= i < 4 ==> |collected[i]| == 4 * won[i]
    ensures multiset(Flatten(collected)) == total
  {
    FlattenEmpties(hands);
  }

  /** The state of `play_game_round` after `t` turns: every hand has lost
      `t` cards, the cards are either in a hand or in a pile, `t` turns were
      won in all, four cards per turn won, and the player order is a seat order. */
  ghost predicate MidRound(hands: seq<seq<Card>>, won: seq<nat>, collected: seq<seq<Card>>, names: seq<nat>,
                           total: multiset<Card>, t: nat)
  {
    |hands| == 4 && |won| == 4 && |collected| == 4 &&
    (forall i :: 0 <= i < 4 ==> |hands[i]| == 13 - t) &&
    multiset(Flatten(hands)) + multiset(Flatten(collected)) == total &&
    Sum4(won) == t && PilesMatchCounts(collected, won) && IsSeatOrder(names)
  }

  /** One turn of `play_game_round`: a trick is played and recorded as
      `TurnPlayed` says; the cards move from the hands to the winner's pile. */
  method TakeTurn(hands: seq<seq<Card>>, won: seq<nat>, collected: seq<seq<Card>>, names: seq<nat>, order: seq<nat>,
                  ghost total: multiset<Card>, ghost t: nat)
    returns (hands': seq<seq<Card>>, won': seq<nat>, collected': seq<seq<Card>>, names': seq<nat>)
    requires t < 13 && MidRound(hands, won, collected, names, total, t) && IsPermutation(order, 4)
    ensures RoundState(hands', won', collected', names') == TurnPlayed(RoundState(hands, won, collected, names), order, 13 - t)
  {
    var dealt, winner;
    hands', dealt, winner := PlayTrick(hands, names);
    won', collected', names' := RecordTrick(won, collected, winner, dealt, order);
    TurnRecorded(hands, won, collected, names, order, 13 - t, hands', dealt, winner, won', collected', names');
  }

  /** A turn keeps every card of the round in exactly one hand or pile, takes
      one card from each hand and adds one to the turns won, four cards to the
      winner's pile. */
  lemma TurnPlayedKeeps(st: RoundState, order: seq<nat>, total: multiset<Card>, t: nat)
    requires t < 13 && Kept(st, total, t) && IsPermutation(order, 4)
    ensures Kept(TurnPlayed(st, order, 13 - t), total, t + 1)
  {
    var tb := FirstDraftTurns(st.hands, st.names, 4);
    TurnSizes(st.hands, st.names);
    TurnsConserveCards(st.hands, st.names, 4);
    PermutationBounds(order, 4);
    TurnPlayedBy(st, order, 13 - t, tb.hands, tb.dealt);
    AwardKeeps(st, tb.hands, tb.dealt, st.names[TrickWinnerIndex(tb.dealt)], order, total, t);
  }

  /** The award step of a turn keeps `MidRound`, given that the hands lost
      exactly the cards `dealt`, one each. */
  lemma AwardKeeps(st: RoundState, after: seq<seq<Card>>, dealt: seq<Card>, w: nat, order: seq<nat>,
                   total: multiset<Card>, t: nat)
    requires t < 13 && MidRound(st.hands, st.won, st.piles, st.names, total, t)
    requires |dealt| == 4 && IsPermutation(order, 4) && InBounds(order, 4) && w < 4
    requires |after| == 4 && forall i :: 0 <= i < 4 ==> |after[i]| == |st.hands[i]| - 1
    requires multiset(Flatten(after)) + multiset(dealt) == multiset(Flatten(st.hands))
    ensures var u := Awarded(st, after, dealt, w, order);
      MidRound(u.hands, u.won, u.piles, u.names, total, t + 1)
  {
    AwardedState(st.hands, st.won, st.piles, st.names, after, dealt, w, order);
    GatheredCards(st.piles, w, dealt, order);
    var piles := st.piles[w := st.piles[w] + Permute(dealt, order)];
    PileSizesStep(st.piles, st.won, w, piles);
    Transfer(multiset(Flatten(after)), multiset(Flatten(st.hands)), multiset(dealt),
             multiset(Flatten(piles)), multiset(Flatten(st.piles)), total);
  }

  /** The first `k` turns of a round keep `MidRound`. */
  lemma {:induction false} TurnsPlayedKeeps(st: RoundState, gather: seq<seq<nat>>, total: multiset<Card>, k: nat)
    requires MidRound(st.hands, st.won, st.piles, st.names, total, 0)
    requires k <= 13 && k <= |gather| && AllPermutations(gather, 4)
    ensures Ready(st, 13)
    ensures Kept(TurnsPlayed(st, gather, 13, k), total, k)
  {
    if k > 0 {
      TurnsPlayedKeeps(st, gather, total, k - 1);
      var p := TurnsPlayed(st, gather, 13, k - 1);
      TurnPlayedKeeps(p, gather[k - 1], total, k - 1);
    }
  }

  /** `MidRound` of a whole round state. */
  ghost predicate Kept(st: RoundState, total: multiset<Card>, t: nat)
  {
    MidRound(st.hands, st.won, st.piles, st.names, total, t)
  }

  /** At the end of `FirstDraftRound` the hands are empty, every dealt card
      is in exactly one pile, and each pile holds four cards per turn won. */
  lemma FirstDraftRoundConserves(hands: seq<seq<Card>>, starting: nat, gather: seq<seq<nat>>)
    requires |hands| == 4 && forall i :: 0 <= i < 4 ==> |hands[i]| == 13
    requires starting < 4 && |gather| == 13 && AllPermutations(gather, 4)
    ensures var r := FirstDraftRound(hands, starting, gather);
      (forall i :: 0 <= i < 4 ==> r.hands[i] == [] && |r.piles[i]| == 4 * r.won[i]) &&
      multiset(Flatten(r.piles)) == multiset(Flatten(hands))
  {
    var st := Dealt(hands, starting);
    DealtKeeps(hands, st.names);
    assert st.hands == hands && st.won == [0, 0, 0, 0] && st.piles == [[], [], [], []];
    TurnsPlayedKeeps(st, gather, multiset(Flatten(hands)), 13);
    var r := FirstDraftRound(hands, starting, gather);
    assert r == TurnsPlayed(st, gather, 13, 13);
    TurnsDone(r.hands, r.won, r.piles, r.names, multiset(Flatten(hands)));
    assert forall i :: 0 <= i < 4 ==> |r.hands[i]| == 0;
  }


  /** A turn whose cards `dealt` went to `winner`, recorded as `RecordTrick`
      records it, is the turn `TurnPlayed` describes. */
  lemma TurnRecorded(hands: seq<seq<Card>>, won: seq<nat>, collected: seq<seq<Card>>, names: seq<nat>,
                     order: seq<nat>, n: nat, after: seq<seq<Card>>, dealt: seq<Card>,
                     winner: nat, won': seq<nat>, piles: seq<seq<Card>>, next: seq<nat>)
    requires winner < 4 && next == RotatePlayerOrder(AllPlayers, winner)
    requires Ready(RoundState(hands, won, collected, names), n) && n > 0 && IsPermutation(order, 4)
    requires |dealt| == 4 && InBounds(order, 4)
    requires Table(after, dealt) == FirstDraftTurns(hands, names, 4)
    requires winner == names[TrickWinnerIndex(dealt)]
    requires won' == won[winner := won[winner] + 1]
    requires piles == collected[winner := collected[winner] + Permute(dealt, order)]
    ensures RoundState(after, won', piles, next) == TurnPlayed(RoundState(hands, won, collected, names), order, n)
  {
    TurnPlayedBy(RoundState(hands, won, collected, names), order, n, after, dealt);
    AwardedState(hands, won, collected, names, after, dealt, winner, order);
  }

  lemma TurnPlayedBy(st: RoundState, order: seq<nat>, n: nat, after: seq<seq<Card>>, dealt: seq<Card>)
    requires Ready(st, n) && n > 0 && IsPermutation(order, 4) && |dealt| == 4 && InBounds(order, 4)
    requires Table(after, dealt) == FirstDraftTurns(st.hands, st.names, 4)
    ensures st.names[TrickWinnerIndex(dealt)] < 4
    ensures TurnPlayed(st, order, n) == Awarded(st, after, dealt, st.names[TrickWinnerIndex(dealt)], order)
  {
  }

  lemma AwardedState(hands: seq<seq<Card>>, won: seq<nat>, collected: seq<seq<Card>>, names: seq<nat>,
                     after: seq<seq<Card>>, dealt: seq<Card>, w: nat, order: seq<nat>)
    requires |won| == 4 && |collected| == 4 && w < 4 && InBounds(order, |dealt|)
    ensures Awarded(RoundState(hands, won, collected, names), after, dealt, w, order)
      == RoundState(after, won[w := won[w] + 1], collected[w := collected[w] + Permute(dealt, order)],
                    RotatePlayerOrder(AllPlayers, w))
  {
    var st := RoundState(hands, won, collected, names);
    assert st.won == won && st.piles == collected;
  }

  /** `play_game_round`: deal from four fresh empty hands, then play the
      thirteen turns as `FirstDraftRound` says; every one of the first 52
      cards ends up in exactly one collected pile, four per turn won. */
  method PlayGameRound(cards: seq<Card>, starting: nat, gather: seq<seq<nat>>)
    returns (roundsWon: seq<nat>, collected: seq<seq<Card>>)
    requires |cards| >= 52 && starting < 4
    requires |gather| == 13 && AllPermutations(gather, 4)
    ensures var r := FirstDraftRound(FourShares(cards), starting, gather);
      roundsWon == r.won && collected == r.piles
    ensures |roundsWon| == 4 && |collected| == 4
    ensures Sum4(roundsWon) == 13
    ensures forall i :: 0 <= i < 4 ==> |collected[i]| == 4 * roundsWon[i]
    ensures multiset(Flatten(collected)) == multiset(cards[..52])
  {
    var hands := DealFourHands(cards);
    assert hands == FourShares(cards);
    roundsWon, collected := PlayTurns(hands, starting, gather);
  }

  /** The first loop of `reassemble_deck`: each pile, in seat order, cut into
      consecutive stacks `cards[i:i+4]`. */
  method SplitIntoStacks(collected: seq<seq<Card>>) returns (allStacks: seq<seq<Card>>)
    ensures allStacks == Stacks(collected)
  {
    allStacks := [];
    for p := 0 to |collected|
      invariant allStacks == Stacks(collected[..p])
    {
      allStacks := AppendStacks(allStacks, collected[p]);
      assert collected[..p + 1][..p] == collected[..p];
    }
    assert collected[..|collected|] == collected;
  }

  /** The inner loop of that first loop: the stacks `cards[i:i+4]` of one
      pile appended to those already taken. */
  method AppendStacks(acc: seq<seq<Card>>, cards: seq<Card>) returns (r: seq<seq<Card>>)
    ensures r == acc + Chunks(cards)
  {
    r := acc;
    var i := 0;
    while i < |cards|
      invariant i % 4 == 0 && i < |cards| + 4
      invariant i / 4 <= |Chunks(cards)|
      invariant r == acc + Chunks(cards)[..i / 4]
    {
      ChunkAt(cards, i / 4);
      assert Chunks(cards)[..i / 4 + 1] == Chunks(cards)[..i / 4] + [Slice(cards, i, 4)];
      r := r + [Slice(cards, i, 4)];
      i := i + 4;
    }
    assert Chunks(cards)[..i / 4] == Chunks(cards);
  }

  /** The second loop of `reassemble_deck`: the stacks laid one after another. */
  method Concatenate(stacks: seq<seq<Card>>) returns (reassembled: seq<Card>)
    ensures reassembled == Flatten(stacks)
  {
    reassembled := [];
    for k := 0 to |stacks|
      invariant reassembled == Flatten(stacks[..k])
    {
      FlattenSnoc(stacks[..k], stacks[k]);
      assert stacks[..k + 1] == stacks[..k] + [stacks[k]];
      reassembled := reassembled + stacks[k];
    }
    assert stacks[..|stacks|] == stacks;
  }

  /** `reassemble_deck`: the stacks of every pile are put in the order
      `stackOrder` (the outcome of `random.shuffle(all_stacks)`), laid on top of
      one another and cut at `cut`; the deck holds the collected cards. */
  method ReassembleDeck(collected: seq<seq<Card>>, stackOrder: seq<nat>, cut: nat) returns (deck: seq<Card>)
    requires IsPermutation(stackOrder, |Stacks(collected)|)
    requires 1 <= cut < |Flatten(collected)|
    ensures InBounds(stackOrder, |Stacks(collected)|)
    ensures |Flatten(Permute(Stacks(collected), stackOrder))| == |Flatten(collected)|
    ensures deck == CutDeck(Flatten(Permute(Stacks(collected), stackOrder)), cut)
    ensures |deck| == |Flatten(collected)| && multiset(deck) == multiset(Flatten(collected))
  {
    var stacks := SplitIntoStacks(collected);
    PermutePreservesMultiset(stacks, stackOrder);
    var shuffled := Permute(stacks, stackOrder);
    var reassembled := Concatenate(shuffled);
    FlattenMultisetInvariant(shuffled, stacks);
    assert |reassembled| == |multiset(reassembled)| == |multiset(Flatten(collected))| == |Flatten(collected)|;
    deck := CutDeck(reassembled, cut);
  }

  /** When every pile holds whole tricks of four and there are 52 cards, the
      deck is rebuilt from exactly 13 stacks of four. */
  lemma {:induction false} ThirteenStacks(collected: seq<seq<Card>>)
    requires forall i :: 0 <= i < |collected| ==> |collected[i]| % 4 == 0
    ensures |Stacks(collected)| * 4 == |Flatten(collected)|
    ensures forall k :: 0 <= k < |Stacks(collected)| ==> |Stacks(collected)[k]| == 4
  {
    if collected != [] {
      var front := collected[..|collected| - 1];
      var last := collected[|collected| - 1];
      ThirteenStacks(front);
      ChunksOfWholeTricks(last);
      FlattenSnoc(front, last);
      assert collected == front + [last];
      FlattenAppend(Stacks(front), Chunks(last));
    }
  }
}
