/** The rule-based player of the second draft of the game: how strong a hand
    is in trumps, whether it asks, which cards beat the current winner of a
    trick, and which card it plays. */
module Players {
  import opened Cards

  datatype Bid = Ask | Pass

  /** The cards of `cards` whose rank is strong, in their original order. */
  function StrongCards(cards: seq<Card>): (r: seq<Card>)
    ensures |r| <= |cards|
    ensures forall c :: c in r <==> c in cards && IsStrong(c.rank)
  {
    if cards == [] then []
    else
      assert cards == [cards[0]] + cards[1..];
      (if IsStrong(cards[0].rank) then [cards[0]] else []) + StrongCards(cards[1..])
  }

  /** `evaluate_trump_strength`: nothing without trumps, otherwise two points
      per strong trump plus one per trump. */
  function TrumpStrength(hand: seq<Card>, trump: Suit): (s: nat)
    ensures |FilterSuit(hand, trump)| <= s
  {
    var trumps := FilterSuit(hand, trump);
    if trumps == [] then 0 else |StrongCards(trumps)| * 2 + |trumps|
  }

  /** What one card adds to the trump strength of a hand: three for a strong
      trump, one for any other trump, nothing for a card of another suit. */
  function CardPoints(c: Card, trump: Suit): (v: nat)
    ensures v <= 3
  {
    if c.suit != trump then 0 else if IsStrong(c.rank) then 3 else 1
  }

  /** The trump strength of a hand counted card by card. */
  function TrumpPoints(hand: seq<Card>, trump: Suit): nat
  {
    if hand == [] then 0 else CardPoints(hand[0], trump) + TrumpPoints(hand[1..], trump)
  }

  lemma {:induction false} TrumpPointsAppend(a: seq<Card>, b: seq<Card>, trump: Suit)
    ensures TrumpPoints(a + b, trump) == TrumpPoints(a, trump) + TrumpPoints(b, trump)
  {
    if a == [] {
      assert a + b == b;
    } else {
      TrumpPointsAppend(a[1..], b, trump);
      assert (a + b)[1..] == a[1..] + b;
    }
  }

  /** The formula of `evaluate_trump_strength` is the card-by-card count. */
  lemma {:induction false} TrumpStrengthIsPointSum(hand: seq<Card>, trump: Suit)
    ensures TrumpStrength(hand, trump) == TrumpPoints(hand, trump)
  {
    if hand != [] {
      TrumpStrengthIsPointSum(hand[1..], trump);
      var all := FilterSuit(hand, trump);
      var rest := FilterSuit(hand[1..], trump);
      assert TrumpStrength(hand[1..], trump) == |StrongCards(rest)| * 2 + |rest|;
      assert hand == [hand[0]] + hand[1..];
      if hand[0].suit == trump {
        assert all == [hand[0]] + rest;
        assert all[1..] == rest;
        assert StrongCards(all) == (if IsStrong(hand[0].rank) then [hand[0]] else []) + StrongCards(rest);
      } else {
        assert all == rest;
      }
    }
  }

  /** A hand without trumps has strength 0, and only such a hand. */
  lemma {:induction false} NoTrumpsNoStrength(hand: seq<Card>, trump: Suit)
    ensures TrumpStrength(hand, trump) == 0 <==> forall c :: c in hand ==> c.suit != trump
  {
    FilterSuitEmpty(hand, trump);
  }

  /** Adding cards to a hand never lowers its trump strength. */
  lemma TrumpStrengthGrows(hand: seq<Card>, more: seq<Card>, trump: Suit)
    ensures TrumpStrength(hand + more, trump) >= TrumpStrength(hand, trump)
  {
    TrumpStrengthIsPointSum(hand + more, trump);
    TrumpStrengthIsPointSum(hand, trump);
    TrumpPointsAppend(hand, more, trump);
  }

  /** Every trump adds at most three to the strength. */
  lemma {:induction false} TrumpStrengthBound(hand: seq<Card>, trump: Suit)
    ensures TrumpStrength(hand, trump) <= 3 * |FilterSuit(hand, trump)|
  {
    var trumps := FilterSuit(hand, trump);
    assert |StrongCards(trumps)| <= |trumps|;
  }

  /** `decide_bid`: ask from strength 6 on, pass below. */
  function DecideBid(hand: seq<Card>, trump: Suit): (b: Bid)
    ensures b == Ask ==> |FilterSuit(hand, trump)| >= 2
    ensures |FilterSuit(hand, trump)| >= 6 ==> b == Ask
    ensures b == Ask <==> TrumpPoints(hand, trump) >= 6
  {
    TrumpStrengthBound(hand, trump);
    TrumpStrengthIsPointSum(hand, trump);
    if TrumpStrength(hand, trump) >= 6 then Ask else Pass
  }

  /** A hand that asks still asks once more cards are added to it. */
  lemma AskSurvivesMoreCards(hand: seq<Card>, more: seq<Card>, trump: Suit)
    requires DecideBid(hand, trump) == Ask
    ensures DecideBid(hand + more, trump) == Ask
  {
    TrumpStrengthGrows(hand, more, trump);
  }

  /** `can_beat`: any card beats an absent winner; a trump winner yields only
      to a higher trump; a trump beats any other winner; otherwise only a
      higher card of the winner's suit beats it. The leading suit the source
      also passes plays no part and is not a parameter. */
  predicate CanBeat(card: Card, winner: Option<Card>, trump: Suit): (b: bool)
    ensures winner.None? ==> b
    ensures winner.Some? && card.suit == trump && winner.value.suit != trump ==> b
    ensures b && winner.Some? ==> card.suit == winner.value.suit || card.suit == trump
    ensures winner.Some? && card.suit == winner.value.suit ==> (b <==> Key(card) < Key(winner.value))
  {
    if winner.None? then true
    else if winner.value.suit == trump && card.suit != trump then false
    else if card.suit == trump && winner.value.suit != trump then true
    else if card.suit == winner.value.suit then Key(card) < Key(winner.value)
    else false
  }

  /** Between two cards, `CanBeat` is a strict order: no card beats itself,
      two cards never beat each other, and beating is transitive. */
  lemma CanBeatIsStrictOrder(a: Card, b: Card, c: Card, trump: Suit)
    ensures !CanBeat(a, Some(a), trump)
    ensures CanBeat(a, Some(b), trump) ==> !CanBeat(b, Some(a), trump)
    ensures CanBeat(a, Some(b), trump) && CanBeat(b, Some(c), trump) ==> CanBeat(a, Some(c), trump)
  {
  }

  /** Of two cards of one suit, the higher one beats whatever the lower one beats. */
  lemma HigherOfASuitBeatsMore(c: Card, d: Card, winner: Option<Card>, trump: Suit)
    requires c.suit == d.suit && Key(c) <= Key(d)
    requires CanBeat(d, winner, trump)
    ensures CanBeat(c, winner, trump)
  {
  }

  /** The cards of the leading suit; there are none before the first card of a
      trick, when the leading suit is absent. */
  function LeadSuitCards(hand: seq<Card>, leadingSuit: Option<Suit>): (r: seq<Card>)
    ensures forall c :: c in r <==> leadingSuit.Some? && c in hand && c.suit == leadingSuit.value
  {
    if leadingSuit.None? then [] else FilterSuit(hand, leadingSuit.value)
  }

  /** A card played and the hand left behind. */
  datatype Play = Play(card: Card, rest: seq<Card>)

  /** Sorting the hand and taking its first card off. */
  function PopBest(hand: seq<Card>): (p: Play)
    requires |hand| > 0
    ensures p.card == BestCard(hand)
    ensures p.rest == SortByRank(hand)[1..]
    ensures multiset(p.rest) == multiset(hand) - multiset{p.card}
  {
    var sorted := SortByRank(hand);
    assert sorted == [sorted[0]] + sorted[1..];
    Play(sorted[0], sorted[1..])
  }

  /** Sorting the hand and taking its last card off. */
  function PopWorst(hand: seq<Card>): (p: Play)
    requires |hand| > 0
    ensures p.card == WorstCard(hand)
    ensures p.rest == SortByRank(hand)[..|hand| - 1]
    ensures multiset(p.rest) == multiset(hand) - multiset{p.card}
  {
    var sorted := SortByRank(hand);
    assert sorted == sorted[..|hand| - 1] + [sorted[|hand| - 1]];
    Play(sorted[|hand| - 1], sorted[..|hand| - 1])
  }

  /** The card a follower plays from `hand` and the hand left: the best card
      of the leading suit if it beats the current winner, else the worst one;
      void in the leading suit, the best trump unless the winner is a trump
      that card cannot beat, in which case, as without trumps, the hand is
      sorted and its last card played. */
  function FollowPlay(hand: seq<Card>, leadingSuit: Option<Suit>, trump: Suit, winner: Option<Card>): (p: Play)
    requires |hand| > 0
    ensures p.card in hand
    ensures multiset(p.rest) == multiset(hand) - multiset{p.card}
  {
    var inSuit := LeadSuitCards(hand, leadingSuit);
    if inSuit != [] then
      var card := if CanBeat(BestCard(inSuit), winner, trump) then BestCard(inSuit) else WorstCard(inSuit);
      Play(card, RemoveFirst(hand, card))
    else
      var trumps := FilterSuit(hand, trump);
      if trumps != [] && (winner.None? || winner.value.suit != trump || CanBeat(BestCard(trumps), winner, trump)) then
        Play(BestCard(trumps), RemoveFirst(hand, BestCard(trumps)))
      else PopWorst(hand)
  }

  /** `play_card` on the hand `hand`: the card played and the hand left. A
      leader sorts the hand and plays its first card; a follower plays
      `FollowPlay`. */
  function PlayCardSpec(hand: seq<Card>, leadingSuit: Option<Suit>, trump: Suit,
                        winner: Option<Card>, isLeading: bool): (p: Play)
    requires |hand| > 0
    ensures p.card in hand
    ensures multiset(p.rest) == multiset(hand) - multiset{p.card}
    ensures |p.rest| == |hand| - 1
  {
    if isLeading then PopBest(hand) else FollowPlay(hand, leadingSuit, trump, winner)
  }

  /** The leader plays a card of minimal rank value. */
  lemma LeaderPlaysBest(hand: seq<Card>, leadingSuit: Option<Suit>, trump: Suit, winner: Option<Card>)
    requires |hand| > 0
    ensures var c := PlayCardSpec(hand, leadingSuit, trump, winner, true).card;
      forall d :: d in hand ==> Key(c) <= Key(d)
  {
    BestCardMinimal(hand);
  }

  /** A follower holding the leading suit, some card of which can beat the
      winner, plays its strongest card of that suit, which beats the winner. */
  lemma FollowerBeatsWhenItCan(hand: seq<Card>, lead: Suit, trump: Suit, winner: Option<Card>, d0: Card)
    requires d0 in hand && d0.suit == lead && CanBeat(d0, winner, trump)
    ensures var c := PlayCardSpec(hand, Some(lead), trump, winner, false).card;
      c.suit == lead && CanBeat(c, winner, trump) &&
      forall d :: d in hand && d.suit == lead ==> Key(c) <= Key(d)
  {
    var inSuit := FilterSuit(hand, lead);
    assert d0 in inSuit;
    var best := BestCard(inSuit);
    BestCardMinimal(inSuit);
    HigherOfASuitBeatsMore(best, d0, winner, trump);
    forall d | d in hand && d.suit == lead ensures Key(best) <= Key(d) {
      assert d in inSuit;
    }
  }

  /** A follower holding the leading suit, no card of which can beat the
      winner, plays its weakest card of that suit. */
  lemma FollowerUnderplays(hand: seq<Card>, lead: Suit, trump: Suit, winner: Option<Card>, d0: Card)
    requires d0 in hand && d0.suit == lead
    requires forall d :: d in hand && d.suit == lead ==> !CanBeat(d, winner, trump)
    ensures var c := PlayCardSpec(hand, Some(lead), trump, winner, false).card;
      c.suit == lead && forall d :: d in hand && d.suit == lead ==> Key(d) <= Key(c)
  {
    var inSuit := FilterSuit(hand, lead);
    assert d0 in inSuit;
    WorstCardMaximal(inSuit);
    forall d | d in hand && d.suit == lead ensures Key(d) <= Key(WorstCard(inSuit)) {
      assert d in inSuit;
    }
  }

  /** A follower void in the leading suit but holding trumps plays its best
      trump, which beats the winner, when the winner is absent, not a trump,
      or beaten by some trump in the hand; otherwise it plays a card of
      maximal rank value. */
  lemma VoidFollowerTrumps(hand: seq<Card>, leadingSuit: Option<Suit>, trump: Suit, winner: Option<Card>, t0: Card)
    requires t0 in hand && t0.suit == trump
    requires forall d :: d in hand && leadingSuit.Some? ==> d.suit != leadingSuit.value
    ensures var c := PlayCardSpec(hand, leadingSuit, trump, winner, false).card;
      ((exists d :: d in hand && d.suit == trump && CanBeat(d, winner, trump)) ==>
        c.suit == trump && CanBeat(c, winner, trump) &&
        forall d :: d in hand && d.suit == trump ==> Key(c) <= Key(d)) &&
      ((forall d :: d in hand && d.suit == trump ==> !CanBeat(d, winner, trump)) ==>
        forall d :: d in hand ==> Key(d) <= Key(c))
  {
    if leadingSuit.Some? {
      FilterSuitEmpty(hand, leadingSuit.value);
    }
    var trumps := FilterSuit(hand, trump);
    assert t0 in trumps;
    var best := BestCard(trumps);
    BestCardMinimal(trumps);
    WorstCardMaximal(hand);
    forall d | d in hand && d.suit == trump && CanBeat(d, winner, trump)
      ensures CanBeat(best, winner, trump)
    {
      assert d in trumps;
      HigherOfASuitBeatsMore(best, d, winner, trump);
    }
    if winner.None? || winner.value.suit != trump {
      assert CanBeat(t0, winner, trump);
    }
    forall d | d in hand && d.suit == trump
      ensures d in trumps
    {
    }
  }

  /** A follower holding neither the leading suit nor trumps discards a card
      of maximal rank value. */
  lemma VoidFollowerDiscards(hand: seq<Card>, leadingSuit: Option<Suit>, trump: Suit, winner: Option<Card>)
    requires |hand| > 0
    requires forall d :: d in hand ==> d.suit != trump
    requires forall d :: d in hand && leadingSuit.Some? ==> d.suit != leadingSuit.value
    ensures var c := PlayCardSpec(hand, leadingSuit, trump, winner, false).card;
      forall d :: d in hand ==> Key(d) <= Key(c)
  {
    if leadingSuit.Some? {
      FilterSuitEmpty(hand, leadingSuit.value);
    }
    FilterSuitEmpty(hand, trump);
    WorstCardMaximal(hand);
  }

  /** `BaselinePlayer`: a player's name, hand, number of tricks won in the
      round and the cards collected from them. */
  class BaselinePlayer {
    const name: string
    var hand: seq<Card>
    var tricksWon: nat
    var collectedCards: seq<Card>

    constructor(name: string)
      ensures this.name == name
      ensures hand == [] && tricksWon == 0 && collectedCards == []
    {
      this.name := name;
      hand := [];
      tricksWon := 0;
      collectedCards := [];
    }

    /** `add_cards`: the cards go to the end of the hand. */
    method AddCards(cards: seq<Card>)
      modifies this
      ensures hand == old(hand) + cards
      ensures tricksWon == old(tricksWon) && collectedCards == old(collectedCards)
    {
      hand := hand + cards;
    }

    /** `clear_round_data`: the hand, the tricks won and the collected cards start over. */
    method ClearRoundData()
      modifies this
      ensures hand == [] && tricksWon == 0 && collectedCards == []
    {
      hand := [];
      tricksWon := 0;
      collectedCards := [];
    }

    /** `sort_hand`: the hand in place, stably sorted by rank value. */
    method SortHand()
      modifies this
      ensures hand == SortByRank(old(hand))
      ensures tricksWon == old(tricksWon) && collectedCards == old(collectedCards)
    {
      hand := SortByRank(hand);
    }

    /** `sort_hand` followed by `hand.pop(0)`: the best card leaves the hand. */
    method PopBestCard() returns (card: Card)
      requires |hand| > 0
      modifies this
      ensures Play(card, hand) == PopBest(old(hand))
      ensures tricksWon == old(tricksWon) && collectedCards == old(collectedCards)
    {
      SortHand();
      card := hand[0];
      hand := hand[1..];
    }

    /** `sort_hand` followed by `hand.pop(-1)`: the worst card leaves the hand. */
    method PopWorstCard() returns (card: Card)
      requires |hand| > 0
      modifies this
      ensures Play(card, hand) == PopWorst(old(hand))
      ensures tricksWon == old(tricksWon) && collectedCards == old(collectedCards)
    {
      SortHand();
      card := hand[|hand| - 1];
      hand := hand[..|hand| - 1];
    }

    /** `hand.remove(card)`: the first occurrence of `card` leaves the hand. */
    method RemoveCard(card: Card)
      requires card in hand
      modifies this
      ensures hand == RemoveFirst(old(hand), card)
      ensures tricksWon == old(tricksWon) && collectedCards == old(collectedCards)
    {
      hand := RemoveFirst(hand, card);
    }

    /** The part of `play_card` after the leading case: the follower's choice. */
    method Follow(leadingSuit: Option<Suit>, trump: Suit, winner: Option<Card>) returns (card: Card)
      requires |hand| > 0
      modifies this
      ensures Play(card, hand) == FollowPlay(old(hand), leadingSuit, trump, winner)
      ensures tricksWon == old(tricksWon) && collectedCards == old(collectedCards)
    {
      var inSuit := LeadSuitCards(hand, leadingSuit);
      var trumps := FilterSuit(hand, trump);
      if inSuit != [] {
        // the cards of the suit sorted by rank: their first and last card
        if CanBeat(BestCard(inSuit), winner, trump) {
          card := BestCard(inSuit);
        } else {
          card := WorstCard(inSuit);
        }
        RemoveCard(card);
      } else if trumps != [] && (winner.None? || winner.value.suit != trump ||
                                 CanBeat(BestCard(trumps), winner, trump)) {
        card := BestCard(trumps);
        RemoveCard(card);
      } else {
        card := PopWorstCard();
      }
    }

    /** `play_card`: plays the card `PlayCardSpec` chooses and leaves its
        hand; an empty hand is outside the contract (the source pops from an
        empty list). */
    method PlayCard(leadingSuit: Option<Suit>, trump: Suit, winner: Option<Card>, isLeading: bool)
      returns (card: Card)
      requires |hand| > 0
      modifies this
      ensures Play(card, hand) == PlayCardSpec(old(hand), leadingSuit, trump, winner, isLeading)
      ensures tricksWon == old(tricksWon) && collectedCards == old(collectedCards)
    {
      if isLeading {
        card := PopBestCard();
      } else {
        card := Follow(leadingSuit, trump, winner);
      }
    }
  }
}
