/** Cards of the Flemish 52-card deck, the rank order shared by both drafts of
    the game, and the card queries built on it (sorting by rank, best and worst
    card, filtering by suit). */
module Cards {

  datatype Option<T> = None | Some(value: T)

  /** The four suits, as the deck file names them. */
  datatype Suit = Ruiten | Harten | Klaveren | Schoppen

  /** Rank symbols from strongest to weakest: ace ("1"), king ("R"), queen ("D"),
      jack ("V"), ten, and down to two. */
  const RankOrder: seq<string> := ["1", "R", "D", "V", "10", "9", "8", "7", "6", "5", "4", "3", "2"]

  /** The rank symbols counted as strong when a hand's trump strength is evaluated. */
  const StrongRanks: seq<string> := ["1", "R", "D", "V", "10"]

  datatype Rank = Ace | King | Queen | Jack | Ten | Nine | Eight | Seven | Six | Five | Four | Three | Two

  datatype Card = Card(suit: Suit, rank: Rank)

  /** The symbol a rank carries in the deck file. */
  function Symbol(r: Rank): string
  {
    match r
    case Ace => "1"
    case King => "R"
    case Queen => "D"
    case Jack => "V"
    case Ten => "10"
    case Nine => "9"
    case Eight => "8"
    case Seven => "7"
    case Six => "6"
    case Five => "5"
    case Four => "4"
    case Three => "3"
    case Two => "2"
  }

  /** Position of the first occurrence of `x` in `s` (Python's `list.index`). */
  function IndexOf<T(==)>(s: seq<T>, x: T): (i: nat)
    requires x in s
    ensures i < |s| && s[i] == x
    ensures forall j :: 0 <= j < i ==> s[j] != x
  {
    if s[0] == x then 0 else 1 + IndexOf(s[1..], x)
  }

  /** The rank value of a symbol, its position in the rank order; `None`
      stands for the KeyError an unknown symbol raises. */
  function RankValueOf(sym: string): (r: Option<nat>)
    ensures r.Some? <==> sym in RankOrder
    ensures r.Some? ==> r.value < 13 && RankOrder[r.value] == sym
  {
    if sym in RankOrder then Some(IndexOf(RankOrder, sym)) else None
  }

  /** The rank value of a card's rank: 0 is the strongest (ace), 12 the weakest (two). */
  function RankValue(r: Rank): (v: nat)
    ensures v < 13
  {
    match r
    case Ace => 0
    case King => 1
    case Queen => 2
    case Jack => 3
    case Ten => 4
    case Nine => 5
    case Eight => 6
    case Seven => 7
    case Six => 8
    case Five => 9
    case Four => 10
    case Three => 11
    case Two => 12
  }

  lemma RankOrderDistinct()
    ensures |RankOrder| == 13
    ensures forall i, j :: 0 <= i < j < 13 ==> RankOrder[i] != RankOrder[j]
  {
  }

  /** Looking a rank's symbol up in the rank order gives the rank's value. */
  lemma SymbolLookup(r: Rank)
    ensures RankOrder[RankValue(r)] == Symbol(r)
    ensures RankValueOf(Symbol(r)) == Some(RankValue(r))
  {
    var v := RankValue(r);
    assert RankOrder[v] == Symbol(r) by { SymbolAtValue(r); }
    assert IndexOf(RankOrder, Symbol(r)) == v by {
      RankOrderDistinct();
      IndexOfEarliest(RankOrder, v);
    }
  }

  lemma SymbolAtValue(r: Rank)
    ensures RankOrder[RankValue(r)] == Symbol(r)
  {
  }

  /** An element that does not occur earlier is found at its own position. */
  lemma {:induction false} IndexOfEarliest<T>(s: seq<T>, i: nat)
    requires i < |s| && forall j :: 0 <= j < i ==> s[j] != s[i]
    ensures IndexOf(s, s[i]) == i
  {
    if i > 0 {
      assert s[1..][i - 1] == s[i];
      IndexOfEarliest(s[1..], i - 1);
    }
  }

  /** Distinct ranks have distinct values. */
  lemma RankValueInjective(r: Rank, s: Rank)
    requires RankValue(r) == RankValue(s)
    ensures r == s
  {
  }

  /** Two different cards of one suit have different rank values. */
  lemma DistinctCardsOfASuit(a: Card, b: Card)
    requires a.suit == b.suit && a != b
    ensures Key(a) != Key(b)
  {
    if Key(a) == Key(b) {
      RankValueInjective(a.rank, b.rank);
    }
  }

  /** Every value 0..12 is the rank value of some rank. */
  lemma RankValueOnto(v: nat)
    requires v < 13
    ensures exists r :: RankValue(r) == v
  {
    var rs := [Ace, King, Queen, Jack, Ten, Nine, Eight, Seven, Six, Five, Four, Three, Two];
    assert RankValue(rs[v]) == v;
  }

  /** A rank counted as strong in a hand's trump strength: ace, king, queen,
      jack or ten. */
  predicate IsStrong(r: Rank)
  {
    r.Ace? || r.King? || r.Queen? || r.Jack? || r.Ten?
  }

  /** The strong ranks are the ones whose symbols `StrongRanks` lists, which
      are the five ranks of lowest rank value. */
  lemma StrongIsTopFive(r: Rank)
    ensures IsStrong(r) <==> Symbol(r) in StrongRanks
    ensures IsStrong(r) <==> RankValue(r) < 5
  {
  }

  /** The sort key of a card. */
  function Key(c: Card): nat
  {
    RankValue(c.rank)
  }

  ghost predicate SortedByRank(s: seq<Card>)
  {
    forall i, j :: 0 <= i < j < |s| ==> Key(s[i]) <= Key(s[j])
  }

  /** Inserts `c` before the first card whose key is not smaller: a card
      inserted this way stays ahead of the cards of equal key. */
  function Insert(c: Card, s: seq<Card>): (r: seq<Card>)
    ensures |r| == |s| + 1
    ensures multiset(r) == multiset(s) + multiset{c}
  {
    if s == [] then [c]
    else if Key(c) <= Key(s[0]) then [c] + s
    else
      assert s == [s[0]] + s[1..];
      [s[0]] + Insert(c, s[1..])
  }

  lemma {:induction false} InsertSorted(c: Card, s: seq<Card>)
    requires SortedByRank(s)
    ensures SortedByRank(Insert(c, s))
  {
    if s != [] && Key(c) > Key(s[0]) {
      InsertSorted(c, s[1..]);
      var t := Insert(c, s[1..]);
      forall k | 0 <= k < |t| ensures Key(s[0]) <= Key(t[k]) {
        assert t[k] in multiset(t);
      }
    }
  }

  /** Python's stable `sorted(cards, key=rank value)`. */
  function SortByRank(s: seq<Card>): (r: seq<Card>)
    ensures |r| == |s|
    ensures multiset(r) == multiset(s)
  {
    if s == [] then []
    else
      assert s == [s[0]] + s[1..];
      Insert(s[0], SortByRank(s[1..]))
  }

  /** The sorted cards are in order of rank value. */
  lemma {:induction false} SortByRankSorted(s: seq<Card>)
    ensures SortedByRank(SortByRank(s))
  {
    if s != [] {
      SortByRankSorted(s[1..]);
      InsertSorted(s[0], SortByRank(s[1..]));
    }
  }

  /** `c` sits at index `i` of `s`, has the minimal key, and no earlier card ties it. */
  ghost predicate IsFirstBest(s: seq<Card>, i: int)
  {
    0 <= i < |s| &&
    (forall j :: 0 <= j < |s| ==> Key(s[i]) <= Key(s[j])) &&
    (forall j :: 0 <= j < i ==> Key(s[j]) > Key(s[i]))
  }

  /** `c` sits at index `i` of `s`, has the maximal key, and no later card ties it. */
  ghost predicate IsLastWorst(s: seq<Card>, i: int)
  {
    0 <= i < |s| &&
    (forall j :: 0 <= j < |s| ==> Key(s[j]) <= Key(s[i])) &&
    (forall j :: i < j < |s| ==> Key(s[j]) < Key(s[i]))
  }

  lemma InsertHead(c: Card, s: seq<Card>)
    ensures Insert(c, s)[0] == if s == [] || Key(c) <= Key(s[0]) then c else s[0]
  {
  }

  /** The first best card of `s` is its head or the first best card of its tail. */
  lemma FirstBestStep(s: seq<Card>, i: nat)
    requires |s| > 1 && IsFirstBest(s[1..], i)
    ensures Key(s[0]) <= Key(s[i + 1]) ==> IsFirstBest(s, 0)
    ensures Key(s[0]) > Key(s[i + 1]) ==> IsFirstBest(s, i + 1)
  {
    forall j | 0 < j < |s| ensures s[j] == s[1..][j - 1] {}
  }

  lemma {:induction false} SortHeadIsFirstBest(s: seq<Card>) returns (k: nat)
    requires |s| > 0
    ensures IsFirstBest(s, k) && s[k] == SortByRank(s)[0]
  {
    if |s| == 1 {
      k := 0;
    } else {
      var rest := s[1..];
      var t := SortByRank(rest);
      var i := SortHeadIsFirstBest(rest);
      InsertHead(s[0], t);
      assert SortByRank(s) == Insert(s[0], t);
      assert s[i + 1] == rest[i] == t[0];
      FirstBestStep(s, i);
      k := if Key(s[0]) <= Key(t[0]) then 0 else i + 1;
    }
  }

  lemma {:induction false} InsertLast(c: Card, s: seq<Card>)
    requires SortedByRank(s)
    ensures var r := Insert(c, s);
      r[|r| - 1] == if s == [] || Key(c) > Key(s[|s| - 1]) then c else s[|s| - 1]
  {
    if s != [] && Key(c) > Key(s[0]) {
      InsertLast(c, s[1..]);
    }
  }

  /** The last worst card of `s` is its head or the last worst card of its tail. */
  lemma LastWorstStep(s: seq<Card>, i: nat)
    requires |s| > 1 && IsLastWorst(s[1..], i)
    ensures Key(s[0]) > Key(s[i + 1]) ==> IsLastWorst(s, 0)
    ensures Key(s[0]) <= Key(s[i + 1]) ==> IsLastWorst(s, i + 1)
  {
    forall j | 0 < j < |s| ensures s[j] == s[1..][j - 1] {}
  }

  lemma {:induction false} SortLastIsLastWorst(s: seq<Card>) returns (k: nat)
    requires |s| > 0
    ensures IsLastWorst(s, k) && s[k] == SortByRank(s)[|s| - 1]
  {
    if |s| == 1 {
      k := 0;
    } else {
      var rest := s[1..];
      var t := SortByRank(rest);
      var i := SortLastIsLastWorst(rest);
      SortByRankSorted(rest);
      InsertLast(s[0], t);
      assert SortByRank(s) == Insert(s[0], t);
      assert s[i + 1] == rest[i] == t[|t| - 1];
      LastWorstStep(s, i);
      k := if Key(s[0]) > Key(t[|t| - 1]) then 0 else i + 1;
    }
  }

  /** `best_card`: the first card of the cards sorted by rank. */
  function BestCard(cards: seq<Card>): (c: Card)
    requires |cards| > 0
    ensures c in cards
  {
    assert SortByRank(cards)[0] in multiset(SortByRank(cards));
    SortByRank(cards)[0]
  }

  /** The best card is the first card of minimal rank value. */
  lemma BestCardIsFirstBest(cards: seq<Card>) returns (i: nat)
    requires |cards| > 0
    ensures IsFirstBest(cards, i) && cards[i] == BestCard(cards)
  {
    i := SortHeadIsFirstBest(cards);
  }

  /** No card ranks above the best card. */
  lemma BestCardMinimal(cards: seq<Card>)
    requires |cards| > 0
    ensures forall d :: d in cards ==> Key(BestCard(cards)) <= Key(d)
  {
    var i := BestCardIsFirstBest(cards);
    forall d | d in cards ensures Key(BestCard(cards)) <= Key(d) {
      var k :| 0 <= k < |cards| && cards[k] == d;
    }
  }

  /** `worst_card`: the last card of the cards sorted by rank. */
  function WorstCard(cards: seq<Card>): (c: Card)
    requires |cards| > 0
    ensures c in cards
  {
    assert SortByRank(cards)[|cards| - 1] in multiset(SortByRank(cards));
    SortByRank(cards)[|cards| - 1]
  }

  /** The worst card is the last card of maximal rank value. */
  lemma WorstCardIsLastWorst(cards: seq<Card>) returns (i: nat)
    requires |cards| > 0
    ensures IsLastWorst(cards, i) && cards[i] == WorstCard(cards)
  {
    i := SortLastIsLastWorst(cards);
  }

  /** No card ranks below the worst card. */
  lemma WorstCardMaximal(cards: seq<Card>)
    requires |cards| > 0
    ensures forall d :: d in cards ==> Key(d) <= Key(WorstCard(cards))
  {
    var i := WorstCardIsLastWorst(cards);
    forall d | d in cards ensures Key(d) <= Key(WorstCard(cards)) {
      var k :| 0 <= k < |cards| && cards[k] == d;
    }
  }

  /** `filter_cards_by_suit`: the cards of suit `suit`, in their original order. */
  function FilterSuit(cards: seq<Card>, suit: Suit): (r: seq<Card>)
    ensures |r| <= |cards|
    ensures forall c :: c in r <==> c in cards && c.suit == suit
  {
    if cards == [] then []
    else
      assert cards == [cards[0]] + cards[1..];
      (if cards[0].suit == suit then [cards[0]] else []) + FilterSuit(cards[1..], suit)
  }

  /** Filtering keeps every card of the suit as often as it occurs, and no other card. */
  lemma {:induction false} FilterSuitCounts(cards: seq<Card>, suit: Suit)
    ensures forall c :: multiset(FilterSuit(cards, suit))[c] == if c.suit == suit then multiset(cards)[c] else 0
  {
    if cards != [] {
      FilterSuitCounts(cards[1..], suit);
      assert cards == [cards[0]] + cards[1..];
    }
  }

  /** Nothing is left exactly when no card is of the suit. */
  lemma {:induction false} FilterSuitEmpty(cards: seq<Card>, suit: Suit)
    ensures FilterSuit(cards, suit) == [] <==> forall c :: c in cards ==> c.suit != suit
  {
    if cards != [] {
      FilterSuitEmpty(cards[1..], suit);
      assert cards == [cards[0]] + cards[1..];
    }
  }

  /** Filtering a concatenation filters each part in turn, so the relative
      order of the kept cards is the original one. */
  lemma {:induction false} FilterSuitAppend(a: seq<Card>, b: seq<Card>, suit: Suit)
    ensures FilterSuit(a + b, suit) == FilterSuit(a, suit) + FilterSuit(b, suit)
  {
    if a != [] {
      var x := if a[0].suit == suit then [a[0]] else [];
      calc {
        FilterSuit(a + b, suit);
      == { assert (a + b)[0] == a[0] && (a + b)[1..] == a[1..] + b; }
        x + FilterSuit(a[1..] + b, suit);
      == { FilterSuitAppend(a[1..], b, suit); }
        x + (FilterSuit(a[1..], suit) + FilterSuit(b, suit));
      == { SeqAssoc(x, FilterSuit(a[1..], suit), FilterSuit(b, suit)); }
        FilterSuit(a, suit) + FilterSuit(b, suit);
      }
    } else {
      assert a + b == b;
    }
  }

  lemma SeqAssoc<T>(x: seq<T>, y: seq<T>, z: seq<T>)
    ensures x + (y + z) == (x + y) + z
  {
  }

  /** Python's `list.remove`: drops the first occurrence of `c`. */
  function RemoveFirst(s: seq<Card>, c: Card): (r: seq<Card>)
    requires c in s
    ensures |r| == |s| - 1
    ensures multiset(r) == multiset(s) - multiset{c}
    ensures exists i :: 0 <= i < |s| && s[i] == c && c !in s[..i] && r == s[..i] + s[i + 1..]
  {
    var i := IndexOf(s, c);
    assert s == s[..i] + [c] + s[i + 1..];
    assert c !in s[..i];
    s[..i] + s[i + 1..]
  }
}
