# Wiezen round engine

A model of the round engine of a four-player Wiezen (Belgian whist)
simulator, with proofs about it. The project models three parts of the
Python program.

- **Cards and the first-draft round** (`src/normalgame.py`):
  - the rank order, in which a lower rank value is stronger;
  - best and worst card, and filtering by suit;
  - the follow-suit play of the first draft and its trick winner, without trumps;
  - seat rotation and the 4-4-5 deal;
  - the 13-trick round;
  - reassembly of the deck: stacks of four are shuffled, flattened and cut.
- **The rule-based player** (`src/Game/Players/BaselinePlayer.py`). A
  class holds `hand`, `tricksWon` and `collectedCards` and updates them in
  place. Around it sit the trump-strength formula, the ask/pass bid, the
  trump-aware `CanBeat` and the card policy `PlayCard`.
- **The round engine** (`src/Game/Game.py`). A class holds the four
  players and the match scores. It deals by seat from the starting seat,
  picks the trump card, runs the bidding that stops at two askers,
  resolves the contract, plays 13 tricks decided by `CanBeat`, scores the
  round, collects the piles, and cuts the deck for the next round.

Module layout:

| file | module | contents |
|---|---|---|
| `cards.dfy` | `Cards` | suits, ranks and rank values, stable sort by rank, best/worst card, suit filter |
| `deck.dfy` | `Deck` | permutations (the shuffles), the cut, flattening, stacks of four, the 4-4-5 deal |
| `normalgame.dfy` | `NormalGame` | the first-draft functions and round loop of `normalgame.py` |
| `baseline_player.dfy` | `Players` | the bidding and playing policy, and class `BaselinePlayer` |
| `game.dfy` | `GameEngine` | seats, bidding, contract, scoring, tricks, round, match step, and class `Game` |

Randomness is turned into parameters:
- Every `random.shuffle` is an index permutation `perm` with
  `IsPermutation(perm, n)`, applied by `Permute`. This covers the deck
  shuffle of `play_round`, the stack shuffle of `reassemble_deck` and the
  per-trick gather shuffle of `play_game_round`.
- Every `random.randint(1, n - 1)` is a parameter `cut` with
  `1 <= cut < n`, or a `choice` that `CutPoint` maps into that range.

A card is a `(suit, rank)` value. The four players are seats 0..3. Player
dictionaries keyed by name become sequences indexed by seat.

Points where the model follows the code rather than the rules the
comments describe:
- `determine_mode` has no solo threshold. A single asker always plays
  solo, although the comment at `src/Game/Game.py:97` mentions a strength
  of 10 (`GameEngine.ContractPartition`).
- Bidding starts at the starting seat, not at the holder of the trump card
  (`GameEngine.AskingSeatsMembers`).
- `Game.reassemble_deck` only cuts (`GameEngine.ReassembleDeck`).
- `Game.play_round` collects each trick in play order. The first draft
  shuffles each trick before the winner collects it.
- The trump is the last card left in the deck, or else the last card in
  seat 3's hand. With a 52-card deck nothing is left, so the trump comes
  from seat 3's hand. That card is the last card of the deck only when
  seat 0 was served first (`GameEngine.TrumpOfFullDeck`).
- On a redeal, `play_round` hands back what remains of the deck after the
  deal. With a 52-card deck that is nothing. The next `reassemble_deck`
  then has an empty `randint` range and raises `ValueError`. The model
  shows this as `NextDeck` returning `None` (`GameEngine.RedealEmptiesDeck`).
  Card conservation is therefore stated only for rounds that are played.

## Model

| member | source | states |
|---|---|---|
| Cards.RankValueOf | src/normalgame.py:42-46 | the lookup succeeds exactly for the 13 rank symbols, and then gives the position of the symbol in the rank order; an unknown symbol is the `KeyError` path (`None`) |
| Cards.RankValue | src/Game/Players/BaselinePlayer.py:18-20 | every rank has a value in 0..12 |
| Cards.RankOrderDistinct | src/normalgame.py:44 | the rank order lists 13 distinct symbols |
| Cards.SymbolLookup | src/normalgame.py:42-46 | looking up a rank's symbol gives that rank's value, and the rank order holds the symbol at that value |
| Cards.RankValueInjective | src/normalgame.py:44-46 | distinct ranks have distinct values |
| Cards.RankValueOnto | src/normalgame.py:44-46 | every value 0..12 belongs to some rank, so ranks and values are in bijection |
| Cards.IndexOf | src/normalgame.py:102 | `list.index`: the first position holding the element |
| Cards.StrongIsTopFive | src/Game/Players/BaselinePlayer.py:31 | a rank is strong iff its symbol is one of `1 R D V 10`, iff its value is below 5 |
| Cards.SortByRank | src/normalgame.py:49-52 | sorting keeps the length and the multiset of the cards |
| Cards.SortByRankSorted | src/normalgame.py:49-52 | the sorted cards are in non-decreasing rank value |
| Cards.SortHeadIsFirstBest | src/normalgame.py:49-57 | the first sorted card is the earliest card of minimal rank value, as the stable sort gives |
| Cards.SortLastIsLastWorst | src/normalgame.py:49-62 | the last sorted card is the latest card of maximal rank value |
| Cards.BestCard | src/normalgame.py:55-57 | the best card of a non-empty list is one of its cards |
| Cards.BestCardIsFirstBest | src/normalgame.py:55-57 | the best card is the earliest card of minimal rank value |
| Cards.BestCardMinimal | src/normalgame.py:55-57 | no card of the list has a lower rank value than the best card |
| Cards.WorstCard | src/normalgame.py:60-62 | the worst card of a non-empty list is one of its cards |
| Cards.WorstCardIsLastWorst | src/normalgame.py:60-62 | the worst card is the latest card of maximal rank value |
| Cards.WorstCardMaximal | src/normalgame.py:60-62 | no card of the list has a higher rank value than the worst card |
| Cards.FilterSuit | src/normalgame.py:65-67 | the filter holds exactly the cards of the suit |
| Cards.FilterSuitCounts | src/normalgame.py:65-67 | each card of the suit keeps its multiplicity, and other cards are dropped |
| Cards.FilterSuitEmpty | src/normalgame.py:65-67 | the filter is empty iff no card of the list has the suit |
| Cards.FilterSuitAppend | src/normalgame.py:65-67 | filtering distributes over concatenation, so relative order is kept |
| Cards.RemoveFirst | src/normalgame.py:165 | `list.remove`: the first copy of the card is removed, the cards before and after it keep their order, and nothing else is lost |
| Deck.PermutePreservesMultiset | src/Game/Game.py:34 | a shuffle by a permutation keeps the length and the multiset |
| Deck.PermuteMultisetInvariant | src/normalgame.py:206 | index lists with equal multisets pick equal multisets of elements |
| Deck.Cut | src/normalgame.py:25 | a cut at `k` is the rotation `s[k..] + s[..k]`, and it keeps the multiset |
| Deck.FlattenMultisetInvariant | src/normalgame.py:206-211 | reordering the stacks does not change the multiset of the flattened deck |
| Deck.Chunks | src/normalgame.py:201-203 | the chunks of a pile flatten back to the pile, and there are ⌈n/4⌉ of them |
| Deck.ChunkAt | src/normalgame.py:201-203 | chunk `k` is `cards[4k..4k+4]`, cut short at the end, and is never empty |
| Deck.ChunksOfWholeTricks | src/normalgame.py:201-203 | a pile of whole tricks splits into stacks of exactly four |
| Deck.Stacks | src/normalgame.py:197-203 | the stacks of all piles, in seat order, flatten back to the piles |
| Deck.DealShareStep | src/normalgame.py:34-38 | each pass of the deal appends the next slice of 4, 4 or 5 cards to a player's share |
| Deck.DealShareOfFour | src/normalgame.py:29-39 | player `i` gets `cards[4i..4i+4]`, `cards[16+4i..20+4i]` and `cards[32+5i..37+5i]` |
| Deck.DealFourPartition | src/normalgame.py:29-39 | every player gets 13 cards, and together the shares are the first 52 cards |
| NormalGame.CutDeck | src/normalgame.py:22-26 | the cut deck has the same length and multiset; it starts at card `cut` and ends with card `cut - 1` |
| NormalGame.DealPass | src/normalgame.py:35-38 | one pass appends to player `j` the `count` cards at `start + count*j`, and moves the index past them |
| NormalGame.DealDeck | src/normalgame.py:29-39 | every player's hand is extended by exactly its 4-4-5 share of the deck |
| NormalGame.DealFourHands | src/normalgame.py:113-114 | dealing to four empty hands gives 13 cards each, which together are the first 52 cards |
| NormalGame.CurrentWinningCard | src/normalgame.py:70-75 | `None` iff no dealt card has the lead suit; otherwise a dealt card of the lead suit of minimal rank value |
| NormalGame.CanBeatCurrentWinner | src/normalgame.py:78-82 | any card beats an absent winner, and a card of the same rank never beats the winner, so on a tie the earlier card keeps the lead |
| NormalGame.BeatingTakesTheLead | src/normalgame.py:78-82 | a new card of the lead suit can beat the current winner iff it becomes the winning card once dealt |
| NormalGame.GetRoundWinner | src/normalgame.py:85-97 | the winner sits at the first position of minimal rank value among lead-suit cards; with no lead-suit card it is the last player (index -1) |
| NormalGame.FirstMinLead | src/normalgame.py:85-97 | the position is -1 iff no card is of the lead suit, and otherwise the first position of minimal rank value among lead-suit cards |
| NormalGame.TrickWinnerIndex | src/normalgame.py:85-97 | in a turn of four cards led by the first, the winning position is the first lead-suit card of minimal rank value |
| NormalGame.TrickWinnerUnique | src/normalgame.py:85-97 | that winning position is unique |
| NormalGame.RotatePlayerOrder | src/normalgame.py:100-103 | the rotation keeps the length and the multiset of names, and starts with the starting player |
| NormalGame.RotationTable | src/normalgame.py:100-103 | rotating the four players to player `k` gives `k, k+1, …` round the table |
| NormalGame.RotateSeats | src/normalgame.py:120-121 | every rotation of the four players visits each player exactly once |
| NormalGame.SeatOf | src/normalgame.py:134 | in a play order each player has a position |
| NormalGame.FirstDraftChoice | src/normalgame.py:137-161 | the card chosen is in the player's hand |
| NormalGame.FirstDraftFollowsSuit | src/normalgame.py:144-158 | a player holding the lead suit plays a card of it: the best such card, which beats the current winner, when any such card beats it, and otherwise the worst such card |
| NormalGame.FirstDraftDiscards | src/normalgame.py:159-161 | a player void in the lead suit plays a card of maximal rank value |
| NormalGame.LeadOf | src/normalgame.py:137-140 | there is a lead suit exactly once a card has been dealt |
| NormalGame.FirstDraftTurns | src/normalgame.py:134-166 | after `j` turns, `j` cards are dealt and the players yet to play keep their hands |
| NormalGame.TurnStep | src/normalgame.py:134-166 | turn `j` removes the chosen card from the player's hand and appends it to the dealt cards |
| NormalGame.TurnsConserveCards | src/normalgame.py:165-166 | hands plus dealt cards always hold the cards the hands held at the start |
| NormalGame.TurnsPlayChoices | src/normalgame.py:134-166 | the `m`-th dealt card is the policy's choice from that player's hand given the cards before it, and that hand loses exactly it |
| NormalGame.TurnPlaysChoice | src/normalgame.py:134-166 | the card dealt at each position is the policy's choice given the cards before it, and that player's hand loses exactly it |
| NormalGame.TurnSizes | src/normalgame.py:134-166 | after a trick every hand is one card shorter |
| NormalGame.PlayFirstDraftTrick | src/normalgame.py:131-166 | the loop deals four cards as the turn function says, shortens each hand by one and conserves cards |
| NormalGame.PlayTrick | src/normalgame.py:131-169 | the loop deals the four cards the turn function gives, every hand loses one card and no card is lost, and the winner is the player of the first card of the lead suit with the lowest rank value |
| NormalGame.GatherTrick | src/normalgame.py:172-174 | the winner's pile grows by the trick in the shuffled order, the other piles are unchanged, and the piles gain exactly the trick's cards |
| NormalGame.GatheredCards | src/normalgame.py:172-174 | adding the shuffled trick to one pile adds exactly the trick's cards to the piles |
| NormalGame.PileSizesStep | src/normalgame.py:170-174 | a pile that gains one trick of four keeps its size at four times the tricks won |
| NormalGame.RecordTrick | src/normalgame.py:169-180 | the winner's count goes up by one and the others stay, the winner's pile grows by the shuffled trick, the piles keep four cards per turn won, and the next order starts with the winner |
| NormalGame.StartTurns | src/normalgame.py:120-124 | the round starts with zero counts, empty piles and the rotated order |
| NormalGame.FourShares | src/normalgame.py:113-114 | dealing to four empty hands gives each player its 4-4-5 share of 13 cards |
| NormalGame.TurnPlayed | src/normalgame.py:131-180 | after one turn every hand is one card shorter and the counts add up to one more |
| NormalGame.TurnsPlayed | src/normalgame.py:127-180 | after `k` turns every hand is `k` cards shorter and the counts add up to `k` more |
| NormalGame.FirstDraftRound | src/normalgame.py:120-180 | after the thirteen turns from the dealt hands the hands are empty and the counts add up to 13 |
| NormalGame.TurnRecorded | src/normalgame.py:131-180 | playing the trick and recording it for its winner gives exactly the state of `TurnPlayed` |
| NormalGame.TurnPlayedKeeps | src/normalgame.py:127-180 | one turn keeps the round invariant: counts add up to the turns played, piles hold four cards per turn won, and hands plus piles hold the dealt cards |
| NormalGame.TurnsPlayedKeeps | src/normalgame.py:127-180 | the invariant holds after every number of turns |
| NormalGame.FirstDraftRoundConserves | src/normalgame.py:120-180 | after the round every hand is empty, each pile holds four cards per turn won, and the piles hold exactly the dealt cards |
| NormalGame.TakeTurn | src/normalgame.py:127-180 | the hands, counts, piles and order after one turn are those of `TurnPlayed`: the winner by `TrickWinnerIndex` counts the turn, gathers the cards and leads next |
| NormalGame.TurnsDone | src/normalgame.py:127-180 | after 13 tricks the counts add up to 13 and the piles hold exactly the dealt cards |
| NormalGame.PlayTurns | src/normalgame.py:120-180 | the counts and piles after the loop are those of `FirstDraftRound`, with counts adding up to 13, four cards per turn won, and every card of the hands in exactly one pile |
| NormalGame.PlayGameRound | src/normalgame.py:106-189 | the counts and piles are those of `FirstDraftRound` on the dealt hands, and the piles hold exactly the first 52 cards of the deck, four per turn won |
| NormalGame.SplitIntoStacks | src/normalgame.py:196-203 | the loop builds the stacks of four of every pile, in seat order |
| NormalGame.AppendStacks | src/normalgame.py:201-203 | one pile's loop appends its stacks of four |
| NormalGame.Concatenate | src/normalgame.py:208-211 | the loop concatenates the stacks |
| NormalGame.ReassembleDeck | src/normalgame.py:192-221 | the new deck is the shuffled stacks flattened and then cut, and it keeps the length and multiset of the collected cards |
| NormalGame.ThirteenStacks | src/normalgame.py:196-203 | piles of whole tricks give stacks of exactly four, as many as a quarter of the cards (13 for 52 cards) |
| Players.StrongCards | src/Game/Players/BaselinePlayer.py:31 | exactly the cards ranked `1 R D V 10` |
| Players.TrumpStrength | src/Game/Players/BaselinePlayer.py:28-32 | every trump adds at least one point, so the strength is at least the number of trumps |
| Players.CardPoints | src/Game/Players/BaselinePlayer.py:28-32 | a card contributes at most 3 to the trump strength |
| Players.TrumpStrengthIsPointSum | src/Game/Players/BaselinePlayer.py:28-32 | `2·strong trumps + trumps` equals the sum of 3 per strong trump and 1 per other trump |
| Players.TrumpPointsAppend | src/Game/Players/BaselinePlayer.py:28-32 | the per-card points of two hands add up |
| Players.NoTrumpsNoStrength | src/Game/Players/BaselinePlayer.py:28-32 | the strength is 0 iff the hand holds no trump |
| Players.TrumpStrengthGrows | src/Game/Players/BaselinePlayer.py:28-32 | more cards never lower the strength |
| Players.TrumpStrengthBound | src/Game/Players/BaselinePlayer.py:28-32 | the strength is at most three times the number of trumps |
| Players.DecideBid | src/Game/Players/BaselinePlayer.py:34-37 | the hand asks iff its trump points, counted card by card (three for a strong trump, one for any other), reach 6; so an asking hand holds at least two trumps and a hand with six trumps or more always asks |
| Players.AskSurvivesMoreCards | src/Game/Players/BaselinePlayer.py:34-37 | a hand that asks still asks with more cards |
| Players.CanBeat | src/Game/Players/BaselinePlayer.py:76-82 | any card beats an absent winner; a trump beats any non-trump winner; otherwise a card beats a winner only by following its suit, and within the winner's suit exactly the cards of lower rank value beat it |
| Players.CanBeatIsStrictOrder | src/Game/Players/BaselinePlayer.py:76-82 | `CanBeat` is irreflexive, asymmetric and transitive |
| Players.HigherOfASuitBeatsMore | src/Game/Players/BaselinePlayer.py:76-82 | if a card beats the winner, so does any better card of its suit |
| Players.LeadSuitCards | src/Game/Players/BaselinePlayer.py:46 | exactly the hand's cards of the lead suit, or none without a lead |
| Players.PopBest | src/Game/Players/BaselinePlayer.py:42-43 | the sorted hand's first card is the best card, and the rest is the sorted hand without it |
| Players.PopWorst | src/Game/Players/BaselinePlayer.py:66-67 | the sorted hand's last card is the worst card, and the rest is the sorted hand without it |
| Players.FollowPlay | src/Game/Players/BaselinePlayer.py:46-74 | a follower plays a card of its hand, and the hand loses exactly that card |
| Players.PlayCardSpec | src/Game/Players/BaselinePlayer.py:39-74 | the played card is in the hand, and the hand loses exactly one copy of it |
| Players.LeaderPlaysBest | src/Game/Players/BaselinePlayer.py:40-44 | the leader plays a card of minimal rank value |
| Players.FollowerBeatsWhenItCan | src/Game/Players/BaselinePlayer.py:46-55 | holding a lead-suit card that beats the winner, the follower plays the best lead-suit card, which beats it |
| Players.FollowerUnderplays | src/Game/Players/BaselinePlayer.py:46-55 | holding the lead suit but unable to beat, the follower plays the worst lead-suit card |
| Players.VoidFollowerTrumps | src/Game/Players/BaselinePlayer.py:57-70 | void in the lead suit with trumps: the best trump if some trump beats the winner, otherwise a card of maximal rank value |
| Players.VoidFollowerDiscards | src/Game/Players/BaselinePlayer.py:72-74 | void in the lead suit and in trumps: a card of maximal rank value |
| Players.BaselinePlayer.constructor | src/Game/Players/BaselinePlayer.py:4-8 | a new player has its name, an empty hand, no tricks and no collected cards |
| Players.BaselinePlayer.AddCards | src/Game/Players/BaselinePlayer.py:10-11 | the cards are appended to the hand; nothing else changes |
| Players.BaselinePlayer.ClearRoundData | src/Game/Players/BaselinePlayer.py:13-16 | hand and collected cards are empty and the trick count is 0 |
| Players.BaselinePlayer.SortHand | src/Game/Players/BaselinePlayer.py:22-23 | the hand becomes its stable sort by rank value |
| Players.BaselinePlayer.PopBestCard | src/Game/Players/BaselinePlayer.py:42-43 | returns the best card and leaves the rest of the sorted hand |
| Players.BaselinePlayer.PopWorstCard | src/Game/Players/BaselinePlayer.py:66-67 | returns the worst card and leaves the rest of the sorted hand |
| Players.BaselinePlayer.RemoveCard | src/Game/Players/BaselinePlayer.py:54 | the hand loses its first copy of the card |
| Players.BaselinePlayer.Follow | src/Game/Players/BaselinePlayer.py:46-74 | the follower's play and new hand are those of `FollowPlay` |
| Players.BaselinePlayer.PlayCard | src/Game/Players/BaselinePlayer.py:39-74 | the played card and new hand are those of `PlayCardSpec`; trick count and pile are unchanged |
| GameEngine.Offset | src/Game/Game.py:37 | every seat is reached from the starting seat after some number of steps in 0..3 |
| GameEngine.SeatsAroundTheTable | src/Game/Game.py:36-37 | the step count of the `i`-th seat served is `i` |
| GameEngine.StartingIndex | src/Game/Game.py:19 | the starting index lies in 0..3 |
| GameEngine.StartingSeatMovesOn | src/Game/Game.py:19 | each round is started by the seat after the previous round's starter |
| GameEngine.OutsideMembers | src/Game/Game.py:98-99 | the opponents are exactly the players not in the team |
| GameEngine.DetermineMode | src/Game/Game.py:94-99 | the contract is a redeal iff nobody asked, and solo iff exactly one seat asked; a redeal has no team and no opponents |
| GameEngine.ContractPartition | src/Game/Game.py:94-99 | one asker gives solo and two give team; the team is the askers, and team and opponents split the four seats |
| GameEngine.TeamValue | src/Game/Game.py:107-121 | a team member gains points iff the team took at least 8 tricks, and it always gains or pays at least 2 |
| GameEngine.SoloTotal | src/Game/Game.py:126-133 | the soloist gains iff it took at least 5 tricks, and it always gains or pays at least 6 |
| GameEngine.TrickRates | src/Game/Game.py:107-133 | the team value is 2 at 8 tricks and -3 at 7, the solo total 6 at 5 tricks and -9 at 4; apart from the step across the target, each extra trick adds exactly 1 to the team value and 3 to the solo total |
| GameEngine.ValuesGrowWithTricks | src/Game/Game.py:107-133 | both the team value and the solo total grow strictly with the tricks won |
| GameEngine.SoloTotalDivisible | src/Game/Game.py:130-140 | the solo total is a multiple of 3, so `total / 3` is exact |
| GameEngine.CalculatePoints | src/Game/Game.py:101-142 | gives one score per seat; what each seat scores is stated by `TeamPoints` and `SoloPoints`, and that the scores add up to zero by `PointsZeroSum` |
| GameEngine.TeamPoints | src/Game/Game.py:105-121 | each team member gets the team value of the summed tricks, and each opponent gets its negation |
| GameEngine.SoloPoints | src/Game/Game.py:123-140 | the soloist gets the solo total, and each opponent pays a third of it |
| GameEngine.PointsZeroSum | src/Game/Game.py:101-142 | for any askers the bidding can produce, the points of a round add up to zero |
| GameEngine.AskingSeats | src/Game/Game.py:46-51 | after `i` seats have bid there are at most `i` askers, all seats at the table |
| GameEngine.AskingSeatsMembers | src/Game/Game.py:46-51 | the askers so far are exactly the seats among the first `i` from the starting seat that ask |
| GameEngine.AskingSeatsDistinct | src/Game/Game.py:46-51 | no seat asks twice |
| GameEngine.AskingSeatsPrefix | src/Game/Game.py:46-51 | later askers are appended, and earlier ones stay in order |
| GameEngine.AskingSeatsNext | src/Game/Game.py:47-50 | the next seat is appended iff it asks |
| GameEngine.Askers | src/Game/Game.py:46-51 | the askers are the asking seats in bidding order, cut off after the second; with fewer than two, every asking seat is there |
| GameEngine.BidInTurn | src/Game/Game.py:47-50 | one bid extends the askers so far by the next seat when it asks |
| GameEngine.BiddingStops | src/Game/Game.py:51 | the bidding stops at the second asker |
| GameEngine.AskersProperties | src/Game/Game.py:46-51 | at most two distinct askers, all of whom ask; with fewer than two, every other seat passed |
| GameEngine.BiddingContract | src/Game/Game.py:53-54 | the contract is a redeal iff nobody asked |
| GameEngine.Shuffle | src/Game/Game.py:34 | the shuffled deck keeps the length and the multiset |
| GameEngine.FourPassStart | src/Game/Game.py:35-39 | each pass of the deal starts where the previous one stopped |
| GameEngine.DealtHandsPartition | src/Game/Game.py:35-39 | every seat gets 13 cards, and together they are the first 52 cards of the deck |
| GameEngine.RotatedHands | src/Game/Game.py:36-38 | serving the seats from another start does not change which cards are dealt |
| GameEngine.TrumpCard | src/Game/Game.py:41 | the trump is a card left in the deck when one is left, and otherwise a card of the last hand |
| GameEngine.DealtTrumpCard | src/Game/Game.py:35-42 | after dealing from a deck of at least 52 cards, the trump card is a card of that deck |
| GameEngine.TrumpOfFullDeck | src/Game/Game.py:41-42 | with 52 cards the trump is the card seat 3 was dealt last, which is the deck's last card iff seat 0 starts |
| GameEngine.LastCardDealt | src/Game/Game.py:35-39 | the last card of a 52-card deck goes to the seat three after the starter, as its last card |
| GameEngine.TrickTurns | src/Game/Game.py:66-77 | after `j` turns `j` cards lie on the table, a winner is set once a card is played, and the seats yet to play keep their hands |
| GameEngine.Turn | src/Game/Game.py:67-77 | a turn shortens one hand by one card and adds one card to the trick; the card takes the lead iff it is the lead card or `CanBeat` holds |
| GameEngine.TrickConservation | src/Game/Game.py:66-77 | hands plus trick always hold the cards the hands held before the trick |
| GameEngine.TrickHandSizes | src/Game/Game.py:66-77 | exactly the seats that have played are one card shorter |
| GameEngine.WinningIndex | src/Game/Game.py:75-77 | the winning position lies within the trick |
| GameEngine.WinningCardUnbeaten | src/Game/Game.py:75-77 | no card of the trick beats the winning card |
| GameEngine.TurnKeepsWinner | src/Game/Game.py:75-77 | one more turn keeps the provisional winner equal to the position of the winning card |
| GameEngine.TrickWinner | src/Game/Game.py:62-77 | the trick's winner is the seat that played the card nothing in the trick beats |
| GameEngine.AwardKeepsCards | src/Game/Game.py:79-80 | adding the trick to the winner's pile adds exactly its cards |
| GameEngine.Award | src/Game/Game.py:79-82 | the winner leads next and the hands are unchanged; the winner's trick count grows by one and its pile gains the trick's cards, while the other seats' counts and piles are unchanged |
| GameEngine.TrickPlayed | src/Game/Game.py:62-82 | after a trick every hand has one card fewer |
| GameEngine.TricksPlayed | src/Game/Game.py:60-82 | after `k` tricks every hand has `k` cards fewer |
| GameEngine.TricksPlayedNext | src/Game/Game.py:61-82 | the `(k+1)`-th trick is played on the table the first `k` leave, led by the last winner |
| GameEngine.TrickPlayedKeepsCards | src/Game/Game.py:62-80 | a trick moves cards from hands to a pile and loses none |
| GameEngine.TrickPlayedCounts | src/Game/Game.py:79-80 | a trick adds one to the counts, and the piles keep four cards per trick won |
| GameEngine.TrickCredited | src/Game/Game.py:62-82 | the trick goes to the seat of the winning card: that seat leads next, counts one more trick and gains the four cards played, and every other seat's count and pile are unchanged |
| GameEngine.TricksPlayedKeepCards | src/Game/Game.py:60-82 | any number of tricks keeps every card at the table |
| GameEngine.TricksPlayedCount | src/Game/Game.py:60-82 | `k` tricks add `k` to the counts, and the piles keep four cards per trick won |
| GameEngine.PlayedOut | src/Game/Game.py:60-82 | after all tricks the hands are empty, the counts add up to the tricks played, and the piles hold what the hands held |
| GameEngine.FreshTablePlayedOut | src/Game/Game.py:60-82 | from hands of 13, the counts add up to 13 and the piles hold the 52 dealt cards |
| GameEngine.RoundContract | src/Game/Game.py:41-53 | the contract reached seats its team at the table |
| GameEngine.Round | src/Game/Game.py:32-92 | gives one score per seat; `RoundOutcome` states what the round scores and hands back, and `RoundZeroSum` that it is zero-sum |
| GameEngine.PlayedRound | src/Game/Game.py:60-92 | gives one score per seat; `RoundOutcome` states that it scores the contract on counts adding up to 13 and hands back the 52 dealt cards |
| GameEngine.RoundZeroSum | src/Game/Game.py:32-92 | the points of a round add up to zero |
| GameEngine.RoundOutcome | src/Game/Game.py:53-92 | a redeal scores 0 and hands back the undealt cards; a played round hands back the 52 dealt cards and scores the contract on counts adding up to 13 |
| GameEngine.RedealEmptiesDeck | src/Game/Game.py:54-57 | with a 52-card deck a redeal hands back no cards, and the next cut has nothing to cut |
| GameEngine.ReassembleDeck | src/Game/Game.py:144-147 | card `i` of the new deck is card `(i + cut) mod n`, with the same multiset; fewer than 2 cards is the `ValueError` path |
| GameEngine.CutPoint | src/Game/Game.py:146 | the drawn cut lies in `1..n-1` |
| GameEngine.NextDeck | src/Game/Game.py:26 | the next deck is missing iff fewer than 2 cards came back, and otherwise holds the same cards |
| GameEngine.AddPoints | src/Game/Game.py:22-23 | each seat's total grows by its round points, and the sum by the round's sum |
| GameEngine.OverallWinner | src/Game/Game.py:29 | the winner has the highest total, and is the first seat that has it |
| GameEngine.MatchOver | src/Game/Game.py:17 | the match is over iff the highest score, that of the overall winner, has reached the target |
| GameEngine.Game.constructor | src/Game/Game.py:7-11 | four fresh players "Player 1".."Player 4" with clear round data, totals 0 and target 9 |
| GameEngine.Game.Give | src/Game/Game.py:38 | one seat's hand grows by the cards; nothing else changes |
| GameEngine.Game.ClearSeat | src/Game/Game.py:56 | one seat's round data is cleared; nothing else changes |
| GameEngine.Game.ServeSeat | src/Game/Game.py:37-39 | one seat is served its slice of the pass, and the rest of the deck moves on |
| GameEngine.Game.DealPass | src/Game/Game.py:36-39 | a pass gives every seat its slice in serving order and leaves the deck after the pass |
| GameEngine.Game.Deal | src/Game/Game.py:35-39 | the seats' hands are extended by their dealt hands, and the deck after card 52 is left |
| GameEngine.Game.Bidding | src/Game/Game.py:46-51 | the askers are those of the bidding function on the seats' hands |
| GameEngine.Game.PlayFromSeat | src/Game/Game.py:69-72 | one seat plays by its policy; other seats are unchanged |
| GameEngine.Game.PlayTurn | src/Game/Game.py:66-77 | hands, trick, provisional winner card and winner seat become those of `Turn` |
| GameEngine.Game.TrickStep | src/Game/Game.py:66-77 | one iteration of the turn loop advances the state of `TrickTurns` by one turn |
| GameEngine.Game.PlayTrick | src/Game/Game.py:62-77 | the four turns leave hands, trick and winner as `TrickTurns` says |
| GameEngine.Game.AwardTrick | src/Game/Game.py:79-80 | the winner's count and pile are those of `Award` |
| GameEngine.Game.TrickOfTheRound | src/Game/Game.py:62-82 | one trick leaves the table as `TrickPlayed` says, and the winner leads next |
| GameEngine.Game.NextTrick | src/Game/Game.py:61-82 | one iteration of the trick loop advances the table from `k` to `k+1` tricks played |
| GameEngine.Game.PlayTricks | src/Game/Game.py:60-82 | the 13 tricks leave hands, counts and piles as `TricksPlayed` says |
| GameEngine.Game.CollectAll | src/Game/Game.py:87-92 | the collected deck is the piles in seat order, and every seat is cleared |
| GameEngine.Game.ClearAll | src/Game/Game.py:56 | every seat is cleared |
| GameEngine.Game.Prepare | src/Game/Game.py:35-53 | deals the hands, picks the trump and reaches the contract of the round function |
| GameEngine.Game.PlayOut | src/Game/Game.py:60-92 | plays, scores and collects exactly as `PlayedRound` says, leaving the seats cleared |
| GameEngine.Game.PlayRound | src/Game/Game.py:32-92 | the points and handed-back cards are those of `Round` on the shuffled deck, and the seats end cleared |
| GameEngine.Game.AddScore | src/Game/Game.py:22-23 | the match totals grow by the round points |
| GameEngine.Game.PlayMatchRound | src/Game/Game.py:17-27 | one pass of `run`: the round of the starting index, totals updated with their sum unchanged, and the next deck cut from the cards handed back |

## Left out

- Printing is not modelled, nor the seeding of the random generator.
- Loading the deck from JSON (`DeckLoader`, `loaddeck.py`, `loading_deck`) is not modelled. The deck is a parameter.
- `initial_deck` and the nine-round `game()` driver of `normalgame.py` are not modelled. They only chain shuffle, cut, round and reassembly, which are modelled one by one.
- Randomness is left out. Shuffles are arbitrary permutations and cuts are arbitrary points in `1..n-1`. Nothing is claimed about uniformity.
- Termination of the `while` loop of `run` is not modelled, because it depends on the random play. `MatchOver` states the loop condition, `PlayMatchRound` one iteration, and `OverallWinner` the final choice.
- `total / 3` in solo scoring is a float division in the source. The model uses exact integer division; `SoloTotalDivisible` shows that nothing is lost.
- Players are seats 0..3 rather than objects keyed by name. The names are distinct, so the dictionaries of the source are sequences by seat.
- `random.shuffle(deck)` in `play_round` shuffles the caller's list in place. The model returns the shuffled deck and leaves the caller's deck alone.
- Players.PlayCardSpec: requires a non-empty hand. The source raises `IndexError` popping from an empty hand, and play never reaches that.
- GameEngine.Game.PlayRound: requires at least 52 cards and players with cleared round data. With fewer cards the source deals short hands and the trick loop fails, and `run` always clears the seats between rounds.
- NormalGame.ReassembleDeck: requires a cut in `1..n-1` and a stack permutation, standing for the two random draws. Fewer than two cards would make `randint` raise `ValueError`.
- NormalGame.GetRoundWinner: requires a non-empty play order, as Python's `player_order[-1]` would otherwise raise `IndexError`.
- NormalGame.PlayGameRound: requires at least 52 cards, so that every trick can be played from non-empty hands.
- Card conservation across a redeal is not claimed, because the source does not keep the cards there. See `RedealEmptiesDeck`.
