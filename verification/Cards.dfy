/** Fractional card positions: where `TaskStore.move` puts a card and when it renumbers the stage. */
module Cards {
  import opened Ranking

  const STEP: real := 1000.0
  const MIN_GAP: real := 0.001

  /** `findIndex`: the place of `x` in the listing, or -1. */
  function IndexOf(o: seq<nat>, x: nat): (i: int)
    ensures -1 <= i < |o|
    ensures i < 0 <==> x !in o
    ensures 0 <= i ==> o[i] == x && x !in o[..i]
  {
    if o == [] then -1
    else if o[0] == x then 0
    else
      var rest := IndexOf(o[1..], x);
      if rest < 0 then -1 else rest + 1
  }

  /** The position given to a card that goes before the sibling at index `before`, or last. */
  function NextPosition(siblings: seq<nat>, pos: map<nat, real>, before: int): real
    requires -1 <= before < |siblings|
    requires forall x | x in siblings :: x in pos
  {
    if before < 0 then
      if siblings == [] then STEP else pos[siblings[|siblings| - 1]] + STEP
    else if before == 0 then pos[siblings[0]] - STEP
    else (pos[siblings[before - 1]] + pos[siblings[before]]) / 2.0
  }

  /** Before the sibling at that index, or last. */
  function Slot(o: seq<nat>, before: int): nat
    requires -1 <= before < |o|
  {
    if before < 0 then |o| else before
  }

  function InsertAt(siblings: seq<nat>, before: int, card: nat): seq<nat>
    requires -1 <= before < |siblings|
  {
    var k := Slot(siblings, before);
    siblings[..k] + [card] + siblings[k..]
  }

  /** There is room between the two neighbours: their positions differ, or the card's own
      number happens to fall between theirs. */
  predicate RoomBetween(siblings: seq<nat>, pos: map<nat, real>, before: int, card: nat)
    requires -1 <= before < |siblings|
    requires forall x | x in siblings :: x in pos
  {
    before <= 0
    || pos[siblings[before - 1]] < pos[siblings[before]]
    || siblings[before - 1] < card < siblings[before]
  }

  ghost predicate Fits(o: seq<nat>, pos: map<nat, real>, k: nat, card: nat)
    requires (forall x | x in o :: x in pos) && card in pos && k <= |o|
  {
    (0 < k ==> Before(pos, o[k - 1], card)) && (k < |o| ==> Before(pos, card, o[k]))
  }

  /** The new position separates the two neighbours exactly when there is room. */
  lemma FitsIffRoom(o: seq<nat>, pos: map<nat, real>, before: int, card: nat)
    requires forall x | x in o :: x in pos
    requires Sorted(o, pos) && card !in o
    requires -1 <= before < |o|
    ensures Fits(o, pos[card := NextPosition(o, pos, before)], Slot(o, before), card) <==> RoomBetween(o, pos, before, card)
  {
    if 0 < before { assert Before(pos, o[before - 1], o[before]); }
  }

  /** A row that fits between its new neighbours keeps the listing sorted. */
  lemma InsertedSorted(o: seq<nat>, pos: map<nat, real>, k: nat, card: nat)
    requires (forall x | x in o :: x in pos) && card in pos
    requires Sorted(o, pos) && card !in o && k <= |o|
    requires 0 < k ==> Before(pos, o[k - 1], card)
    requires k < |o| ==> Before(pos, card, o[k])
    ensures Sorted(o[..k] + [card] + o[k..], pos)
  {
    var placed := o[..k] + [card] + o[k..];
    forall i, j | 0 <= i < j < |placed| ensures Before(pos, placed[i], placed[j]) {
      var a, b := if i < k then i else i - 1, if j < k then j else j - 1;
      if i == k {
        if b != k { assert Before(pos, o[k], o[b]); }
      } else if j == k {
        if a != k - 1 { assert Before(pos, o[a], o[k - 1]); }
      } else {
        assert Before(pos, o[a], o[b]);
      }
    }
  }

  lemma PlacedElements(o: seq<nat>, k: nat, card: nat)
    requires k <= |o|
    ensures Elements(o[..k] + [card] + o[k..]) == Elements(o) + {card}
  {
    var placed := o[..k] + [card] + o[k..];
    forall x ensures x in Elements(placed) <==> x in Elements(o) + {card} {
      assert o == o[..k] + o[k..];
      assert x in placed <==> x in o[..k] || x == card || x in o[k..];
    }
  }

  lemma FittingIsPlaced(S: set<nat>, o: seq<nat>, pos: map<nat, real>, k: nat, card: nat)
    requires S <= pos.Keys && card in pos && card !in S && k <= |o|
    requires Elements(o) == S && Sorted(o, pos) && Fits(o, pos, k, card)
    ensures Ordered(S + {card}, pos) == o[..k] + [card] + o[k..]
  {
    InsertedSorted(o, pos, k, card);
    PlacedElements(o, k, card);
    OrderedUnique(o[..k] + [card] + o[k..], S + {card}, pos);
  }

  lemma PlacedIsFitting(o: seq<nat>, pos: map<nat, real>, k: nat, card: nat)
    requires (forall x | x in o :: x in pos) && card in pos && k <= |o|
    requires forall x | x in o[..k] + [card] + o[k..] :: x in pos
    requires Sorted(o[..k] + [card] + o[k..], pos)
    ensures Fits(o, pos, k, card)
  {
    var placed := o[..k] + [card] + o[k..];
    assert placed[k] == card;
    if 0 < k { assert placed[k - 1] == o[k - 1] && Before(pos, placed[k - 1], placed[k]); }
    if k < |o| { assert placed[k + 1] == o[k] && Before(pos, placed[k], placed[k + 1]); }
  }

  lemma PlacedIffFits(S: set<nat>, pos: map<nat, real>, k: nat, card: nat)
    requires S <= pos.Keys && card in pos && card !in S && k <= |S|
    ensures var o := Ordered(S, pos);
            Ordered(S + {card}, pos) == o[..k] + [card] + o[k..] <==> Fits(o, pos, k, card)
  {
    var o := Ordered(S, pos);
    assert Elements(o) == S;
    if Fits(o, pos, k, card) {
      FittingIsPlaced(S, o, pos, k, card);
    }
    var all := Ordered(S + {card}, pos);
    if all == o[..k] + [card] + o[k..] {
      PlacedIsFitting(o, pos, k, card);
    }
  }

  /** A moved card lands exactly where it was dropped if and only if there is room there. */
  lemma PlacedExactlyIffRoom(S: set<nat>, pos: map<nat, real>, before: int, card: nat)
    requires S <= pos.Keys && card !in S
    requires -1 <= before < |S|
    ensures var o := Ordered(S, pos);
            Ordered(S + {card}, pos[card := NextPosition(o, pos, before)]) == InsertAt(o, before, card)
            <==> RoomBetween(o, pos, before, card)
  {
    var o := Ordered(S, pos);
    var pos' := pos[card := NextPosition(o, pos, before)];
    FitsIffRoom(o, pos, before, card);
    AgreeingListing(S, pos, pos');
    PlacedIffFits(S, pos', Slot(o, before), card);
  }

  lemma AgreeingListing(S: set<nat>, pos: map<nat, real>, pos': map<nat, real>)
    requires S <= pos.Keys && S <= pos'.Keys
    requires forall x | x in S :: pos[x] == pos'[x]
    ensures Ordered(S, pos) == Ordered(S, pos')
  {
    SameOrderSameListing(S, pos, pos');
  }

  // ----- renumbering -----

  predicate Crowded(o: seq<nat>, pos: map<nat, real>)
    requires forall x | x in o :: x in pos
  {
    exists i | 0 < i < |o| :: pos[o[i]] - pos[o[i - 1]] < MIN_GAP
  }

  function Renumbered(o: seq<nat>): (m: map<nat, real>)
    ensures forall x :: x in m <==> x in o
  {
    map x | x in o :: (IndexOf(o, x) + 1) as real * STEP
  }

  function WithRenumbered(o: seq<nat>, pos: map<nat, real>): (pos': map<nat, real>)
    requires forall x | x in o :: x in pos
    ensures pos'.Keys == pos.Keys
    ensures forall x | x in pos :: pos'[x] == if x in o then (IndexOf(o, x) + 1) as real * STEP else pos[x]
  {
    pos + Renumbered(o)
  }

  /** The stage's positions after the crowding check: unchanged, or renumbered 1000, 2000, ... */
  function Settle(S: set<nat>, pos: map<nat, real>): (pos': map<nat, real>)
    requires S <= pos.Keys
    ensures pos'.Keys == pos.Keys
    ensures forall x | x in pos && x !in S :: pos'[x] == pos[x]
  {
    var o := Ordered(S, pos);
    if Crowded(o, pos) then WithRenumbered(o, pos) else pos
  }

  predicate WellSpaced(S: set<nat>, pos: map<nat, real>)
    requires S <= pos.Keys
  {
    forall a, b | a in S && b in S && Before(pos, a, b) :: pos[b] - pos[a] >= MIN_GAP
  }

  lemma RenumberingKeepsOrder(o: seq<nat>, pos: map<nat, real>, a: nat, b: nat)
    requires (forall x | x in o :: x in pos) && Sorted(o, pos) && a in o && b in o
    ensures Before(pos, a, b) <==> Before(WithRenumbered(o, pos), a, b)
  {
    var i, j := IndexOf(o, a), IndexOf(o, b);
    if i < j {
      assert Before(pos, o[i], o[j]);
    } else if j < i {
      assert Before(pos, o[j], o[i]);
    }
  }

  /** Renumbering never changes the order of two cards of the stage. */
  lemma SettleKeepsOrder(S: set<nat>, pos: map<nat, real>)
    requires S <= pos.Keys
    ensures SameOrder(S, pos, Settle(S, pos))
  {
    var o := Ordered(S, pos);
    if Crowded(o, pos) {
      forall a, b | a in S && b in S ensures Before(pos, a, b) <==> Before(WithRenumbered(o, pos), a, b) {
        RenumberingKeepsOrder(o, pos, a, b);
      }
    }
  }

  lemma {:induction false} SpacedFromGaps(o: seq<nat>, pos: map<nat, real>, i: nat, j: nat)
    requires forall x | x in o :: x in pos
    requires !Crowded(o, pos) && i < j < |o|
    ensures pos[o[j]] - pos[o[i]] >= MIN_GAP
    decreases j
  {
    assert pos[o[j]] - pos[o[j - 1]] >= MIN_GAP;
    if i < j - 1 { SpacedFromGaps(o, pos, i, j - 1); }
  }

  lemma RenumberedSpaces(o: seq<nat>, pos: map<nat, real>)
    requires forall x | x in o :: x in pos
    ensures WellSpaced(Elements(o), WithRenumbered(o, pos))
  {
    var pos' := WithRenumbered(o, pos);
    forall a, b | a in o && b in o && Before(pos', a, b) ensures pos'[b] - pos'[a] >= MIN_GAP {
      var i, j := IndexOf(o, a), IndexOf(o, b);
      assert pos'[a] == (i + 1) as real * STEP && pos'[b] == (j + 1) as real * STEP;
      assert i == j ==> a == b;
    }
  }

  lemma UncrowdedSpaces(o: seq<nat>, pos: map<nat, real>)
    requires (forall x | x in o :: x in pos) && Sorted(o, pos) && !Crowded(o, pos)
    ensures WellSpaced(Elements(o), pos)
  {
    forall a, b | a in o && b in o && Before(pos, a, b) ensures pos[b] - pos[a] >= MIN_GAP {
      SpacedFromGaps(o, pos, IndexOf(o, a), IndexOf(o, b));
    }
  }

  /** Whatever collisions there were, the stage ends with every gap at least 0.001. */
  lemma SettleSpaces(S: set<nat>, pos: map<nat, real>)
    requires S <= pos.Keys
    ensures WellSpaced(S, Settle(S, pos))
  {
    var o := Ordered(S, pos);
    assert Elements(o) == S;
    if Crowded(o, pos) { RenumberedSpaces(o, pos); } else { UncrowdedSpaces(o, pos); }
  }

  lemma PlaceInListing(S: set<nat>, pos: map<nat, real>, i: nat)
    requires S <= pos.Keys && i < |S|
    ensures IndexOf(Ordered(S, pos), Ordered(S, pos)[i]) == i
  {
    var o := Ordered(S, pos);
    OrderedDistinct(S, pos, IndexOf(o, o[i]), i);
  }

  /** If two neighbours are closer than 0.001 the cards get 1000, 2000, 3000 and so on, in their order; otherwise nothing
      changes. */
  ghost predicate Settled(S: set<nat>, pos: map<nat, real>, pos': map<nat, real>)
    requires S <= pos.Keys
  {
    var o := Ordered(S, pos);
    if exists i :: 0 < i < |o| && pos[o[i]] - pos[o[i - 1]] < 0.001 then
      && pos'.Keys == pos.Keys && (forall i | 0 <= i < |o| :: pos'[o[i]] == 1000.0 * (i + 1) as real)
      && forall x | x in pos && x !in S :: pos'[x] == pos[x]
    else pos' == pos
  }

  lemma SettleOutcome(S: set<nat>, pos: map<nat, real>)
    requires S <= pos.Keys
    ensures Settled(S, pos, Settle(S, pos))
  {
    var o := Ordered(S, pos);
    if Crowded(o, pos) {
      forall i | 0 <= i < |o| ensures WithRenumbered(o, pos)[o[i]] == 1000.0 * (i + 1) as real { PlaceInListing(S, pos, i); }
    }
  }

  /** Settling a stage leaves the listing of every part of it alone. */
  lemma SettleKeepsListings(S: set<nat>, T: set<nat>, pos: map<nat, real>)
    requires T <= S <= pos.Keys
    ensures Ordered(T, Settle(S, pos)) == Ordered(T, pos)
  {
    SettleKeepsOrder(S, pos);
    SameOrderSameListing(T, pos, Settle(S, pos));
  }

  /** In a well-spaced stage there is always room. */
  lemma SpacedHasRoom(S: set<nat>, pos: map<nat, real>, before: int, card: nat)
    requires S <= pos.Keys && WellSpaced(S, pos) && -1 <= before < |S|
    ensures RoomBetween(Ordered(S, pos), pos, before, card)
  {
    var o := Ordered(S, pos);
    if 0 < before { assert Before(pos, o[before - 1], o[before]); }
  }
}
