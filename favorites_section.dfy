/** The favorites panel of the client: the list of card ids selected for
    comparison, the bounds of the compare action, and the headline feature
    shown on each favorite card. */
module FavoritesSection {
  import opened Text
  import opened Schema
  import opened Sorting
  import opened SeedCatalog

  // ---------------------------------------------------------------------------
  // Selection
  // ---------------------------------------------------------------------------

  /** `ids.filter(x => x !== id)`: every occurrence of `id` dropped, the
      other ids kept in their order. */
  function Without(ids: seq<int>, id: int): (r: seq<int>)
    ensures id !in r
    ensures forall x :: x != id ==> multiset(r)[x] == multiset(ids)[x]
    ensures forall x :: x in r <==> x in ids && x != id
  {
    Filter(ids, (x: int) => x != id)
  }

  /** Dropping an id that is not there changes nothing. */
  lemma WithoutAbsent(ids: seq<int>, id: int)
    requires id !in ids
    ensures Without(ids, id) == ids
  {
    FilterKeepsAll(ids, (x: int) => x != id);
  }

  /** Dropping works piece by piece, so the order of what remains is kept. */
  lemma WithoutConcat(a: seq<int>, b: seq<int>, id: int)
    ensures Without(a + b, id) == Without(a, id) + Without(b, id)
  {
    FilterConcat(a, b, (x: int) => x != id);
  }

  /** Checking a card and unchecking it again leaves the other selections as
      they were, in order. */
  lemma CheckThenUncheck(ids: seq<int>, id: int)
    ensures Without(ids + [id], id) == Without(ids, id)
    ensures id !in ids ==> Without(ids + [id], id) == ids
  {
    WithoutConcat(ids, [id], id);
    assert Without([id], id) == [];
    assert Without(ids, id) + [] == Without(ids, id);
    if id !in ids {
      WithoutAbsent(ids, id);
    }
  }

  // ---------------------------------------------------------------------------
  // Comparing
  // ---------------------------------------------------------------------------

  /** What pressing "Compare Selected" does. */
  datatype CompareOutcome = SelectionRequired | TooManyCards | ComingSoon(count: nat)

  /** `handleCompareSelected`: fewer than two or more than four selections
      are refused. */
  function CompareSelected(selected: seq<int>): (outcome: CompareOutcome)
    ensures outcome == SelectionRequired <==> |selected| < 2
    ensures outcome == TooManyCards <==> |selected| > 4
    ensures outcome.ComingSoon? <==> 2 <= |selected| <= 4
    ensures outcome.ComingSoon? ==> outcome.count == |selected|
  {
    if |selected| < 2 then SelectionRequired
    else if |selected| > 4 then TooManyCards
    else ComingSoon(|selected|)
  }

  /** The compare button is disabled with fewer than two selections. */
  predicate CompareDisabled(selected: seq<int>) {
    |selected| < 2
  }

  /** A press through an enabled button never asks for more selections. */
  lemma EnabledCompareNeverAsksForMore(selected: seq<int>)
    ensures CompareDisabled(selected) <==> CompareSelected(selected) == SelectionRequired
  {
  }

  /** A card's checkbox is ticked exactly when its id is selected. */
  predicate IsSelected(selected: seq<int>, cardId: int) {
    cardId in selected
  }

  class FavoritesPanel {
    var selectedCards: seq<int>

    constructor ()
      ensures selectedCards == []
    {
      selectedCards := [];
    }

    /** `handleCardSelect`: checking appends the id, unchecking drops every
        occurrence of it. */
    method CardSelect(cardId: int, checked: bool)
      modifies this
      ensures checked ==> selectedCards == old(selectedCards) + [cardId]
      ensures !checked ==> selectedCards == Without(old(selectedCards), cardId)
      ensures IsSelected(selectedCards, cardId) <==> checked
      ensures forall other :: other != cardId ==> (IsSelected(selectedCards, other) <==> IsSelected(old(selectedCards), other))
    {
      if checked {
        selectedCards := selectedCards + [cardId];
      } else {
        selectedCards := Without(selectedCards, cardId);
      }
    }

    /** The selection part of `handleRemoveFromFavorites`: the removed card is
        no longer selected. The delete request itself goes to the server. */
    method RemoveFromFavorites(cardId: int)
      modifies this
      ensures selectedCards == Without(old(selectedCards), cardId)
      ensures !IsSelected(selectedCards, cardId)
      ensures cardId !in old(selectedCards) ==> selectedCards == old(selectedCards)
    {
      if cardId !in selectedCards {
        WithoutAbsent(selectedCards, cardId);
      }
      selectedCards := Without(selectedCards, cardId);
    }

    /** The compare action reads the selection and changes nothing. */
    method Compare() returns (outcome: CompareOutcome)
      ensures outcome == CompareSelected(selectedCards)
    {
      outcome := CompareSelected(selectedCards);
    }
  }

  // ---------------------------------------------------------------------------
  // Headline feature
  // ---------------------------------------------------------------------------

  const TravelFeature := "Travel & Miles"
  const CashbackFeature := "Cashback"
  const ZeroFeeFeature := "Zero Annual Fee"

  /** `rewardRate.split(',')[0] || rewardRate`. */
  function LeadingRate(rewardRate: string): (r: string)
    ensures r == rewardRate || r == BeforeFirstComma(rewardRate)
    ensures r == "" ==> rewardRate == ""
    ensures rewardRate != "" && rewardRate[0] != ',' ==>
              && r == rewardRate[..|r|] && |r| > 0 && ',' !in r
              && (|r| < |rewardRate| ==> rewardRate[|r|] == ',')
    ensures rewardRate != "" && rewardRate[0] == ',' ==> r == rewardRate
  {
    var head := BeforeFirstComma(rewardRate);
    if head != "" then head else rewardRate
  }

  /** `getBestFeature`. As in the reason text, the card type is compared
      exactly and the fee with the text "0"; since a decimal fee never
      arrives as "0", every other card type shows itself, capitalised. */
  function BestFeature(card: CreditCard): (feature: string)
    ensures card.cardType !in {"dining", "travel", "cashback"} ==> feature == Capitalize(card.cardType)
    ensures card.cardType == "dining" ==> feature == "Dining (" + LeadingRate(card.rewardRate) + ")"
    ensures card.cardType == "travel" ==> feature == TravelFeature
    ensures card.cardType == "cashback" ==> feature == CashbackFeature
  {
    DecimalTextNeverBareZero(card.annualFee);
    if card.cardType == "dining" then "Dining (" + LeadingRate(card.rewardRate) + ")"
    else if card.cardType == "travel" then TravelFeature
    else if card.cardType == "cashback" then CashbackFeature
    else if DecimalText(card.annualFee) == "0" then ZeroFeeFeature
    else Capitalize(card.cardType)
  }

  /** A word that already starts with a capital is its own capitalisation. */
  lemma CapitalizeCapitalised(s: string)
    requires |s| > 0 && IsUpper(s[0])
    ensures Capitalize(s) == s
  {
    assert Capitalize(s) == [s[0]] + s[1..];
  }

  /** Every seeded card shows its own card type as the headline feature. */
  lemma SeededCardsShowTheirType(card: CreditCard, i: nat, id: nat, now: int)
    requires i < |SeedCards| && card == Stored(SeedCards[i], id, now)
    ensures BestFeature(card) == card.cardType
  {
    SeedCardTypesListed();
    var t := card.cardType;
    assert t in SeedCardTypes;
    assert |t| > 0 && IsUpper(t[0]);
    assert t != "dining" && t != "travel" && t != "cashback" by {
      assert "dining"[0] == 'd' && "travel"[0] == 't' && "cashback"[0] == 'c';
    }
    CapitalizeCapitalised(t);
  }
}
