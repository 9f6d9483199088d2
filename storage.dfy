/** The catalog and favorites store over in-memory tables: the recommendation
    ranker, the filtered and paged catalog listing, lookup by id, the one-time
    seeding of the catalog and the favorites insert, delete, exists and join.
    Queries are functions of a snapshot of the tables; the operations that
    change the tables are methods of `Storage`. */
module Storage {
  import opened Wrappers
  import opened Text
  import opened Sorting
  import opened Schema
  import opened SeedCatalog

  // ---------------------------------------------------------------------------
  // Recommendation ranker
  // ---------------------------------------------------------------------------

  /** The two keys of the `preferences` object that the ranker reads. */
  datatype Preferences = Preferences(monthlyIncome: Option<string>, creditScore: Option<string>)

  /** JavaScript truthiness of an optional string: present and not "". */
  predicate Truthy(v: Option<string>) {
    v.Some? && v.value != ""
  }

  /** The income the ranker filters by, in whole rupees. A missing or empty
      value stays 0; an unparseable one gives NaN, which fails `income > 0`
      exactly as 0 does, so it is 0 here too. */
  function IncomeOf(p: Preferences): (income: nat)
    ensures !Truthy(p.monthlyIncome) ==> income == 0
    ensures Truthy(p.monthlyIncome) && ParseInt(p.monthlyIncome.value).Some? ==>
              income == ParseInt(p.monthlyIncome.value).value
  {
    if Truthy(p.monthlyIncome) then ParseInt(p.monthlyIncome.value).GetOr(0) else 0
  }

  /** The card's thresholds, a NULL column counting as 0. */
  function MinIncomeOf(c: CreditCard): int {
    c.minIncome.GetOr(0)
  }

  function MinScoreOf(c: CreditCard): int {
    c.minCreditScore.GetOr(0)
  }

  /** The card's income threshold (hundredths) is at most `income` rupees. */
  predicate IncomeAllows(c: CreditCard, income: nat) {
    MinIncomeOf(c) <= income * 100
  }

  /** The card's score threshold is at most the user's score; a score that did
      not parse is NaN, against which every comparison is false. */
  predicate ScoreAllows(c: CreditCard, score: Option<nat>) {
    score.Some? && MinScoreOf(c) <= score.value
  }

  /** Ascending annual fee. */
  predicate FeeLe(a: CreditCard, b: CreditCard) {
    a.annualFee <= b.annualFee
  }

  lemma FeeLeTotalPreorder()
    ensures TotalPreorder(FeeLe)
  {
  }

  /** The rows with `is_active = true`. */
  function ActiveCards(table: seq<CreditCard>): (r: seq<CreditCard>)
    ensures forall c :: c in r <==> c in table && c.isActive
  {
    Filter(table, (c: CreditCard) => c.isActive)
  }

  /** The cards that pass the income filter (only when the income is positive)
      and the score filter (only when a score is given). */
  predicate Eligible(c: CreditCard, p: Preferences) {
    && c.isActive
    && (IncomeOf(p) > 0 ==> IncomeAllows(c, IncomeOf(p)))
    && (Truthy(p.creditScore) ==> ScoreAllows(c, ParseInt(p.creditScore.value)))
  }

  /** The active cards after the two threshold filters, in table order. */
  function EligibleCards(table: seq<CreditCard>, p: Preferences): (r: seq<CreditCard>)
    ensures forall c :: c in r <==> c in table && Eligible(c, p)
  {
    var income := IncomeOf(p);
    var active := ActiveCards(table);
    var byIncome := if income > 0 then Filter(active, (c: CreditCard) => IncomeAllows(c, income)) else active;
    if Truthy(p.creditScore) then
      var score := ParseInt(p.creditScore.value);
      Filter(byIncome, (c: CreditCard) => ScoreAllows(c, score))
    else byIncome
  }

  /** The primary path of `getRecommendations`: eligible cards, cheapest first,
      at most five. */
  function RecommendedCards(table: seq<CreditCard>, p: Preferences): (r: seq<CreditCard>)
    ensures |r| <= 5
    ensures |r| == if |EligibleCards(table, p)| < 5 then |EligibleCards(table, p)| else 5
    ensures forall c :: c in r ==> c in table && c.isActive
    ensures multiset(r) <= multiset(EligibleCards(table, p))
  {
    var sorted := SortBy(EligibleCards(table, p), FeeLe);
    var r := Take(sorted, 5);
    assert forall c :: c in r ==> c in table && Eligible(c, p) by {
      forall c | c in r ensures c in table && Eligible(c, p) {
        assert c in multiset(sorted);
      }
    }
    r
  }

  /** Every recommendation passes the thresholds the preferences impose. */
  lemma RecommendationsMeetThresholds(table: seq<CreditCard>, p: Preferences)
    ensures forall c :: c in RecommendedCards(table, p) ==> Eligible(c, p)
  {
    var sorted := SortBy(EligibleCards(table, p), FeeLe);
    forall c | c in RecommendedCards(table, p) ensures Eligible(c, p) {
      assert c in multiset(sorted);
    }
  }

  /** An income of 0, including the text "0", applies no income filter: the
      result is the one for preferences without an income. */
  lemma ZeroIncomeSkipsIncomeFilter(table: seq<CreditCard>, p: Preferences)
    requires IncomeOf(p) == 0
    ensures RecommendedCards(table, p) == RecommendedCards(table, p.(monthlyIncome := None))
    ensures IncomeOf(Preferences(Some("0"), p.creditScore)) == 0
  {
    assert ParseInt("0") == Some(0);
  }

  /** A score given as text that does not parse rules out every card. */
  lemma UnparseableScoreRejectsAll(table: seq<CreditCard>, p: Preferences)
    requires Truthy(p.creditScore) && ParseInt(p.creditScore.value).None?
    ensures RecommendedCards(table, p) == []
  {
  }

  /** The recommendations are in ascending order of annual fee. */
  lemma RecommendationsByFee(table: seq<CreditCard>, p: Preferences)
    ensures SortedBy(RecommendedCards(table, p), FeeLe)
  {
    var sorted := SortBy(EligibleCards(table, p), FeeLe);
    FeeLeTotalPreorder();
    SortBySorted(EligibleCards(table, p), FeeLe);
  }

  /** No cheaper eligible card is skipped: an eligible card left out of the
      recommendations means five were returned, none dearer than it. */
  lemma RecommendationsCheapest(table: seq<CreditCard>, p: Preferences, c: CreditCard)
    requires c in table && Eligible(c, p)
    requires c !in RecommendedCards(table, p)
    ensures |RecommendedCards(table, p)| == 5
    ensures forall x :: x in RecommendedCards(table, p) ==> x.annualFee <= c.annualFee
  {
    var eligible := EligibleCards(table, p);
    var sorted := SortBy(eligible, FeeLe);
    assert c in multiset(eligible);
    assert c in sorted;
    FeeLeTotalPreorder();
    SortBySorted(eligible, FeeLe);
    TakeSkipsOnlyLater(sorted, FeeLe, 5, c);
  }

  /** The fallback after a failed query: the first five active rows. */
  function FallbackRecommendations(table: seq<CreditCard>): (r: seq<CreditCard>)
    ensures |r| <= 5
    ensures forall c :: c in r ==> c in table && c.isActive
  {
    Take(ActiveCards(table), 5)
  }

  // ---------------------------------------------------------------------------
  // Catalog listing
  // ---------------------------------------------------------------------------

  /** The optional filters of `getCards`; "" stands for an absent one, both
      being falsy. */
  datatype CardFilters = CardFilters(search: string, issuer: string, cardType: string, sortBy: string)

  /** `ilike '%search%'` on name or issuer, read as a case-insensitive
      substring test; an empty search adds no condition. */
  predicate MatchesSearch(c: CreditCard, search: string) {
    search == "" || Contains(ToLower(c.name), ToLower(search)) || Contains(ToLower(c.issuer), ToLower(search))
  }

  predicate MatchesIssuer(c: CreditCard, issuer: string) {
    issuer == "" || issuer == "All Issuers" || c.issuer == issuer
  }

  predicate MatchesCardType(c: CreditCard, cardType: string) {
    cardType == "" || cardType == "All Types" || c.cardType == cardType
  }

  predicate MatchesFilters(c: CreditCard, f: CardFilters) {
    c.isActive && MatchesSearch(c, f.search) && MatchesIssuer(c, f.issuer) && MatchesCardType(c, f.cardType)
  }

  /** The three orders of the listing. */
  datatype SortOrder = LowestAnnualFee | HighestCashback | Newest

  /** The `switch` on `sortBy`: two exact labels, everything else newest first. */
  function SortOrderOf(sortBy: string): (o: SortOrder)
    ensures o == LowestAnnualFee <==> sortBy == "Lowest Annual Fee"
    ensures o == HighestCashback <==> sortBy == "Highest Cashback"
  {
    if sortBy == "Lowest Annual Fee" then LowestAnnualFee
    else if sortBy == "Highest Cashback" then HighestCashback
    else Newest
  }

  /** "Comes no later than" for each order: fee ascending, reward rate
      descending as text, creation time descending. */
  function Precedes(o: SortOrder): (CreditCard, CreditCard) -> bool {
    match o
    case LowestAnnualFee => FeeLe
    case HighestCashback => (a: CreditCard, b: CreditCard) => StrLe(b.rewardRate, a.rewardRate)
    case Newest => (a: CreditCard, b: CreditCard) => b.createdAt <= a.createdAt
  }

  lemma PrecedesTotalPreorder(o: SortOrder)
    ensures TotalPreorder(Precedes(o))
  {
    if o == HighestCashback {
      forall a: CreditCard, b: CreditCard ensures Precedes(o)(a, b) || Precedes(o)(b, a) {
        StrLeTotal(a.rewardRate, b.rewardRate);
      }
      forall a: CreditCard, b: CreditCard, c: CreditCard | Precedes(o)(a, b) && Precedes(o)(b, c)
        ensures Precedes(o)(a, c)
      {
        StrLeTransitive(c.rewardRate, b.rewardRate, a.rewardRate);
      }
    }
  }

  /** The rows that satisfy every condition, in table order. */
  function MatchingCards(table: seq<CreditCard>, f: CardFilters): (r: seq<CreditCard>)
    ensures forall c :: c in r <==> c in table && MatchesFilters(c, f)
  {
    Filter(table, (c: CreditCard) => MatchesFilters(c, f))
  }

  /** The matching rows in the requested order. */
  function OrderedMatches(table: seq<CreditCard>, f: CardFilters): (r: seq<CreditCard>)
    ensures multiset(r) == multiset(MatchingCards(table, f))
    ensures |r| == |MatchingCards(table, f)|
    ensures SortedBy(r, Precedes(SortOrderOf(f.sortBy)))
  {
    PrecedesTotalPreorder(SortOrderOf(f.sortBy));
    SortBySorted(MatchingCards(table, f), Precedes(SortOrderOf(f.sortBy)));
    SortBy(MatchingCards(table, f), Precedes(SortOrderOf(f.sortBy)))
  }

  /** One page of the listing and the number of matches overall. */
  datatype CardPage = CardPage(cards: seq<CreditCard>, total: nat)

  /** `getCards(offset, limit, filters)`. */
  function GetCards(table: seq<CreditCard>, offset: nat, limit: nat, f: CardFilters): (r: CardPage)
    ensures r.total == |MatchingCards(table, f)|
    ensures |r.cards| == if offset >= r.total then 0 else if limit < r.total - offset then limit else r.total - offset
    ensures forall k :: 0 <= k < |r.cards| ==> r.cards[k] == OrderedMatches(table, f)[offset + k]
    ensures forall c :: c in r.cards ==> c in table && MatchesFilters(c, f)
    ensures SortedBy(r.cards, Precedes(SortOrderOf(f.sortBy)))
  {
    var ordered := OrderedMatches(table, f);
    var page := Window(ordered, offset, limit);
    WindowOfSorted(ordered, offset, limit, Precedes(SortOrderOf(f.sortBy)));
    assert forall c :: c in page ==> c in table && MatchesFilters(c, f) by {
      forall c | c in page ensures c in table && MatchesFilters(c, f) {
        assert c in multiset(MatchingCards(table, f));
      }
    }
    CardPage(page, |MatchingCards(table, f)|)
  }

  /** The total does not depend on which page is asked for. */
  lemma TotalIndependentOfPage(table: seq<CreditCard>, f: CardFilters, o1: nat, l1: nat, o2: nat, l2: nat)
    ensures GetCards(table, o1, l1, f).total == GetCards(table, o2, l2, f).total
  {
  }

  /** Consecutive pages of the same width join into the double-width page, so
      paging never repeats or skips a card. */
  lemma ConsecutivePages(table: seq<CreditCard>, f: CardFilters, offset: nat, limit: nat)
    ensures GetCards(table, offset, limit, f).cards + GetCards(table, offset + limit, limit, f).cards
         == GetCards(table, offset, limit + limit, f).cards
  {
    ConsecutiveWindows(OrderedMatches(table, f), offset, limit);
  }

  // ---------------------------------------------------------------------------
  // Lookup by id
  // ---------------------------------------------------------------------------

  /** The first row with the id, inactive rows included. */
  function CardById(table: seq<CreditCard>, id: int): (r: Option<CreditCard>)
    ensures r.None? <==> forall c :: c in table ==> c.id != id
    ensures r.Some? ==> r.value in table && r.value.id == id
  {
    if table == [] then None
    else if table[0].id == id then Some(table[0])
    else
      var rest := CardById(table[1..], id);
      assert table == [table[0]] + table[1..];
      rest
  }

  // ---------------------------------------------------------------------------
  // Seeding
  // ---------------------------------------------------------------------------

  /** The 25 seed cards as stored in an empty table whose id sequence is at
      `firstId`, inserted at time `now`. */
  function SeededTable(firstId: nat, now: int): (r: seq<CreditCard>)
    ensures |r| == |SeedCards| == 25
    ensures forall i :: 0 <= i < |r| ==> r[i] == Stored(SeedCards[i], firstId + i, now)
  {
    seq(|SeedCards|, (i: int) requires 0 <= i < |SeedCards| => Stored(SeedCards[i], firstId + i, now))
  }

  /** The table after `initializeCards`. */
  function InitializedTable(table: seq<CreditCard>, nextId: nat, now: int): (r: seq<CreditCard>)
    ensures |table| > 0 ==> r == table
    ensures |table| == 0 ==> |r| == 25
    ensures |table| == 0 ==> forall i :: 0 <= i < |r| ==> r[i] == Stored(SeedCards[i], nextId + i, now)
    ensures |table| == 0 ==> r == SeededTable(nextId, now)
  {
    if |table| > 0 then table else SeededTable(nextId, now)
  }

  /** Seeding twice changes nothing the first call did not. */
  lemma InitializeIdempotent(table: seq<CreditCard>, n1: nat, t1: int, n2: nat, t2: int)
    ensures InitializedTable(InitializedTable(table, n1, t1), n2, t2) == InitializedTable(table, n1, t1)
  {
  }

  /** The seeded rows are all active and get consecutive, distinct ids. */
  lemma SeededRows(firstId: nat, now: int)
    ensures forall c :: c in SeededTable(firstId, now) ==> c.isActive && firstId <= c.id < firstId + 25
    ensures forall i, j :: 0 <= i < j < 25 ==> SeededTable(firstId, now)[i].id != SeededTable(firstId, now)[j].id
  {
  }

  // ---------------------------------------------------------------------------
  // Favorites
  // ---------------------------------------------------------------------------

  predicate IsFavoriteOf(f: Favorite, userId: string, cardId: int) {
    f.userId == userId && f.cardId == cardId
  }

  /** Whether some row pairs the user with the card. */
  function HasFavorite(favs: seq<Favorite>, userId: string, cardId: int): (b: bool)
    ensures b <==> exists i :: 0 <= i < |favs| && IsFavoriteOf(favs[i], userId, cardId)
  {
    if favs == [] then false
    else if IsFavoriteOf(favs[0], userId, cardId) then true
    else
      var rest := HasFavorite(favs[1..], userId, cardId);
      assert forall i :: 1 <= i < |favs| ==> favs[i] == favs[1..][i - 1];
      rest
  }

  /** How many rows pair the user with the card. */
  function CountFavorites(favs: seq<Favorite>, userId: string, cardId: int): nat {
    |Filter(favs, (f: Favorite) => IsFavoriteOf(f, userId, cardId))|
  }

  /** The rows left by `DELETE ... WHERE user_id = ? AND card_id = ?`. */
  function WithoutFavorite(favs: seq<Favorite>, userId: string, cardId: int): (r: seq<Favorite>)
    ensures !HasFavorite(r, userId, cardId)
    ensures forall f :: multiset(r)[f] == if IsFavoriteOf(f, userId, cardId) then 0 else multiset(favs)[f]
  {
    var r := Filter(favs, (f: Favorite) => !IsFavoriteOf(f, userId, cardId));
    assert forall i :: 0 <= i < |r| ==> !IsFavoriteOf(r[i], userId, cardId) by {
      forall i | 0 <= i < |r| ensures !IsFavoriteOf(r[i], userId, cardId) {
        assert r[i] in r;
      }
    }
    r
  }

  /** Deleting a pair that is not there is a no-op. */
  lemma RemoveAbsentIsNoop(favs: seq<Favorite>, userId: string, cardId: int)
    requires !HasFavorite(favs, userId, cardId)
    ensures WithoutFavorite(favs, userId, cardId) == favs
  {
    forall f | f in favs ensures !IsFavoriteOf(f, userId, cardId) {
      var i :| 0 <= i < |favs| && favs[i] == f;
    }
    FilterKeepsAll(favs, (f: Favorite) => !IsFavoriteOf(f, userId, cardId));
  }

  /** Adding a pair that is already there adds a second row: duplicates are
      possible. */
  lemma AddCountsOnce(favs: seq<Favorite>, f: Favorite)
    ensures CountFavorites(favs + [f], f.userId, f.cardId) == CountFavorites(favs, f.userId, f.cardId) + 1
  {
    var keep := (g: Favorite) => IsFavoriteOf(g, f.userId, f.cardId);
    FilterConcat(favs, [f], keep);
    assert [f][1..] == [];
  }

  /** A favorite joined with its card. */
  datatype FavoriteCard = FavoriteCard(favorite: Favorite, card: CreditCard)

  /** `fav` paired with each card whose id is its `cardId`. */
  function PairWithCards(fav: Favorite, cards: seq<CreditCard>): (r: seq<FavoriteCard>)
    ensures forall row :: row in r <==> row.favorite == fav && row.card in cards && row.card.id == fav.cardId
  {
    if cards == [] then []
    else
      var rest := PairWithCards(fav, cards[1..]);
      assert cards == [cards[0]] + cards[1..];
      if cards[0].id == fav.cardId then [FavoriteCard(fav, cards[0])] + rest else rest
  }

  /** The inner join of the user's favorites with the cards, in favorites
      order. */
  function JoinFavorites(favs: seq<Favorite>, cards: seq<CreditCard>, userId: string): (r: seq<FavoriteCard>)
    ensures forall row :: row in r <==>
      row.favorite in favs && row.favorite.userId == userId && row.card in cards && row.card.id == row.favorite.cardId
  {
    if favs == [] then []
    else
      var rest := JoinFavorites(favs[1..], cards, userId);
      assert favs == [favs[0]] + favs[1..];
      (if favs[0].userId == userId then PairWithCards(favs[0], cards) else []) + rest
  }

  /** Newer favorites first. */
  predicate NewerFirst(a: FavoriteCard, b: FavoriteCard) {
    b.favorite.createdAt <= a.favorite.createdAt
  }

  /** `getUserFavorites`: the join, newest favorite first. */
  function UserFavorites(favs: seq<Favorite>, cards: seq<CreditCard>, userId: string): (r: seq<FavoriteCard>)
    ensures forall row :: row in r <==>
      row.favorite in favs && row.favorite.userId == userId && row.card in cards && row.card.id == row.favorite.cardId
    ensures SortedBy(r, NewerFirst)
    ensures multiset(r) == multiset(JoinFavorites(favs, cards, userId))
  {
    var joined := JoinFavorites(favs, cards, userId);
    var r := SortBy(joined, NewerFirst);
    assert TotalPreorder(NewerFirst);
    SortBySorted(joined, NewerFirst);
    assert forall row :: row in r <==> row in joined by {
      forall row ensures row in r <==> row in joined {
        assert row in r <==> row in multiset(r);
      }
    }
    r
  }

  // ---------------------------------------------------------------------------
  // The store
  // ---------------------------------------------------------------------------

  /** The two tables and their serial id sequences. */
  class Storage {
    var cards: seq<CreditCard>
    var favorites: seq<Favorite>
    var nextCardId: nat
    var nextFavoriteId: nat

    /** Serial ids are below the next value of their sequence, and card ids
        are distinct. */
    ghost predicate Valid()
      reads this
    {
      && (forall i :: 0 <= i < |cards| ==> cards[i].id < nextCardId)
      && (forall i, j :: 0 <= i < j < |cards| ==> cards[i].id != cards[j].id)
      && (forall i :: 0 <= i < |favorites| ==> favorites[i].id < nextFavoriteId)
    }

    /** Empty tables; serial sequences start at 1. */
    constructor ()
      ensures Valid()
      ensures cards == [] && favorites == []
      ensures nextCardId == 1 && nextFavoriteId == 1
    {
      cards := [];
      favorites := [];
      nextCardId := 1;
      nextFavoriteId := 1;
    }

    /** `initializeCards`: insert the seed cards in one batch, only into an
        empty table. */
    method InitializeCards(now: int)
      requires Valid()
      modifies this
      ensures Valid()
      ensures cards == InitializedTable(old(cards), old(nextCardId), now)
      ensures nextCardId == old(nextCardId) + (if |old(cards)| > 0 then 0 else |SeedCards|)
      ensures favorites == old(favorites) && nextFavoriteId == old(nextFavoriteId)
    {
      if |cards| > 0 {
        return;
      }
      cards := SeededTable(nextCardId, now);
      nextCardId := nextCardId + |SeedCards|;
    }

    /** `addToFavorites`: always a new row, with the next serial id and the
        current time; the card id is not checked against the catalog. */
    method AddToFavorites(userId: string, cardId: int, now: int) returns (fav: Favorite)
      requires Valid()
      modifies this
      ensures Valid()
      ensures fav == Favorite(old(nextFavoriteId), userId, cardId, now)
      ensures favorites == old(favorites) + [fav]
      ensures nextFavoriteId == old(nextFavoriteId) + 1
      ensures cards == old(cards) && nextCardId == old(nextCardId)
      ensures IsCardFavorited(userId, cardId)
    {
      fav := Favorite(nextFavoriteId, userId, cardId, now);
      favorites := favorites + [fav];
      nextFavoriteId := nextFavoriteId + 1;
      assert favorites[|favorites| - 1] == fav;
    }

    /** `removeFromFavorites`: delete every row of the pair. */
    method RemoveFromFavorites(userId: string, cardId: int)
      requires Valid()
      modifies this
      ensures Valid()
      ensures favorites == WithoutFavorite(old(favorites), userId, cardId)
      ensures !IsCardFavorited(userId, cardId)
      ensures cards == old(cards) && nextCardId == old(nextCardId) && nextFavoriteId == old(nextFavoriteId)
    {
      var kept := WithoutFavorite(favorites, userId, cardId);
      forall i | 0 <= i < |kept| ensures kept[i].id < nextFavoriteId {
        assert kept[i] in multiset(kept);
        assert kept[i] in favorites;
      }
      favorites := kept;
    }

    /** `isCardFavorited`. */
    function IsCardFavorited(userId: string, cardId: int): (b: bool)
      reads this
      ensures b <==> exists i :: 0 <= i < |favorites| && IsFavoriteOf(favorites[i], userId, cardId)
    {
      HasFavorite(favorites, userId, cardId)
    }

    /** `getUserFavorites`. */
    function GetUserFavorites(userId: string): (r: seq<FavoriteCard>)
      reads this
      ensures forall row :: row in r <==>
        row.favorite in favorites && row.favorite.userId == userId && row.card in cards && row.card.id == row.favorite.cardId
      ensures SortedBy(r, NewerFirst)
      ensures multiset(r) == multiset(JoinFavorites(favorites, cards, userId))
    {
      UserFavorites(favorites, cards, userId)
    }

    /** `getCardById`. */
    function GetCardById(id: int): (r: Option<CreditCard>)
      reads this
      ensures r.None? <==> forall c :: c in cards ==> c.id != id
      ensures r.Some? ==> r.value in cards && r.value.id == id
      ensures Valid() && r.Some? ==> forall i :: 0 <= i < |cards| && cards[i].id == id ==> cards[i] == r.value
    {
      CardById(cards, id)
    }

    /** `getCards`. */
    function ListCards(offset: nat, limit: nat, f: CardFilters): (r: CardPage)
      reads this
      ensures r.total == |MatchingCards(cards, f)|
      ensures |r.cards| == if offset >= r.total then 0 else if limit < r.total - offset then limit else r.total - offset
      ensures forall c :: c in r.cards ==> c in cards && MatchesFilters(c, f)
      ensures forall k :: 0 <= k < |r.cards| ==>
                offset + k < |OrderedMatches(cards, f)| && r.cards[k] == OrderedMatches(cards, f)[offset + k]
    {
      GetCards(cards, offset, limit, f)
    }

    /** `getRecommendations` (primary path). */
    function GetRecommendations(p: Preferences): (r: seq<CreditCard>)
      reads this
      ensures |r| <= 5
      ensures forall c :: c in r ==> c in cards && c.isActive && Eligible(c, p)
      ensures SortedBy(r, FeeLe)
      ensures multiset(r) <= multiset(EligibleCards(cards, p))
      ensures forall c :: c in cards && Eligible(c, p) && c !in r ==>
                |r| == 5 && forall x :: x in r ==> x.annualFee <= c.annualFee
      ensures r == RecommendedCards(cards, p)
    {
      RecommendationsMeetThresholds(cards, p);
      RecommendationsByFee(cards, p);
      forall c | c in cards && Eligible(c, p) && c !in RecommendedCards(cards, p)
        ensures |RecommendedCards(cards, p)| == 5
        ensures forall x :: x in RecommendedCards(cards, p) ==> x.annualFee <= c.annualFee
      {
        RecommendationsCheapest(cards, p, c);
      }
      RecommendedCards(cards, p)
    }
  }

  /** Adding and then removing the same pair leaves it unfavorited. */
  method AddThenRemove(s: Storage, userId: string, cardId: int, now: int) returns (b: bool)
    requires s.Valid()
    modifies s
    ensures !b
  {
    var _ := s.AddToFavorites(userId, cardId, now);
    s.RemoveFromFavorites(userId, cardId);
    b := s.IsCardFavorited(userId, cardId);
  }
}
