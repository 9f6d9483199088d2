/** The catalog browser of the client: the filter controls with their
    placeholder choices, the query string it sends for each page, the
    "load more" paging and the page reset when a filter changes. */
module BrowseCards {
  import opened Wrappers
  import opened Text
  import opened Sorting
  import opened Schema
  import opened Storage
  import Routes

  /** Cards per page. */
  const Limit: nat := 12

  const AllIssuers := "All Issuers"
  const AllTypes := "All Types"
  const Popularity := "Sort by Popularity"

  /** The filter controls; each select starts on its placeholder choice. */
  datatype Filters = Filters(search: string, issuer: string, cardType: string, sortBy: string)

  const InitialFilters := Filters("", AllIssuers, AllTypes, Popularity)

  /** The query string for one page: page and limit always, the search only
      when non-empty, each select only when it is off its placeholder. */
  function QueryOf(page: nat, f: Filters): (q: Routes.CardsQuery)
    ensures q.page == Some(NatToString(page)) && q.limit == Some(NatToString(Limit))
    ensures q.search.Some? <==> f.search != ""
    ensures q.issuer.Some? <==> f.issuer != AllIssuers
    ensures q.cardType.Some? <==> f.cardType != AllTypes
    ensures q.sortBy.Some? <==> f.sortBy != Popularity
    ensures q.search.Some? ==> q.search.value == f.search
    ensures q.issuer.Some? ==> q.issuer.value == f.issuer
    ensures q.cardType.Some? ==> q.cardType.value == f.cardType
    ensures q.sortBy.Some? ==> q.sortBy.value == f.sortBy
  {
    Routes.CardsQuery(
      Some(NatToString(page)),
      Some(NatToString(Limit)),
      if f.search != "" then Some(f.search) else None,
      if f.issuer != AllIssuers then Some(f.issuer) else None,
      if f.cardType != AllTypes then Some(f.cardType) else None,
      if f.sortBy != Popularity then Some(f.sortBy) else None)
  }

  /** The filters the listing applies when it is given the controls as they
      stand, placeholders included. */
  function ControlFilters(f: Filters): CardFilters {
    CardFilters(f.search, f.issuer, f.cardType, f.sortBy)
  }

  /** The server reads back the page and the limit the query carries. */
  lemma QueryReadBack(page: nat, f: Filters)
    requires page >= 1
    ensures Routes.PageOf(QueryOf(page, f)) == page
    ensures Routes.LimitOf(QueryOf(page, f)) == Limit
  {
    Routes.QueryIntOfRendered(page, 1);
    Routes.QueryIntOfRendered(Limit, 12);
  }

  /** Leaving a placeholder out of the query selects the same cards, in the
      same order, as sending it: the listing treats each placeholder as no
      condition. */
  lemma OmittedPlaceholdersChangeNothing(table: seq<CreditCard>, page: nat, f: Filters)
    ensures MatchingCards(table, Routes.FiltersOf(QueryOf(page, f))) == MatchingCards(table, ControlFilters(f))
    ensures OrderedMatches(table, Routes.FiltersOf(QueryOf(page, f))) == OrderedMatches(table, ControlFilters(f))
  {
    var sent := Routes.FiltersOf(QueryOf(page, f));
    var shown := ControlFilters(f);
    forall c | c in table ensures MatchesFilters(c, sent) == MatchesFilters(c, shown) {
    }
    FilterAgreeing(table, (c: CreditCard) => MatchesFilters(c, sent), (c: CreditCard) => MatchesFilters(c, shown));
    assert SortOrderOf(sent.sortBy) == SortOrderOf(shown.sortBy);
  }

  /** What page `page` of the browser shows: the matches of the controls from
      position (page - 1) * 12, at most 12 of them. */
  lemma PageContents(table: seq<CreditCard>, page: nat, f: Filters)
    requires page >= 1
    ensures var r := Routes.CardsRoute(table, QueryOf(page, f));
            && r.total == |MatchingCards(table, ControlFilters(f))|
            && |r.cards| <= Limit
            && |r.cards| == (if (page - 1) * Limit >= r.total then 0
                             else if Limit < r.total - (page - 1) * Limit then Limit
                             else r.total - (page - 1) * Limit)
            && forall k :: 0 <= k < |r.cards| ==>
                 (page - 1) * Limit + k < |OrderedMatches(table, ControlFilters(f))| &&
                 r.cards[k] == OrderedMatches(table, ControlFilters(f))[(page - 1) * Limit + k]
  {
    QueryReadBack(page, f);
    OmittedPlaceholdersChangeNothing(table, page, f);
  }

  /** `hasMoreCards`: false until data arrives, then whether the pages so far
      fall short of the total. */
  function HasMoreCards(page: nat, data: Option<CardPage>): (more: bool)
    ensures data.None? ==> !more
    ensures data.Some? ==> (more <==> page * Limit < data.value.total)
  {
    match data
    case None => false
    case Some(d) => page * Limit < d.total
  }

  /** "Load more" is offered exactly when the next page holds a card. */
  lemma MoreCardsIffNextPageNonEmpty(table: seq<CreditCard>, page: nat, f: Filters)
    requires page >= 1
    ensures HasMoreCards(page, Some(Routes.CardsRoute(table, QueryOf(page, f))))
            <==> |Routes.CardsRoute(table, QueryOf(page + 1, f)).cards| > 0
  {
    var here := QueryOf(page, f);
    var next := QueryOf(page + 1, f);
    QueryReadBack(page, f);
    QueryReadBack(page + 1, f);
    OmittedPlaceholdersChangeNothing(table, page, f);
    OmittedPlaceholdersChangeNothing(table, page + 1, f);
    assert Routes.PageOffset(page + 1, Limit) == page * Limit;
  }

  class BrowseState {
    var page: nat
    var filters: Filters

    ghost predicate Valid()
      reads this
    {
      page >= 1
    }

    constructor ()
      ensures Valid() && page == 1 && filters == InitialFilters
    {
      page := 1;
      filters := InitialFilters;
    }

    /** The query the browser sends for its current state. */
    function Query(): (q: Routes.CardsQuery)
      reads this
      ensures q == QueryOf(page, filters)
    {
      QueryOf(page, filters)
    }

    /** `handleLoadMore`: one page further, filters untouched. */
    method LoadMore()
      requires Valid()
      modifies this
      ensures Valid()
      ensures page == old(page) + 1 && filters == old(filters)
    {
      page := page + 1;
    }

    /** A change to the search box or one of the selects; the effect that
        follows it starts again from page 1. */
    method ChangeFilters(f: Filters)
      requires Valid()
      modifies this
      ensures Valid()
      ensures filters == f && page == 1
    {
      filters := f;
      page := 1;
    }
  }
}
