# Credit card advisor: a Dafny model of its business rules

The credit card advisor is a web application. A user chats with a rule-based
assistant that asks for their monthly income, their spending categories and
their credit score, and then recommends cards. The user can also browse the
card catalog and keep a list of favorites. This project models the rules
behind those features and proves properties of them:

- **The server's stage machine** (`Routes`). `generateRuleBasedResponse`
  lowercases each chat message and then, depending on the conversation
  stage, extracts an income, collects spending categories or maps a
  credit-score phrase to a representative score. The `/api/chat` route
  keeps a table of conversations keyed by session id and advances one of
  them per message. The module also models the history route and the page
  and id handling of the two card routes.
- **The store** (`Storage`). It covers the recommendation ranker
  (thresholds, cheapest first, at most five), the catalog query (filters,
  three sort orders, offset and limit, total count), seeding the catalog
  once with 25 cards, and the favorites table (insert, delete, exists, and
  a join ordered newest first). The tables are sequences held by the
  `Storage` class.
- **The client panels.**
  - `ChatInterface`: message list, send guard, match percentages,
    recommendation reasons and the progress bar.
  - `FavoritesSection`: the comparison selection and its bounds, and the
    headline feature of each card.
  - `BrowseCards`: query-string construction, "load more" and the page
    reset.

Supporting modules:

- `Wrappers` holds `Option`, which stands for an absent key, `undefined`
  or `NaN`.
- `Text` models the JavaScript string operations the rules use: ASCII
  `toLowerCase`/`toUpperCase`, `includes`, the first `\d+` match,
  `parseInt`, `toString`, `trim`, `split(',')[0]` and `join`.
- `Sorting` holds a generic insertion sort over a total preorder, plus
  filter, take and window.
- `Schema` holds the card and favorite records.
- `SeedCatalog` holds the 25 seed cards.

Modelling choices:

- Money columns (`decimal(10,2)`) are integers in hundredths.
  `DecimalText` is the `"d.dd"` text in which such a value reaches the
  client.
- Timestamps are integers passed in by the caller.
- Serial ids are counters held by the store.

The welcome stage (`server/routes.ts:81-99`) moves on to spending only
when the message contains "income" or a digit. Otherwise it asks again,
with next stage `income` and an empty patch (`Routes.Decide`). New
sessions start at `income` (`server/routes.ts:217-225`), so the welcome
branch is modelled but no route reaches it.

Two consequences of the code as written are proved rather than corrected:

- The client compares card types with lowercase `'dining'`, `'travel'` and
  `'cashback'`, but every seeded card type is capitalised. Every seeded card
  therefore gets the generic recommendation reason, and it shows its own
  type as its headline feature (`ChatInterface.SeededCardsGetGenericReason`,
  `FavoritesSection.SeededCardsShowTheirType`).
- The client tests `annualFee === '0'`. A decimal fee arrives as `"0.00"`,
  so that test never succeeds (`Schema.DecimalTextNeverBareZero`).

## Model

| member | source | states |
|---|---|---|
| Text.ToLower | server/routes.ts:78 | same length; each character lowercased (ASCII), so no upper-case letter remains |
| Text.FirstDigitRun | server/routes.ts:83 | None exactly when there is no digit; otherwise the leftmost maximal run of digits |
| Text.LeftmostDigitRunUnique | server/routes.ts:83 | the leftmost maximal digit run of a string is unique |
| Text.ParseInt | server/routes.ts:84 | NaN (None) exactly when the text does not start with a digit; an all-digit text gives its value |
| Text.NatToString | server/routes.ts:92 | `toString` gives non-empty digits, no leading zero, denoting the number |
| Text.ParseIntOfNatToString | server/storage.ts:613 | `parseInt(n.toString())` is n, so stored numbers read back unchanged |
| Text.NatToStringInjective | server/routes.ts:143 | distinct numbers render as distinct texts |
| Text.Trim | client/src/components/ChatInterface.tsx:136 | the result is a contiguous piece with white space removed at both ends; empty exactly when the input is all white space |
| Text.BeforeFirstComma | client/src/components/FavoritesSection.tsx:143 | the prefix of the text up to, and not including, its first comma |
| Text.Capitalize | client/src/components/FavoritesSection.tsx:151 | same length; first character uppercased, rest unchanged |
| Text.Contains | server/routes.ts:116-120 | the empty text is included in every text; an included text is no longer than the text |
| Text.Join | server/routes.ts:123 | `join(sep)`: empty for no parts; otherwise each part sits at its offset, the separator follows every part but the last, and the length is the parts' lengths plus a separator between neighbours |
| Text.JoinPartInside | server/routes.ts:123 | a join quoted inside a template still contains each of its parts |
| Text.ContainsAt | server/routes.ts:116-120 | an occurrence at a position means `includes` is true |
| Text.NotContainsMissingChar | server/routes.ts:116-120 | a text lacking some character of the word does not include the word |
| Text.StrLeTotal | server/storage.ts:116-117 | string order (used for "Highest Cashback") is total |
| Text.StrLeTransitive | server/storage.ts:116-117 | string order is transitive |
| Sorting.SortBy | server/storage.ts:642-646 | the sort returns a permutation of its input |
| Sorting.SortBySorted | server/storage.ts:642-646 | under a total preorder the sort's result is sorted |
| Sorting.InsertSorted | server/storage.ts:642-646 | inserting into a sorted sequence keeps it sorted |
| Sorting.Filter | server/storage.ts:626-638 | keeps exactly the elements that pass, with their multiplicities |
| Sorting.FilterSorted | server/storage.ts:626-646 | filtering keeps a sorted sequence sorted |
| Sorting.FilterConcat | client/src/components/FavoritesSection.tsx:102 | filtering distributes over concatenation, so it keeps the order |
| Sorting.FilterKeepsAll | client/src/components/FavoritesSection.tsx:102 | a filter every element passes changes nothing |
| Sorting.FilterAgreeing | client/src/components/BrowseCards.tsx:24-31 | two tests that agree on every element filter identically |
| Sorting.Take | server/storage.ts:648 | `slice(0, n)` has length min(n, length) and is a prefix |
| Sorting.Window | server/storage.ts:124 | `OFFSET o LIMIT n` is exactly min(n, length - o) elements, none past the end, those from position o on |
| Sorting.WindowOfSorted | server/storage.ts:102-124 | a window of a sorted sequence is sorted and holds only its elements |
| Sorting.ConsecutiveWindows | server/storage.ts:124 | two consecutive windows of width n make one window of width 2n |
| Sorting.PrefixBeforeRest | server/storage.ts:642-648 | in a sorted sequence the first n come no later than anything after them |
| Sorting.TakeSkipsOnlyLater | server/storage.ts:642-648 | an element the first n leave out comes after each of them, and then n were taken |
| Schema.Stored | shared/schema.ts:40-57 | a stored row has the given serial id, is active, has the insert time as createdAt, and keeps every inserted column: name, issuer, type, both fees, both thresholds, reward type and rate, eligibility, perks and both links |
| Schema.DecimalText | shared/schema.ts:44-45 | a decimal(10,2) value arrives as an optional minus sign (exactly when negative), then the digits of its whole part, a point, and two digits for its hundredths |
| Schema.DecimalTextNeverBareZero | shared/schema.ts:45 | a decimal value never arrives as the bare text "0"; zero arrives as "0.00" |
| SeedCatalog.SeedCardTypesListed | server/storage.ts:155-534 | every seeded card type is one of seven capitalised names |
| Storage.IncomeOf | server/storage.ts:611-614 | a falsy income reads as 0; a truthy one as its parseInt value, 0 for NaN |
| Storage.FeeLeTotalPreorder | server/storage.ts:642-646 | the fee comparator is total and transitive |
| Storage.ActiveCards | server/storage.ts:616-620 | exactly the active rows |
| Storage.EligibleCards | server/storage.ts:622-639 | exactly the active rows that pass the income and credit-score filters |
| Storage.RecommendedCards | server/storage.ts:608-650 | exactly min(5, eligible) cards, at most 5, each an active card from the table, and no card more often than among the eligible ones |
| Storage.RecommendationsMeetThresholds | server/storage.ts:624-639 | every recommendation has minIncome ≤ income when income > 0 and minCreditScore ≤ score when a score is given |
| Storage.ZeroIncomeSkipsIncomeFilter | server/storage.ts:611-630 | an income of 0, including the text "0", applies no income filter |
| Storage.UnparseableScoreRejectsAll | server/storage.ts:633-638 | a truthy score that parseInt reads as NaN filters every card out |
| Storage.RecommendationsByFee | server/storage.ts:642-646 | recommendations are in ascending annual fee |
| Storage.RecommendationsCheapest | server/storage.ts:642-648 | an eligible card that is left out costs at least as much as every recommended one, and then five were recommended |
| Storage.FallbackRecommendations | server/storage.ts:652-663 | at most 5 cards, each active and from the table |
| Storage.SortOrderOf | server/storage.ts:112-121 | "Lowest Annual Fee" and "Highest Cashback" select their orders; anything else selects newest first |
| Storage.PrecedesTotalPreorder | server/storage.ts:112-121 | each of the three orders is a total preorder |
| Storage.MatchingCards | server/storage.ts:76-95 | exactly the table's rows that are active and pass the search, issuer and card-type filters |
| Storage.OrderedMatches | server/storage.ts:102-121 | a permutation of the matches, sorted by the chosen order |
| Storage.GetCards | server/storage.ts:69-135 | total is the number of matches; exactly min(limit, total - offset) cards (none past the end), the [offset, offset+limit) slice of the ordered matches, each a matching row, in order |
| Storage.TotalIndependentOfPage | server/storage.ts:103-133 | the total does not depend on offset or limit |
| Storage.ConsecutivePages | server/storage.ts:124 | two consecutive pages make the window of twice the width |
| Storage.CardById | server/storage.ts:137-140 | None exactly when no row has the id; otherwise a row with that id |
| Storage.SeededTable | server/storage.ts:155-534 | exactly the 25 seed records, stored in order with consecutive serial ids |
| Storage.InitializedTable | server/storage.ts:147-152 | a non-empty table is left alone; an empty one gets exactly the 25 seed records, stored in order with consecutive ids from the sequence's next value |
| Storage.InitializeIdempotent | server/storage.ts:147-152 | seeding a second time never changes the table |
| Storage.SeededRows | server/storage.ts:155-534 | seeded rows are active, with distinct ids in [firstId, firstId+25) |
| Storage.HasFavorite | server/storage.ts:586-592 | true exactly when some row pairs the user with the card |
| Storage.WithoutFavorite | server/storage.ts:580-584 | every matching row is deleted, and every other row is kept with its multiplicity |
| Storage.RemoveAbsentIsNoop | server/storage.ts:580-584 | deleting a pair that is not there changes nothing |
| Storage.AddCountsOnce | server/storage.ts:572-578 | adding appends one more matching row even when one exists, so duplicates arise |
| Storage.PairWithCards | server/storage.ts:565 | one favorite joined with exactly the cards whose id is its cardId |
| Storage.JoinFavorites | server/storage.ts:538-566 | exactly the user's favorites whose card exists, each with that card |
| Storage.UserFavorites | server/storage.ts:538-569 | a permutation of the join (each joined row exactly as often as in the join), ordered newest favorite first |
| Storage.Storage.constructor | server/storage.ts:46-47 | empty tables, id sequences at 1 |
| Storage.Storage.InitializeCards | server/storage.ts:147-535 | cards become the initialized table (the 25 seed records when it was empty); the id sequence advances by 25 only when the table was empty; favorites unchanged |
| Storage.Storage.AddToFavorites | server/storage.ts:572-578 | appends a fresh row with the next id and returns it; cards unchanged; afterwards the pair is favorited |
| Storage.Storage.RemoveFromFavorites | server/storage.ts:580-584 | favorites lose every matching row; afterwards the pair is not favorited; cards unchanged |
| Storage.Storage.IsCardFavorited | server/storage.ts:586-592 | true exactly when a matching row exists |
| Storage.Storage.GetUserFavorites | server/storage.ts:538-569 | a permutation of the current tables' join: exactly the user's rows whose card exists, each with that card, as often as in the join, newest first |
| Storage.Storage.GetCardById | server/storage.ts:137-140 | None exactly when no row has the id; otherwise a row of the table with that id, the only one when ids are distinct |
| Storage.Storage.ListCards | server/storage.ts:69-135 | the total counts the matches; exactly min(limit, total - offset) cards (none past the end), each passing the filters, the ordered matches from the offset |
| Storage.Storage.GetRecommendations | server/storage.ts:608-650 | the ranker's result on the current table: at most 5 eligible active cards from the table, cheapest first, within the eligible multiset; an eligible card left out means five were taken, none dearer than it |
| Storage.AddThenRemove | server/storage.ts:572-592 | after an add and then a remove of the same pair, the pair is not favorited |
| Routes.StageNameInjective | server/routes.ts:80-151 | distinct stages have distinct names, so the `switch` sends each to one branch |
| Routes.Merge | server/routes.ts:243 | every key in the patch replaces the base's; the others are kept |
| Routes.MergeIdentity | server/routes.ts:243 | an empty patch changes nothing, and merging into an empty profile gives the patch |
| Routes.MergeAssociative | server/routes.ts:243 | merging patches turn by turn equals merging their merge |
| Routes.ExtractedIncome | server/routes.ts:83-88 | 0 without a digit; otherwise the first digit run's value, times 1000 when below 1000; so 0 or at least 1000 |
| Routes.ExtractedIncomeOfNumber | server/routes.ts:83-88 | a number written with no digit before it is the income read, scaled when below 1000 |
| Routes.MentionsCategory | server/routes.ts:116-120 | true exactly when one of the category's keywords is a substring |
| Routes.EveryCategoryListed | server/routes.ts:116-120 | the rules test all five categories |
| Routes.SpendingCategories | server/routes.ts:115-120 | contains exactly the mentioned categories, in the order dining, travel, shopping, fuel, grocery |
| Routes.SortedPair | server/routes.ts:115-120 | a list in that order whose members are two categories is exactly those two, in order |
| Routes.SpendingCategoriesDistinct | server/routes.ts:115-120 | no category is listed twice |
| Routes.FirstMatchingScore | server/routes.ts:129-138 | None exactly when no rule's keyword occurs; otherwise the score of the first rule that matches, every earlier one failing |
| Routes.FirstNumberIs | server/routes.ts:83-90 | a number written after text with no digit and before a non-digit is the first digit run read |
| Routes.WelcomeIncomeReply | server/routes.ts:90 | the first number in the reply is the extracted income |
| Routes.IncomeReply | server/routes.ts:109 | the first number in the reply is the extracted income |
| Routes.SpendingReply | server/routes.ts:123 | the reply names every collected category |
| Routes.CreditScoreReply | server/routes.ts:141 | the reply quotes the stored income (or "undefined") right after its opening, names every stored category, and quotes the chosen score after "credit score around" |
| Routes.ReplyText | server/routes.ts:89-151 | the re-ask and default texts are fixed; the first number in each income reply is the income; the spending reply names the categories; the confirmation quotes the score |
| Routes.RuleReplyTexts | server/routes.ts:80-152 | the response of each branch is its template filled with the extracted income, the collected categories, or the profile and the chosen score |
| Routes.ReplyQuotesRecordedAnswer | server/routes.ts:89-144 | the reply says what the patch stores: the recorded income is the reply's first number, each recorded category is named, and the recorded score is quoted |
| Routes.CreditScoreFrom | server/routes.ts:129-138 | the score of the first matching rule (780, 720, 670, 600), else 700 |
| Routes.CategoryNames | server/routes.ts:123 | the category tags, position by position |
| Routes.Decide | server/routes.ts:80-152 | the stage always moves forward (general stays general); spending follows exactly income and welcome-with-income; each branch's next stage, patch and reply: welcome-with-income and income acknowledge the extracted income, spending asks for the score naming the categories, credit_score confirms with the profile and the chosen score; welcome without income re-asks with an empty patch; the default branch gives general, an empty patch and the fixed reply |
| Routes.GenerateRuleBasedResponse | server/routes.ts:73-153 | the same stage and patch facts about the lowercased message; the re-ask and default replies are their fixed texts |
| Routes.ToLowerIdempotent | server/routes.ts:78 | lowercasing twice is lowercasing once |
| Routes.RulesIgnoreCase | server/routes.ts:78 | a message and its lowercase get the same answer |
| Routes.StoredValuesReadBack | server/routes.ts:92-143 | the stored income and score are truthy texts that the ranker parses back to the numbers the rules chose |
| Routes.BelowSixFiftyFacts | server/routes.ts:130-137 | "below 650" scores 670: the 650 rule comes before the "below" rule |
| Routes.BelowSixFiftyIsFair | server/routes.ts:128-144 | "below 650" in any capitalisation stores "670" and moves to recommendations |
| Routes.ShorthandIncomeFacts | server/routes.ts:82-88 | "i earn 50 a month" mentions an income, which reads as 50000 |
| Routes.ScenarioShorthandIncome | server/routes.ts:81-93 | in the welcome stage it moves to spending with income "50000" |
| Routes.DiningAndTravelMentioned | server/routes.ts:116-117 | "i love dining and travel" mentions dining and travel |
| Routes.ShoppingNotMentioned | server/routes.ts:118 | it does not mention shopping |
| Routes.FuelNotMentioned | server/routes.ts:119 | it does not mention fuel |
| Routes.GroceryNotMentioned | server/routes.ts:120 | it does not mention grocery |
| Routes.TwoCategoriesFacts | server/routes.ts:115-120 | its categories are exactly [dining, travel] |
| Routes.ScenarioTwoCategories | server/routes.ts:114-126 | in the spending stage it stores [dining, travel] and moves to credit_score |
| Routes.ScenarioExcellentScore | server/routes.ts:128-144 | "above 750" stores "780" and moves to recommendations |
| Routes.DecideRecordsAnswer | server/routes.ts:80-152 | every rule moves forward and its patch answers the question of the stage it leaves, with a non-empty number text, leaving earlier answers alone |
| Routes.PatchKeepsAnswers | server/routes.ts:243-244 | merging such a patch keeps every answer the new stage needs present |
| Routes.RuleKeepsAnswers | server/routes.ts:236-244 | after a rule the merged profile holds the answer of every question the new stage has passed |
| Routes.AppendTwo | server/routes.ts:230-253 | two pushes append both messages in order |
| Routes.TurnAlternates | server/routes.ts:230-253 | a user message followed by a reply keeps the alternation from the greeting |
| Routes.NewConversationWellFormed | server/routes.ts:217-225 | a new session is well formed |
| Routes.Advance | server/routes.ts:229-253 | user message and reply appended, profile merged with the patch, stage set to the next stage; well-formedness preserved |
| Routes.Turn | server/routes.ts:229-253 | the in-place pushes and reassignments produce Advance, and the reply is the last message |
| Routes.RecommendationsFor | server/routes.ts:259-262 | non-empty only at stage recommendations with a truthy income; at most 5 |
| Routes.RecommendationsAtLastStage | server/routes.ts:259-262 | in a well-formed conversation at stage recommendations the ranker's cards are fetched |
| Routes.SessionOrNew | server/routes.ts:214-226 | a known session's conversation, else a new one with the greeting, an empty profile and stage income; well formed when every stored one is |
| Routes.ConversationState.constructor | server/routes.ts:214-226 | the session table starts empty |
| Routes.ConversationState.Chat | server/routes.ts:205-275 | a falsy message or session id is a bad request and changes nothing; otherwise the session's conversation (new if unknown) advances by one turn, no other entry changes, and the reply carries message, recommendations, profile and stage |
| Routes.ConversationState.History | server/routes.ts:277-284 | [] for an unknown session; otherwise its messages, which begin and end with an assistant message |
| Routes.QueryInt | server/routes.ts:167-168 | `parseInt(x) \|\| fallback`: a missing, unparseable or zero value gives the fallback; otherwise the parsed value |
| Routes.QueryIntOfRendered | server/routes.ts:167-168 | a positive number sent as text arrives unchanged |
| Routes.PageOffset | server/routes.ts:169 | page 1 starts at 0 |
| Routes.NextPageOffset | server/routes.ts:169 | each later page starts one limit further than the page before it |
| Routes.CardsRoute | server/routes.ts:165-179 | total counts the matches; exactly min(limit, total - offset) cards, none when the offset (page-1)*limit is past the total; the cards are the ordered matches from that offset |
| Routes.SecondPageOfTwelve | server/routes.ts:167-169 | page "2" with limit "12" holds the 13th to 24th matches: none for 12 matches or fewer, n - 12 for fewer than 24, else 12 |
| Routes.CardRoute | server/routes.ts:186-195 | 404 exactly when no row has the id; otherwise that row |
| ChatInterface.MatchPercentage | client/src/components/ChatInterface.tsx:88 | 85, 80 and 75 for the first three positions, 70 from the fourth on; so between 70 and 85 |
| ChatInterface.MatchPercentageNonIncreasing | client/src/components/ChatInterface.tsx:88 | a later position never shows a higher percentage |
| ChatInterface.RecommendationReason | client/src/components/ChatInterface.tsx:122-133 | dining quotes the reward rate; travel and cashback get their fixed reasons; a type outside the three exact lowercase names gets the generic reason; the zero-fee reason never occurs |
| ChatInterface.CapitalisedTypeGetsGenericReason | client/src/components/ChatInterface.tsx:122-133 | a card type starting with a capital gets the generic reason |
| ChatInterface.SeedTypesCapitalised | server/storage.ts:155-534 | every seeded card type starts with a capital |
| ChatInterface.SeededCardsGetGenericReason | client/src/components/ChatInterface.tsx:122-133 | every seeded card gets the generic reason |
| ChatInterface.FormatRecommendations | client/src/components/ChatInterface.tsx:85-92 | one recommendation per card, in order, with that position's percentage and the card's reason |
| ChatInterface.FormattedPercentagesOrdered | client/src/components/ChatInterface.tsx:85-92 | the shown percentages never rise and stay within [70, 85] |
| ChatInterface.ProgressAfter | client/src/components/ChatInterface.tsx:95-110 | income, spending, credit_score and recommendations give 40, 60, 80 and 100; any other or missing stage leaves progress unchanged |
| ChatInterface.ProgressFollowsStage | client/src/components/ChatInterface.tsx:95-110 | for the server's stages, 20 points per step of the conversation; general leaves it |
| ChatInterface.RemainingQuestions | client/src/components/ChatInterface.tsx:322-325 | shown exactly while progress < 100, as ceil((100 − progress)/20) |
| ChatInterface.RemainingAtEachStep | client/src/components/ChatInterface.tsx:322-325 | 4, 3, 2, 1 questions at 20, 40, 60, 80; none at 100 |
| ChatInterface.ResponseOf | server/routes.ts:209-269 | a bad request is an error for the client; a reply keeps its message and cards and reports its stage's name |
| ChatInterface.ChatPanel.constructor | client/src/components/ChatInterface.tsx:28-40 | one bot greeting, empty input, no recommendations, progress 20 |
| ChatInterface.ChatPanel.SetInput | client/src/components/ChatInterface.tsx:36 | only the input changes |
| ChatInterface.ChatPanel.SendMessage | client/src/components/ChatInterface.tsx:135-139 | sends exactly when the trimmed input is non-empty and nothing is pending; sends the trimmed text, appends it as the user's message and clears the input; otherwise nothing changes |
| ChatInterface.ChatPanel.OnSuccess | client/src/components/ChatInterface.tsx:72-111 | one bot message appended; recommendations replaced only by a non-empty list; progress follows the stage |
| ChatInterface.ChatPanel.OnError | client/src/components/ChatInterface.tsx:112-119 | nothing appended; the typing indicator goes away |
| ChatInterface.SendAndReceive | client/src/components/ChatInterface.tsx:60-119 | a send adds the user's message and either the reply or nothing; no send adds nothing |
| FavoritesSection.Without | client/src/components/FavoritesSection.tsx:102 | every occurrence of the id dropped; the other ids kept with their multiplicities |
| FavoritesSection.WithoutAbsent | client/src/components/FavoritesSection.tsx:102 | dropping an absent id changes nothing |
| FavoritesSection.WithoutConcat | client/src/components/FavoritesSection.tsx:102 | dropping works piece by piece, so the order is kept |
| FavoritesSection.CheckThenUncheck | client/src/components/FavoritesSection.tsx:98-104 | checking and then unchecking a card restores the other selections in order |
| FavoritesSection.CompareSelected | client/src/components/FavoritesSection.tsx:106-130 | under 2 asks for a selection; over 4 refuses; 2 to 4 proceeds with that count |
| FavoritesSection.EnabledCompareNeverAsksForMore | client/src/components/FavoritesSection.tsx:186 | the button is disabled exactly when pressing it would ask for more selections |
| FavoritesSection.FavoritesPanel.constructor | client/src/components/FavoritesSection.tsx:29 | nothing selected |
| FavoritesSection.FavoritesPanel.CardSelect | client/src/components/FavoritesSection.tsx:98-104 | checking appends the id; unchecking drops every occurrence; afterwards the card shows as selected exactly when checked; other cards unaffected |
| FavoritesSection.FavoritesPanel.RemoveFromFavorites | client/src/components/FavoritesSection.tsx:93-96 | the removed card is no longer selected; nothing changes when it was not |
| FavoritesSection.FavoritesPanel.Compare | client/src/components/FavoritesSection.tsx:106-130 | the outcome of the bounds check on the current selection |
| FavoritesSection.LeadingRate | client/src/components/FavoritesSection.tsx:143 | a rate not starting with a comma gives its non-empty prefix up to, not including, the first comma; a rate starting with a comma (empty prefix) gives the whole rate |
| FavoritesSection.BestFeature | client/src/components/FavoritesSection.tsx:141-152 | dining quotes the leading rate; travel and cashback show their fixed features; a type outside the three exact names shows itself capitalised |
| FavoritesSection.CapitalizeCapitalised | client/src/components/FavoritesSection.tsx:151 | a word that starts with a capital is its own capitalisation |
| FavoritesSection.SeededCardsShowTheirType | client/src/components/FavoritesSection.tsx:141-152 | every seeded card shows its own type as its headline feature |
| BrowseCards.QueryOf | client/src/components/BrowseCards.tsx:24-31 | page and limit always; search only when non-empty; issuer, card type and sort only when off their placeholders, each with the control's value |
| BrowseCards.QueryReadBack | client/src/components/BrowseCards.tsx:24-26 | the server reads back the page and the limit of 12 |
| BrowseCards.OmittedPlaceholdersChangeNothing | client/src/components/BrowseCards.tsx:27-30 | leaving a placeholder out selects the same cards, in the same order, as sending it |
| BrowseCards.PageContents | client/src/components/BrowseCards.tsx:19-31 | page p shows exactly min(12, total - (p-1)*12) of the controls' matches (none past the end), from position (p-1)*12, and reports their count |
| BrowseCards.HasMoreCards | client/src/components/BrowseCards.tsx:61 | false with no data; otherwise true exactly when page*12 < total |
| BrowseCards.MoreCardsIffNextPageNonEmpty | client/src/components/BrowseCards.tsx:51-61 | "load more" is offered exactly when the next page holds a card |
| BrowseCards.BrowseState.constructor | client/src/components/BrowseCards.tsx:12-16 | page 1 and every control on its placeholder |
| BrowseCards.BrowseState.Query | client/src/components/BrowseCards.tsx:22-31 | the query for the current page and controls |
| BrowseCards.BrowseState.LoadMore | client/src/components/BrowseCards.tsx:51-53 | the page grows by exactly one; the filters are kept |
| BrowseCards.BrowseState.ChangeFilters | client/src/components/BrowseCards.tsx:41-48 | the new filters, back on page 1 |

## Left out

- The model holds the tables as in-memory sequences. It leaves out SQL
  mechanics and `async`/`await`, including the parallel count query of
  `getCards`.
- `ilike` wildcards: `%` and `_` inside the search text are read as plain
  characters. The search is a plain substring search, case-insensitive for
  ASCII letters only.
- Tie order in the database sorts is unspecified. The model breaks ties
  by insertion order, and its contracts speak only of sortedness and the
  permutation.
- The "Highest Cashback" order compares `reward_rate` by character code.
  Database collation is not modelled.
- Floating point: `parseFloat` fee comparisons are integer comparisons of
  hundredths, and `formatCurrency` is not modelled.
- JavaScript `parseInt` corner cases: leading white space, signs,
  `Infinity`, and numbers beyond 2^53. For example, a page of `-1` is not
  modelled; a non-digit start is NaN.
- Text.ToLower: ASCII letters only. The same applies to case mapping in
  Capitalize and the search.
- Storage.FallbackRecommendations: it is the exception path of
  `getRecommendations`, which only a database failure triggers. The
  ranker's contracts describe the primary path only.
- `callHuggingFaceAPI` is a network call, and the chat route never calls
  it.
- Not modelled: the health route, `POST /api/recommendations`, the
  favorites HTTP routes (wrappers around the store methods) and
  `createCard`.
- Auth and unused persistence: `getUser`, `upsertUser`, `saveChatMessage`
  and `getChatHistory`.
- Concurrency: interleaved requests for the same session.
- Routes.ConversationState.Chat: the recommendations come from the ranker
  over a snapshot of the card table, not from a call into the store
  object. A message body that is not a string, and the 500 paths, are out
  of scope.
- Routes.CardRoute: models a numeric id. The NaN id of a non-numeric path
  is not modelled.
- Client details not modelled: message ids and timestamps, the
  `Date.now()` session id, toasts, scrolling, redirects and
  `window.open`.
- BrowseCards.BrowseState.ChangeFilters: the 500 ms debounce timer is
  modelled as an immediate reset of the page.
- Routes.SpendingReply: its contract names every category but does not
  state their order or the comma layout; `Text.Join` states that layout.
- Routes.WelcomeIncomeReply, Routes.IncomeReply and Routes.CreditScoreReply
  state which values the reply quotes and where, not the fixed wording
  around them; that wording is spelled out once in the reply constants.
- Pure rendering is not modelled: the landing and home pages, the header,
  the card modal and the card grid.
