/** The chat panel of the client: the message list it shows, the input box and
    its send guard, the recommendation cards with their match percentages and
    reasons, and the progress bar that follows the stage the server reports. */
module ChatInterface {
  import opened Wrappers
  import opened Text
  import opened Schema
  import opened SeedCatalog
  import Routes

  // ---------------------------------------------------------------------------
  // Recommendation cards
  // ---------------------------------------------------------------------------

  /** The match percentage shown on the recommendation at position `index`:
      85 for the first, five points less for each later one, never below 70. */
  function MatchPercentage(index: nat): (p: int)
    ensures 70 <= p <= 85
    ensures index == 0 ==> p == 85
    ensures p > 70 ==> p + 5 * index == 85
    ensures p == if index < 3 then 85 - 5 * index else 70
  {
    if 85 - index * 5 > 70 then 85 - index * 5 else 70
  }

  /** A later position never shows a higher percentage. */
  lemma MatchPercentageNonIncreasing(i: nat, j: nat)
    requires i <= j
    ensures MatchPercentage(j) <= MatchPercentage(i)
  {
  }

  const DiningReasonPrefix := "Perfect for dining rewards with "
  const TravelReason := "Excellent for travel benefits and rewards"
  const CashbackReason := "Great cashback rates for your spending pattern"
  const ZeroFeeReason := "Zero annual fee with good rewards"
  const GenericReason := "Matches your income and spending requirements"

  /** `getRecommendationReason`. The card type is compared exactly, and the
      annual fee is compared with the text "0", as the decimal column arrives
      at the client. */
  function RecommendationReason(card: CreditCard): (reason: string)
    ensures reason != ZeroFeeReason
    ensures card.cardType !in {"dining", "travel", "cashback"} ==> reason == GenericReason
    ensures card.cardType == "dining" ==> reason == DiningReasonPrefix + card.rewardRate
    ensures card.cardType == "travel" ==> reason == TravelReason
    ensures card.cardType == "cashback" ==> reason == CashbackReason
  {
    DecimalTextNeverBareZero(card.annualFee);
    if card.cardType == "dining" then
      assert (DiningReasonPrefix + card.rewardRate)[0] == 'P';
      DiningReasonPrefix + card.rewardRate
    else if card.cardType == "travel" then TravelReason
    else if card.cardType == "cashback" then CashbackReason
    else if DecimalText(card.annualFee) == "0" then ZeroFeeReason
    else GenericReason
  }

  /** A card type that starts with a capital letter gets the generic reason. */
  lemma CapitalisedTypeGetsGenericReason(card: CreditCard)
    requires |card.cardType| > 0 && IsUpper(card.cardType[0])
    ensures RecommendationReason(card) == GenericReason
  {
    assert card.cardType != "dining" && card.cardType != "travel" && card.cardType != "cashback" by {
      assert "dining"[0] == 'd' && "travel"[0] == 't' && "cashback"[0] == 'c';
    }
  }

  /** Every seeded card type starts with a capital letter ... */
  lemma SeedTypesCapitalised()
    ensures forall t :: t in SeedCardTypes ==> |t| > 0 && IsUpper(t[0])
  {
  }

  /** ... so every seeded card is recommended with the generic reason. */
  lemma SeededCardsGetGenericReason(card: CreditCard, i: nat, id: nat, now: int)
    requires i < |SeedCards| && card == Stored(SeedCards[i], id, now)
    ensures RecommendationReason(card) == GenericReason
  {
    SeedCardTypesListed();
    SeedTypesCapitalised();
    CapitalisedTypeGetsGenericReason(card);
  }

  /** One recommendation card as the panel shows it. */
  datatype Recommendation = Recommendation(card: CreditCard, matchPercentage: int, reason: string)

  /** The server's cards turned into recommendation cards, position by
      position. */
  function FormatRecommendations(cards: seq<CreditCard>): (recs: seq<Recommendation>)
    ensures |recs| == |cards|
    ensures forall i :: 0 <= i < |recs| ==>
              && recs[i].card == cards[i]
              && recs[i].matchPercentage == MatchPercentage(i)
              && recs[i].reason == RecommendationReason(cards[i])
  {
    seq(|cards|, (i: int) requires 0 <= i < |cards| => Recommendation(cards[i], MatchPercentage(i), RecommendationReason(cards[i])))
  }

  /** The percentages of a formatted list run from at most 85 down to at
      least 70 without ever rising. */
  lemma FormattedPercentagesOrdered(cards: seq<CreditCard>)
    ensures var recs := FormatRecommendations(cards);
            forall i, j :: 0 <= i <= j < |recs| ==>
              70 <= recs[j].matchPercentage <= recs[i].matchPercentage <= 85
  {
    var recs := FormatRecommendations(cards);
    forall i, j | 0 <= i <= j < |recs| ensures 70 <= recs[j].matchPercentage <= recs[i].matchPercentage <= 85 {
      MatchPercentageNonIncreasing(i, j);
    }
  }

  // ---------------------------------------------------------------------------
  // Progress
  // ---------------------------------------------------------------------------

  const InitialProgress := 20

  /** The progress after a reply that reports `stage` (absent or empty when
      the reply has none). */
  function ProgressAfter(progress: int, stage: Option<string>): (next: int)
    ensures stage == Some("income") ==> next == 40
    ensures stage == Some("spending") ==> next == 60
    ensures stage == Some("credit_score") ==> next == 80
    ensures stage == Some("recommendations") ==> next == 100
    ensures stage !in {Some("income"), Some("spending"), Some("credit_score"), Some("recommendations")} ==> next == progress
  {
    match stage
    case None => progress
    case Some(s) =>
      if s == "income" then 40
      else if s == "spending" then 60
      else if s == "credit_score" then 80
      else if s == "recommendations" then 100
      else progress
  }

  /** For the stages a question belongs to, the bar shows 20 points per step
      of the conversation; after the last question it stays where it was. */
  lemma ProgressFollowsStage(progress: int, s: Routes.Stage)
    ensures 1 <= Routes.Rank(s) <= 4 ==> ProgressAfter(progress, Some(Routes.StageName(s))) == 20 + 20 * Routes.Rank(s)
    ensures s == Routes.General ==> ProgressAfter(progress, Some(Routes.StageName(s))) == progress
  {
  }

  /** The progress values the bar can show. */
  predicate ProgressStep(progress: int) {
    progress in {20, 40, 60, 80, 100}
  }

  /** `Math.ceil((100 - progress) / 20)` while progress is below 100; `None`
      when the assessment is complete. */
  function RemainingQuestions(progress: int): (n: Option<int>)
    ensures n.Some? <==> progress < 100
    ensures n.Some? ==> 20 * (n.value - 1) < 100 - progress <= 20 * n.value
  {
    if progress < 100 then Some((100 - progress + 19) / 20) else None
  }

  /** On the progress steps the count is the number of questions left. */
  lemma RemainingAtEachStep()
    ensures RemainingQuestions(20) == Some(4)
    ensures RemainingQuestions(40) == Some(3)
    ensures RemainingQuestions(60) == Some(2)
    ensures RemainingQuestions(80) == Some(1)
    ensures RemainingQuestions(100) == None
  {
  }

  // ---------------------------------------------------------------------------
  // The panel's state
  // ---------------------------------------------------------------------------

  /** A shown message; its id and timestamp are left out. */
  datatype PanelMessage = PanelMessage(content: string, isUser: bool)

  const PanelGreeting := "Hi! I'm your AI credit card advisor. I'll ask you a few questions to recommend the best cards for your needs. Let's start - what's your approximate monthly income?"

  /** The body of a successful chat response. */
  datatype ChatResponse = ChatResponse(message: string, recommendations: seq<CreditCard>, stage: Option<string>)

  /** What a chat result of the server looks like to the client: a bad
      request is an error, a reply a response with its stage name. */
  function ResponseOf(r: Routes.ChatResult): (response: Option<ChatResponse>)
    ensures response.None? <==> r.BadRequest?
    ensures r.ChatReply? ==> response.value.message == r.message && response.value.recommendations == r.recommendations
    ensures r.ChatReply? ==> response.value.stage == Some(Routes.StageName(r.stage))
  {
    match r
    case BadRequest => None
    case ChatReply(message, recommendations, _, stage) => Some(ChatResponse(message, recommendations, Some(Routes.StageName(stage))))
  }

  class ChatPanel {
    var messages: seq<PanelMessage>
    var inputMessage: string
    var recommendations: seq<Recommendation>
    var isTyping: bool
    var pending: bool
    var progress: int

    /** The list starts with the bot greeting, the typing indicator shows
        exactly while a request is pending, the bar is on a step and every
        shown percentage lies between 70 and 85. */
    ghost predicate Valid()
      reads this
    {
      && |messages| >= 1
      && messages[0] == PanelMessage(PanelGreeting, false)
      && isTyping == pending
      && ProgressStep(progress)
      && (forall i :: 0 <= i < |recommendations| ==> 70 <= recommendations[i].matchPercentage <= 85)
    }

    constructor ()
      ensures Valid()
      ensures messages == [PanelMessage(PanelGreeting, false)] && inputMessage == ""
      ensures recommendations == [] && !isTyping && !pending && progress == InitialProgress
    {
      messages := [PanelMessage(PanelGreeting, false)];
      inputMessage := "";
      recommendations := [];
      isTyping := false;
      pending := false;
      progress := InitialProgress;
    }

    /** What the user types (or a quick response fills in). */
    method SetInput(text: string)
      requires Valid()
      modifies this
      ensures Valid()
      ensures inputMessage == text
      ensures messages == old(messages) && recommendations == old(recommendations)
      ensures isTyping == old(isTyping) && pending == old(pending) && progress == old(progress)
    {
      inputMessage := text;
    }

    /** `handleSendMessage` and the request's `onMutate`: a send happens only
        when the trimmed input is non-empty and no request is pending; it
        sends the trimmed text, shows it as the user's message, clears the
        input and shows the typing indicator. Otherwise nothing changes. */
    method SendMessage() returns (sent: Option<string>)
      requires Valid()
      modifies this
      ensures Valid()
      ensures sent.Some? <==> Trim(old(inputMessage)) != "" && !old(pending)
      ensures sent.Some? ==>
                && sent.value == Trim(old(inputMessage))
                && messages == old(messages) + [PanelMessage(sent.value, true)]
                && inputMessage == "" && isTyping && pending
      ensures sent.None? ==>
                messages == old(messages) && inputMessage == old(inputMessage)
                && isTyping == old(isTyping) && pending == old(pending)
      ensures recommendations == old(recommendations) && progress == old(progress)
    {
      var text := Trim(inputMessage);
      if text == "" || pending {
        return None;
      }
      messages := messages + [PanelMessage(text, true)];
      inputMessage := "";
      isTyping := true;
      pending := true;
      sent := Some(text);
    }

    /** `onSuccess`: the bot message is appended, the recommendations are
        replaced only by a non-empty list, and the progress follows the
        reported stage. */
    method OnSuccess(data: ChatResponse)
      requires Valid()
      modifies this
      ensures Valid()
      ensures messages == old(messages) + [PanelMessage(data.message, false)]
      ensures |data.recommendations| > 0 ==> recommendations == FormatRecommendations(data.recommendations)
      ensures |data.recommendations| == 0 ==> recommendations == old(recommendations)
      ensures progress == ProgressAfter(old(progress), data.stage)
      ensures !isTyping && !pending && inputMessage == old(inputMessage)
    {
      isTyping := false;
      pending := false;
      messages := messages + [PanelMessage(data.message, false)];
      if |data.recommendations| > 0 {
        recommendations := FormatRecommendations(data.recommendations);
      }
      progress := ProgressAfter(progress, data.stage);
    }

    /** `onError`: the typing indicator goes away and nothing is appended. */
    method OnError()
      requires Valid()
      modifies this
      ensures Valid()
      ensures messages == old(messages) && recommendations == old(recommendations) && progress == old(progress)
      ensures !isTyping && !pending && inputMessage == old(inputMessage)
    {
      isTyping := false;
      pending := false;
    }
  }

  /** A full round trip: a send followed by the server's answer adds exactly
      the user's message and the reply, or (on an error) only the user's. */
  method SendAndReceive(panel: ChatPanel, answer: Option<ChatResponse>) returns (sent: Option<string>)
    requires panel.Valid()
    modifies panel
    ensures panel.Valid()
    ensures sent.None? ==> panel.messages == old(panel.messages)
    ensures sent.Some? && answer.Some? ==>
              panel.messages == old(panel.messages) + [PanelMessage(sent.value, true), PanelMessage(answer.value.message, false)]
    ensures sent.Some? && answer.None? ==> panel.messages == old(panel.messages) + [PanelMessage(sent.value, true)]
    ensures sent.Some? ==> !panel.pending && panel.inputMessage == ""
  {
    sent := panel.SendMessage();
    if sent.Some? {
      match answer
      case Some(data) => panel.OnSuccess(data);
      case None => panel.OnError();
    }
  }
}
