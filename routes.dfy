/** The server's conversation logic and card routes: the rule-based stage
    machine that answers each chat message, the per-session conversation
    table the chat route updates, the history lookup, and the page and id
    handling of the two card routes. */
module Routes {
  import opened Wrappers
  import opened Text
  import opened Schema
  import opened Sorting
  import opened Storage

  // ---------------------------------------------------------------------------
  // Stages, categories and the profile
  // ---------------------------------------------------------------------------

  /** The conversation stages. The rule function's `default:` branch is the
      Recommendations and General cases, the only other values a stage takes. */
  datatype Stage = Welcome | Income | Spending | CreditScore | Recommendations | General

  /** Position in the forward order of the conversation. */
  function Rank(s: Stage): nat {
    match s
    case Welcome => 0
    case Income => 1
    case Spending => 2
    case CreditScore => 3
    case Recommendations => 4
    case General => 5
  }

  /** The stage as the chat route reports it. */
  function StageName(s: Stage): string {
    match s
    case Welcome => "welcome"
    case Income => "income"
    case Spending => "spending"
    case CreditScore => "credit_score"
    case Recommendations => "recommendations"
    case General => "general"
  }

  lemma StageNameInjective(s: Stage, t: Stage)
    requires StageName(s) == StageName(t)
    ensures s == t
  {
  }

  /** The spending-category tags, in the order the rules test them. */
  datatype Category = Dining | Travel | Shopping | Fuel | Grocery

  function CategoryRank(c: Category): nat {
    match c
    case Dining => 0
    case Travel => 1
    case Shopping => 2
    case Fuel => 3
    case Grocery => 4
  }

  function CategoryName(c: Category): string {
    match c
    case Dining => "dining"
    case Travel => "travel"
    case Shopping => "shopping"
    case Fuel => "fuel"
    case Grocery => "grocery"
  }

  /** The words that reveal each category. */
  function Keywords(c: Category): seq<string> {
    match c
    case Dining => ["dining", "restaurant"]
    case Travel => ["travel", "flight", "hotel"]
    case Shopping => ["shopping", "online"]
    case Fuel => ["fuel", "petrol", "gas"]
    case Grocery => ["grocery", "groceries"]
  }

  /** Some word of `words` occurs in `m`. */
  predicate AnyKeyword(m: string, words: seq<string>) {
    exists k :: 0 <= k < |words| && Contains(m, words[k])
  }

  /** The user profile a conversation accumulates; an absent key is `None`. */
  datatype Profile = Profile(monthlyIncome: Option<string>, spendingCategories: Option<seq<Category>>, creditScore: Option<string>)

  const EmptyProfile := Profile(None, None, None)

  /** `{ ...base, ...patch }`: every key the patch has replaces the base's. */
  function Merge(base: Profile, patch: Profile): (m: Profile)
    ensures m.monthlyIncome == if patch.monthlyIncome.Some? then patch.monthlyIncome else base.monthlyIncome
    ensures m.spendingCategories == if patch.spendingCategories.Some? then patch.spendingCategories else base.spendingCategories
    ensures m.creditScore == if patch.creditScore.Some? then patch.creditScore else base.creditScore
  {
    Profile(
      if patch.monthlyIncome.Some? then patch.monthlyIncome else base.monthlyIncome,
      if patch.spendingCategories.Some? then patch.spendingCategories else base.spendingCategories,
      if patch.creditScore.Some? then patch.creditScore else base.creditScore)
  }

  lemma MergeIdentity(p: Profile)
    ensures Merge(p, EmptyProfile) == p
    ensures Merge(EmptyProfile, p) == p
  {
  }

  /** Merging patch by patch is merging their merge. */
  lemma MergeAssociative(a: Profile, b: Profile, c: Profile)
    ensures Merge(Merge(a, b), c) == Merge(a, Merge(b, c))
  {
  }

  /** The two keys the ranker reads. */
  function PreferencesOf(p: Profile): Preferences {
    Preferences(p.monthlyIncome, p.creditScore)
  }

  // ---------------------------------------------------------------------------
  // Extraction rules (on the lowercased message)
  // ---------------------------------------------------------------------------

  predicate HasDigit(m: string) {
    exists k :: 0 <= k < |m| && IsDigit(m[k])
  }

  /** The welcome-stage test: the word "income" or any digit. */
  predicate MentionsIncome(m: string) {
    Contains(m, "income") || HasDigit(m)
  }

  /** The first number in the message, read as thousands when below 1000;
      0 when the message has no digit. */
  function ExtractedIncome(m: string): (income: nat)
    ensures FirstDigitRun(m).None? ==> income == 0
    ensures FirstDigitRun(m).Some? ==>
              var v := DigitsValue(FirstDigitRun(m).value);
              income == if v < 1000 then v * 1000 else v
    ensures income == 0 || income >= 1000
  {
    var n := match FirstDigitRun(m) case None => 0 case Some(run) => DigitsValue(run);
    if n < 1000 then n * 1000 else n
  }

  /** A number written in the message, with no digit before it, is the income
      it yields, scaled by 1000 when below 1000. */
  lemma ExtractedIncomeOfNumber(pre: string, n: nat, post: string)
    requires !HasDigit(pre)
    requires post == [] || !IsDigit(post[0])
    ensures ExtractedIncome(pre + NatToString(n) + post) == if n < 1000 then n * 1000 else n
  {
    FirstNumberIs(pre, n, post);
  }

  /** The same, for a text whose closing starts with a short piece `head`
      that does not start with a digit. */
  lemma FirstNumberBefore(pre: string, n: nat, head: string, tail: string)
    requires !HasDigit(pre)
    requires head != [] && !IsDigit(head[0])
    ensures FirstDigitRun(pre + NatToString(n) + (head + tail)) == Some(NatToString(n))
  {
    FirstNumberIs(pre, n, head + tail);
  }

  /** The first number in a text whose opening has no digit is the number
      written right after that opening. */
  lemma FirstNumberIs(pre: string, n: nat, post: string)
    requires !HasDigit(pre)
    requires post == [] || !IsDigit(post[0])
    ensures FirstDigitRun(pre + NatToString(n) + post) == Some(NatToString(n))
  {
    var m := pre + NatToString(n) + post;
    var v := NatToString(n);
    assert m[|pre|..|pre| + |v|] == v;
    forall p | 0 <= p < |pre| ensures !IsDigit(m[p]) {
      assert m[p] == pre[p];
    }
    if |pre| + |v| < |m| {
      assert m[|pre| + |v|] == post[0];
    }
    assert LeftmostDigitRunAt(m, |pre|, v);
    assert IsDigit(m[|pre|]);
    var i :| LeftmostDigitRunAt(m, i, FirstDigitRun(m).value);
    LeftmostDigitRunUnique(m, i, FirstDigitRun(m).value, |pre|, v);
  }

  /** The keyword test of one category, as the rules write it. */
  function MentionsCategory(m: string, c: Category): (b: bool)
    ensures b <==> AnyKeyword(m, Keywords(c))
  {
    var w := Keywords(c);
    match c
    case Dining =>
      assert Contains(m, "dining") || Contains(m, "restaurant") <==> Contains(m, w[0]) || Contains(m, w[1]);
      Contains(m, "dining") || Contains(m, "restaurant")
    case Travel =>
      assert Contains(m, "travel") || Contains(m, "flight") || Contains(m, "hotel")
         <==> Contains(m, w[0]) || Contains(m, w[1]) || Contains(m, w[2]);
      Contains(m, "travel") || Contains(m, "flight") || Contains(m, "hotel")
    case Shopping =>
      assert Contains(m, "shopping") || Contains(m, "online") <==> Contains(m, w[0]) || Contains(m, w[1]);
      Contains(m, "shopping") || Contains(m, "online")
    case Fuel =>
      assert Contains(m, "fuel") || Contains(m, "petrol") || Contains(m, "gas")
         <==> Contains(m, w[0]) || Contains(m, w[1]) || Contains(m, w[2]);
      Contains(m, "fuel") || Contains(m, "petrol") || Contains(m, "gas")
    case Grocery =>
      assert Contains(m, "grocery") || Contains(m, "groceries") <==> Contains(m, w[0]) || Contains(m, w[1]);
      Contains(m, "grocery") || Contains(m, "groceries")
  }

  /** The order in which the rules test the categories. */
  const CategoryOrder: seq<Category> := [Dining, Travel, Shopping, Fuel, Grocery]

  lemma EveryCategoryListed()
    ensures forall c: Category :: c in CategoryOrder
  {
    forall c: Category ensures c in CategoryOrder {
      assert CategoryOrder[CategoryRank(c)] == c;
    }
  }

  predicate RankBefore(a: Category, b: Category) {
    CategoryRank(a) < CategoryRank(b)
  }

  /** The categories the message mentions, in the fixed order, each once: the
      five conditional `push`es. */
  function SpendingCategories(m: string): (cats: seq<Category>)
    ensures forall c :: c in cats <==> MentionsCategory(m, c)
    ensures SortedBy(cats, RankBefore)
  {
    var keep := (c: Category) => MentionsCategory(m, c);
    assert SortedBy(CategoryOrder, RankBefore);
    FilterSorted(CategoryOrder, RankBefore, keep);
    EveryCategoryListed();
    Filter(CategoryOrder, keep)
  }

  /** A list in rank order whose members are exactly `a` and `b` is `[a, b]`. */
  lemma SortedPair(cats: seq<Category>, a: Category, b: Category)
    requires SortedBy(cats, RankBefore) && RankBefore(a, b)
    requires forall c :: c in cats <==> c == a || c == b
    ensures cats == [a, b]
  {
    assert a in cats && b in cats;
    var i :| 0 <= i < |cats| && cats[i] == a;
    var j :| 0 <= j < |cats| && cats[j] == b;
    assert i < j;
    forall k | 0 <= k < |cats| ensures (cats[k] == a && k == i) || (cats[k] == b && k == j) {
      assert cats[k] in cats;
    }
    assert cats[0] == a;
    assert cats[1] == b;
    assert cats[|cats| - 1] == b;
  }

  /** So no category is listed twice. */
  lemma SpendingCategoriesDistinct(m: string)
    ensures forall i, j :: 0 <= i < j < |SpendingCategories(m)| ==> SpendingCategories(m)[i] != SpendingCategories(m)[j]
  {
  }

  /** One line of the credit-score table: any of the words gives the score. */
  datatype ScoreRule = ScoreRule(words: seq<string>, score: nat)

  /** The credit-score rules in priority order. */
  const ScoreRules: seq<ScoreRule> := [
    ScoreRule(["750", "above 750", "excellent"], 780),
    ScoreRule(["700", "good"], 720),
    ScoreRule(["650", "fair"], 670),
    ScoreRule(["below", "poor"], 600)]

  /** Rule `i` has a word in the message and no rule before it has one. */
  predicate FirstMatchAt(m: string, rules: seq<ScoreRule>, i: nat) {
    && i < |rules|
    && AnyKeyword(m, rules[i].words)
    && forall j :: 0 <= j < i ==> !AnyKeyword(m, rules[j].words)
  }

  /** The score of the first rule with a word in the message, if any. */
  function FirstMatchingScore(m: string, rules: seq<ScoreRule>): (r: Option<nat>)
    ensures r.None? <==> forall i :: 0 <= i < |rules| ==> !AnyKeyword(m, rules[i].words)
    ensures r.Some? ==> exists i: nat :: FirstMatchAt(m, rules, i) && r.value == rules[i].score
  {
    if rules == [] then None
    else if AnyKeyword(m, rules[0].words) then
      assert FirstMatchAt(m, rules, 0);
      Some(rules[0].score)
    else
      var r := FirstMatchingScore(m, rules[1..]);
      assert forall i :: 1 <= i < |rules| ==> rules[i] == rules[1..][i - 1];
      assert r.Some? ==> exists i: nat :: FirstMatchAt(m, rules, i) && r.value == rules[i].score by {
        if r.Some? {
          var i: nat :| FirstMatchAt(m, rules[1..], i) && r.value == rules[1..][i].score;
          assert FirstMatchAt(m, rules, i + 1);
        }
      }
      r
  }

  const DefaultCreditScore: nat := 700

  /** The representative score for the message: the first rule that matches,
      700 when none does. */
  function CreditScoreFrom(m: string): (score: nat)
    ensures score == FirstMatchingScore(m, ScoreRules).GetOr(DefaultCreditScore)
    ensures score in {780, 720, 670, 600, 700}
  {
    var r0 := ScoreRules[0].words;
    var r1 := ScoreRules[1].words;
    var r2 := ScoreRules[2].words;
    var r3 := ScoreRules[3].words;
    assert AnyKeyword(m, r0) <==> Contains(m, "750") || Contains(m, "above 750") || Contains(m, "excellent") by {
      if Contains(m, "750") { assert Contains(m, r0[0]); }
      if Contains(m, "above 750") { assert Contains(m, r0[1]); }
      if Contains(m, "excellent") { assert Contains(m, r0[2]); }
    }
    assert AnyKeyword(m, r1) <==> Contains(m, "700") || Contains(m, "good") by {
      if Contains(m, "700") { assert Contains(m, r1[0]); }
      if Contains(m, "good") { assert Contains(m, r1[1]); }
    }
    assert AnyKeyword(m, r2) <==> Contains(m, "650") || Contains(m, "fair") by {
      if Contains(m, "650") { assert Contains(m, r2[0]); }
      if Contains(m, "fair") { assert Contains(m, r2[1]); }
    }
    assert AnyKeyword(m, r3) <==> Contains(m, "below") || Contains(m, "poor") by {
      if Contains(m, "below") { assert Contains(m, r3[0]); }
      if Contains(m, "poor") { assert Contains(m, r3[1]); }
    }
    assert ScoreRules[3..][1..] == [] && ScoreRules[2..][1..] == ScoreRules[3..];
    assert ScoreRules[1..][1..] == ScoreRules[2..] && ScoreRules[0..][1..] == ScoreRules[1..];
    assert FirstMatchingScore(m, ScoreRules[3..]) == if AnyKeyword(m, r3) then Some(600) else None;
    assert FirstMatchingScore(m, ScoreRules[2..]) == if AnyKeyword(m, r2) then Some(670) else FirstMatchingScore(m, ScoreRules[3..]);
    assert FirstMatchingScore(m, ScoreRules[1..]) == if AnyKeyword(m, r1) then Some(720) else FirstMatchingScore(m, ScoreRules[2..]);
    if Contains(m, "750") || Contains(m, "above 750") || Contains(m, "excellent") then 780
    else if Contains(m, "700") || Contains(m, "good") then 720
    else if Contains(m, "650") || Contains(m, "fair") then 670
    else if Contains(m, "below") || Contains(m, "poor") then 600
    else DefaultCreditScore
  }

  // ---------------------------------------------------------------------------
  // Replies
  // ---------------------------------------------------------------------------

  const Rupee := "\U{20B9}"

  const WelcomePrompt := "I'd be happy to help you find the perfect credit card! Let's start with your approximate monthly income so I can recommend suitable options."

  const GeneralReply := "Thank you for that information! Is there anything specific about credit cards you'd like to know more about?"

  const Greeting := "Hi! I'm your AI credit card advisor. I'll ask you a few questions to recommend the best cards for your needs. Let's start - what's your approximate monthly income in rupees?"

  const WelcomeIncomeOpening := "Great! With a monthly income of " + Rupee
  const WelcomeIncomeClosing := " good options. What are your main spending categories? For example: dining, shopping, travel, fuel, or online purchases?"

  /** The reply to an income given at the welcome stage; the first number in
      it is the income. */
  function WelcomeIncomeReply(income: nat): (t: string)
    ensures FirstDigitRun(t) == Some(NatToString(income))
  {
    FirstNumberBefore(WelcomeIncomeOpening, income, ", you have", WelcomeIncomeClosing);
    WelcomeIncomeOpening + NatToString(income) + (", you have" + WelcomeIncomeClosing)
  }

  const IncomeOpening := "Perfect! With " + Rupee
  const IncomeClosing := " income, you qualify for several great cards. Now, what are your main spending categories? For example: dining out, online shopping, travel, fuel, groceries?"

  /** The reply at the income stage; the first number in it is the income. */
  function IncomeReply(income: nat): (t: string)
    ensures FirstDigitRun(t) == Some(NatToString(income))
  {
    FirstNumberBefore(IncomeOpening, income, " monthly", IncomeClosing);
    IncomeOpening + NatToString(income) + (" monthly" + IncomeClosing)
  }

  function CategoryNames(cats: seq<Category>): (names: seq<string>)
    ensures |names| == |cats|
    ensures forall i :: 0 <= i < |cats| ==> names[i] == CategoryName(cats[i])
  {
    seq(|cats|, (i: int) requires 0 <= i < |cats| => CategoryName(cats[i]))
  }

  const SpendingOpening := "Excellent! I can see you spend on "
  const SpendingClosing := ". One more question - do you know your approximate credit score? This helps me recommend cards you're likely to get approved for. (You can say: above 750, 700-750, 650-700, or below 650)"

  /** The reply at the spending stage names every category the message
      mentioned, in a comma-separated list right after its opening. */
  function SpendingReply(cats: seq<Category>): (t: string)
    ensures forall c :: c in cats ==> Contains(t, CategoryName(c))
  {
    var names := CategoryNames(cats);
    assert forall c :: c in cats ==> Contains(SpendingOpening + Join(names, ", ") + SpendingClosing, CategoryName(c)) by {
      forall c | c in cats ensures Contains(SpendingOpening + Join(names, ", ") + SpendingClosing, CategoryName(c)) {
        var i :| 0 <= i < |cats| && cats[i] == c;
        JoinPartInside(SpendingOpening, names, ", ", SpendingClosing, i);
      }
    }
    SpendingOpening + Join(names, ", ") + SpendingClosing
  }

  /** A template slot: an absent key renders as "undefined". */
  function Slot(v: Option<string>): string {
    v.GetOr("undefined")
  }

  function CategoriesSlot(v: Option<seq<Category>>): string {
    match v
    case None => "undefined"
    case Some(cats) => Join(CategoryNames(cats), ", ")
  }

  const CreditScoreOpening := "Perfect! Based on your profile - income: " + Rupee
  const SpendingLead := ", spending on "
  const ScoreLead := ", and credit score around "
  const CreditScoreClosing := " - I've found the best cards that match your needs! Check out the recommendations below."

  /** The credit-score reply quotes the profile as it was before this
      message: the stored income right after its opening, each stored
      category, and the score the rules chose. */
  function CreditScoreReply(profile: Profile, score: nat): (t: string)
    ensures OccursAt(t, Slot(profile.monthlyIncome), |CreditScoreOpening|)
    ensures Contains(t, ScoreLead + NatToString(score))
    ensures profile.spendingCategories.Some? ==>
              forall c :: c in profile.spendingCategories.value ==> Contains(t, CategoryName(c))
  {
    var income := Slot(profile.monthlyIncome);
    var list := CategoriesSlot(profile.spendingCategories);
    var quoted := ScoreLead + NatToString(score);
    var t := CreditScoreOpening + income + SpendingLead + list + quoted + CreditScoreClosing;
    SixPieces(CreditScoreOpening, income, SpendingLead, list, quoted, CreditScoreClosing);
    assert profile.spendingCategories.Some? ==>
             forall c :: c in profile.spendingCategories.value ==> Contains(t, CategoryName(c)) by {
      if profile.spendingCategories.Some? {
        var cats := profile.spendingCategories.value;
        var names := CategoryNames(cats);
        assert list == Join(names, ", ");
        forall c | c in cats ensures Contains(t, CategoryName(c)) {
          var i :| 0 <= i < |cats| && cats[i] == c;
          var k := JoinOffset(names, ", ", i);
          FourthOfSix(CreditScoreOpening, income, SpendingLead, list, quoted, CreditScoreClosing, names[i], k);
        }
      }
    }
    t
  }

  // ---------------------------------------------------------------------------
  // The stage machine
  // ---------------------------------------------------------------------------

  datatype RuleResponse = RuleResponse(response: string, nextStage: Stage, patch: Profile)

  /** Which of the fixed replies a rule gives, with the values it quotes. */
  datatype Reply =
    | AskIncome
    | WelcomeIncome(income: nat)
    | IncomeAck(income: nat)
    | AskScore(cats: seq<Category>)
    | Confirm(profile: Profile, score: nat)
    | Acknowledge

  /** The text of each reply: the two fixed prompts, and otherwise a text
      that quotes the values the reply carries. */
  function ReplyText(reply: Reply): (t: string)
    ensures reply.AskIncome? ==> t == WelcomePrompt
    ensures reply.Acknowledge? ==> t == GeneralReply
    ensures reply.WelcomeIncome? || reply.IncomeAck? ==> FirstDigitRun(t) == Some(NatToString(reply.income))
    ensures reply.AskScore? ==> forall c :: c in reply.cats ==> Contains(t, CategoryName(c))
    ensures reply.Confirm? ==> Contains(t, ScoreLead + NatToString(reply.score))
  {
    match reply
    case AskIncome => WelcomePrompt
    case WelcomeIncome(income) => WelcomeIncomeReply(income)
    case IncomeAck(income) => IncomeReply(income)
    case AskScore(cats) => SpendingReply(cats)
    case Confirm(profile, score) => CreditScoreReply(profile, score)
    case Acknowledge => GeneralReply
  }

  /** What the rules decide for an already lowercased message `m`. */
  datatype Decision = Decision(reply: Reply, nextStage: Stage, patch: Profile)

  function Decide(m: string, profile: Profile, stage: Stage): (d: Decision)
    ensures Rank(d.nextStage) > Rank(stage) || (stage == General && d.nextStage == General)
    ensures d.nextStage == Spending <==> stage == Income || (stage == Welcome && MentionsIncome(m))
    ensures d.nextStage == Spending ==>
              d.patch == Profile(Some(NatToString(ExtractedIncome(m))), None, None)
    ensures stage == Welcome && !MentionsIncome(m) ==>
              d.nextStage == Income && d.patch == EmptyProfile && d.reply == AskIncome
    ensures stage == Spending ==>
              d.nextStage == CreditScore && d.patch == Profile(None, Some(SpendingCategories(m)), None)
    ensures stage == CreditScore ==>
              d.nextStage == Recommendations && d.patch == Profile(None, None, Some(NatToString(CreditScoreFrom(m))))
    ensures stage == Recommendations || stage == General ==>
              d.nextStage == General && d.patch == EmptyProfile && d.reply == Acknowledge
    ensures stage == Welcome && MentionsIncome(m) ==> d.reply == WelcomeIncome(ExtractedIncome(m))
    ensures stage == Income ==> d.reply == IncomeAck(ExtractedIncome(m))
    ensures stage == Spending ==> d.reply == AskScore(SpendingCategories(m))
    ensures stage == CreditScore ==> d.reply == Confirm(profile, CreditScoreFrom(m))
  {
    match stage
    case Welcome =>
      if Contains(m, "income") || FirstDigitRun(m).Some? then
        var income := ExtractedIncome(m);
        Decision(WelcomeIncome(income), Spending, Profile(Some(NatToString(income)), None, None))
      else
        Decision(AskIncome, Income, EmptyProfile)
    case Income =>
      var income := ExtractedIncome(m);
      Decision(IncomeAck(income), Spending, Profile(Some(NatToString(income)), None, None))
    case Spending =>
      var cats := SpendingCategories(m);
      Decision(AskScore(cats), CreditScore, Profile(None, Some(cats), None))
    case CreditScore =>
      var score := CreditScoreFrom(m);
      Decision(Confirm(profile, score), Recommendations, Profile(None, None, Some(NatToString(score))))
    case _ =>
      Decision(Acknowledge, General, EmptyProfile)
  }

  /** `generateRuleBasedResponse`: the reply, the next stage and the profile
      keys to merge, from the message (lowercased first), the profile and the
      stage. */
  function GenerateRuleBasedResponse(userMessage: string, profile: Profile, stage: Stage): (r: RuleResponse)
    ensures Rank(r.nextStage) > Rank(stage) || (stage == General && r.nextStage == General)
    ensures r.nextStage == Spending <==> stage == Income || (stage == Welcome && MentionsIncome(ToLower(userMessage)))
    ensures r.nextStage == Spending ==>
              r.patch == Profile(Some(NatToString(ExtractedIncome(ToLower(userMessage)))), None, None)
    ensures stage == Welcome && !MentionsIncome(ToLower(userMessage)) ==>
              r.nextStage == Income && r.patch == EmptyProfile && r.response == WelcomePrompt
    ensures stage == Spending ==>
              r.nextStage == CreditScore && r.patch == Profile(None, Some(SpendingCategories(ToLower(userMessage))), None)
    ensures stage == CreditScore ==>
              r.nextStage == Recommendations && r.patch == Profile(None, None, Some(NatToString(CreditScoreFrom(ToLower(userMessage)))))
    ensures stage == Recommendations || stage == General ==>
              r.nextStage == General && r.patch == EmptyProfile && r.response == GeneralReply
  {
    var d := Decide(ToLower(userMessage), profile, stage);
    RuleResponse(ReplyText(d.reply), d.nextStage, d.patch)
  }

  /** The reply text of each stage that records an answer. */
  lemma {:induction false} RuleReplyTexts(userMessage: string, profile: Profile, stage: Stage)
    ensures var m := ToLower(userMessage);
            var r := GenerateRuleBasedResponse(userMessage, profile, stage);
            && (stage == Welcome && MentionsIncome(m) ==> r.response == WelcomeIncomeReply(ExtractedIncome(m)))
            && (stage == Income ==> r.response == IncomeReply(ExtractedIncome(m)))
            && (stage == Spending ==> r.response == SpendingReply(SpendingCategories(m)))
            && (stage == CreditScore ==> r.response == CreditScoreReply(profile, CreditScoreFrom(m)))
  {
    var d := Decide(ToLower(userMessage), profile, stage);
    assert GenerateRuleBasedResponse(userMessage, profile, stage).response == ReplyText(d.reply);
  }

  /** The reply says what the patch stores: the income it records is the
      first number in the reply, each category it records is named in the
      reply, and the score it records is quoted in the reply. */
  lemma ReplyQuotesRecordedAnswer(userMessage: string, profile: Profile, stage: Stage)
    ensures var r := GenerateRuleBasedResponse(userMessage, profile, stage);
            r.nextStage == Spending ==> FirstDigitRun(r.response) == r.patch.monthlyIncome
    ensures var r := GenerateRuleBasedResponse(userMessage, profile, stage);
            r.nextStage == CreditScore ==>
              forall c :: c in r.patch.spendingCategories.value ==> Contains(r.response, CategoryName(c))
    ensures var r := GenerateRuleBasedResponse(userMessage, profile, stage);
            r.nextStage == Recommendations ==> Contains(r.response, ScoreLead + r.patch.creditScore.value)
  {
    var d := Decide(ToLower(userMessage), profile, stage);
    assert GenerateRuleBasedResponse(userMessage, profile, stage).response == ReplyText(d.reply);
  }

  /** Lowercasing twice is lowercasing once. */
  lemma ToLowerIdempotent(s: string)
    ensures ToLower(ToLower(s)) == ToLower(s)
  {
  }

  /** The rules see only the lowercased message: a message and its lowercase
      get the same answer. */
  lemma RulesIgnoreCase(userMessage: string, profile: Profile, stage: Stage)
    ensures GenerateRuleBasedResponse(ToLower(userMessage), profile, stage)
         == GenerateRuleBasedResponse(userMessage, profile, stage)
  {
    ToLowerIdempotent(userMessage);
  }

  /** The stored income and score are decimal strings that the ranker reads
      back as the integers the rules chose. */
  lemma StoredValuesReadBack(userMessage: string, profile: Profile, stage: Stage, other: Option<string>)
    ensures var r := GenerateRuleBasedResponse(userMessage, profile, stage);
            r.patch.monthlyIncome.Some? ==>
              && Truthy(r.patch.monthlyIncome)
              && IncomeOf(Preferences(r.patch.monthlyIncome, other)) == ExtractedIncome(ToLower(userMessage))
    ensures var r := GenerateRuleBasedResponse(userMessage, profile, stage);
            r.patch.creditScore.Some? ==>
              && Truthy(r.patch.creditScore)
              && ParseInt(r.patch.creditScore.value) == Some(CreditScoreFrom(ToLower(userMessage)))
  {
    ParseIntOfNatToString(ExtractedIncome(ToLower(userMessage)));
    ParseIntOfNatToString(CreditScoreFrom(ToLower(userMessage)));
  }

  /** "below 650" falls under the 650 rule, which comes first. */
  lemma BelowSixFiftyFacts(m: string)
    requires m == "below 650"
    ensures CreditScoreFrom(m) == 670
  {
    ContainsAt(m, "650", 6);
    NotContainsMissingChar(m, "750", '7');
    NotContainsMissingChar(m, "above 750", 'a');
    NotContainsMissingChar(m, "excellent", 'x');
    NotContainsMissingChar(m, "700", '7');
    NotContainsMissingChar(m, "good", 'g');
  }

  /** A message reading "below 650" in any capitalisation stores a fair
      score of 670. */
  lemma BelowSixFiftyIsFair(message: string, profile: Profile)
    requires ToLower(message) == "below 650"
    ensures var r := GenerateRuleBasedResponse(message, profile, CreditScore);
            r.nextStage == Recommendations && r.patch.creditScore == Some("670")
  {
    BelowSixFiftyFacts(ToLower(message));
    assert NatToString(670) == "670";
  }

  /** "i earn 50 a month" mentions an income, and the 50 reads as 50000. */
  lemma ShorthandIncomeFacts(m: string)
    requires m == "i earn 50 a month"
    ensures MentionsIncome(m)
    ensures ExtractedIncome(m) == 50000
    ensures NatToString(ExtractedIncome(m)) == "50000"
  {
    assert IsDigit(m[7]);
    assert NatToString(5) == "5";
    assert NatToString(50) == "50";
    assert "i earn " + "50" + " a month" == m;
    ExtractedIncomeOfNumber("i earn ", 50, " a month");
    assert NatToString(500) == "500";
    assert NatToString(5000) == "5000";
    assert NatToString(50000) == "50000";
  }

  /** "I earn 50 a month" in the welcome stage moves on to spending with an
      income of 50000. */
  lemma ScenarioShorthandIncome(message: string, profile: Profile)
    requires ToLower(message) == "i earn 50 a month"
    ensures var r := GenerateRuleBasedResponse(message, profile, Welcome);
            r.nextStage == Spending && r.patch.monthlyIncome == Some("50000")
  {
    ShorthandIncomeFacts(ToLower(message));
  }

  /** Of the category keywords, "i love dining and travel" holds "dining"
      and "travel" ... */
  lemma DiningAndTravelMentioned(m: string)
    requires m == "i love dining and travel"
    ensures MentionsCategory(m, Dining) && MentionsCategory(m, Travel)
  {
    ContainsAt(m, "dining", 7);
    ContainsAt(m, "travel", 18);
  }

  /** ... and none of the shopping, fuel or grocery keywords. */
  lemma ShoppingNotMentioned(m: string)
    requires m == "i love dining and travel"
    ensures !MentionsCategory(m, Shopping)
  {
    NotContainsMissingChar(m, "shopping", 'h');
    forall k: nat | k <= |m| - 6 ensures !OccursAt(m, "online", k) {
      assert m[k..k + 6][0] == m[k];
      assert m[k..k + 6][1] == m[k + 1];
    }
  }

  lemma FuelNotMentioned(m: string)
    requires m == "i love dining and travel"
    ensures !MentionsCategory(m, Fuel)
  {
    NotContainsMissingChar(m, "fuel", 'f');
    NotContainsMissingChar(m, "petrol", 'p');
    NotContainsMissingChar(m, "gas", 's');
  }

  lemma GroceryNotMentioned(m: string)
    requires m == "i love dining and travel"
    ensures !MentionsCategory(m, Grocery)
  {
    NotContainsMissingChar(m, "grocery", 'y');
    NotContainsMissingChar(m, "groceries", 'c');
  }

  lemma TwoCategoriesFacts(m: string)
    requires m == "i love dining and travel"
    ensures SpendingCategories(m) == [Dining, Travel]
  {
    DiningAndTravelMentioned(m);
    ShoppingNotMentioned(m);
    FuelNotMentioned(m);
    GroceryNotMentioned(m);
    var cats := SpendingCategories(m);
    forall c ensures c in cats <==> c == Dining || c == Travel {
      assert MentionsCategory(m, c) <==> c == Dining || c == Travel;
    }
    SortedPair(cats, Dining, Travel);
  }

  /** "I love dining and travel" records dining then travel. */
  lemma ScenarioTwoCategories(message: string, profile: Profile)
    requires ToLower(message) == "i love dining and travel"
    ensures var r := GenerateRuleBasedResponse(message, profile, Spending);
            r.nextStage == CreditScore && r.patch.spendingCategories == Some([Dining, Travel])
  {
    TwoCategoriesFacts(ToLower(message));
  }

  /** "above 750" in the credit-score stage stores 780. */
  lemma ScenarioExcellentScore(message: string, profile: Profile)
    requires ToLower(message) == "above 750"
    ensures var r := GenerateRuleBasedResponse(message, profile, CreditScore);
            r.nextStage == Recommendations && r.patch.creditScore == Some("780")
  {
    ContainsAt(ToLower(message), "750", 6);
    assert NatToString(780) == "780";
  }

  // ---------------------------------------------------------------------------
  // Conversations and the session table
  // ---------------------------------------------------------------------------

  datatype Role = User | Assistant

  datatype ChatMessage = ChatMessage(role: Role, content: string)

  datatype Conversation = Conversation(messages: seq<ChatMessage>, profile: Profile, stage: Stage)

  /** A new session: one assistant greeting, an empty profile, stage income. */
  const NewConversation := Conversation([ChatMessage(Assistant, Greeting)], EmptyProfile, Income)

  /** What every stored conversation satisfies: messages alternate from an
      assistant greeting, and each stage past a question has that question's
      answer in the profile. */
  predicate WellFormed(c: Conversation) {
    && Alternates(c.messages)
    && AnswersPresent(c.profile, c.stage)
  }

  /** The welcome stage is never stored, and each stage past a question has
      that question's answer in the profile. */
  predicate AnswersPresent(profile: Profile, stage: Stage) {
    && stage != Welcome
    && (Rank(stage) >= Rank(Spending) ==> Truthy(profile.monthlyIncome))
    && (Rank(stage) >= Rank(CreditScore) ==> profile.spendingCategories.Some?)
    && (Rank(stage) >= Rank(Recommendations) ==> Truthy(profile.creditScore))
  }

  /** What a decision records about the question of the stage it leaves:
      it moves forward, and the patch answers that question (with a
      non-empty text where the answer is a number) and touches no earlier
      answer. */
  predicate RecordsAnswer(stage: Stage, d: Decision) {
    && (Rank(d.nextStage) > Rank(stage) || (stage == General && d.nextStage == General))
    && (stage == Welcome ==> d.nextStage == Income || d.nextStage == Spending)
    && (stage == Income ==> d.nextStage == Spending)
    && (d.nextStage == Spending ==> Truthy(d.patch.monthlyIncome))
    && (stage == Spending ==>
          d.nextStage == CreditScore && d.patch.monthlyIncome.None? && d.patch.spendingCategories.Some?)
    && (stage == CreditScore ==>
          d.nextStage == Recommendations && d.patch.monthlyIncome.None? && d.patch.spendingCategories.None?
          && Truthy(d.patch.creditScore))
    && (stage == Recommendations || stage == General ==> d.patch == EmptyProfile)
  }

  /** Every rule records the answer of the stage it leaves. */
  lemma DecideRecordsAnswer(m: string, profile: Profile, stage: Stage)
    ensures RecordsAnswer(stage, Decide(m, profile, stage))
  {
    assert |NatToString(ExtractedIncome(m))| > 0;
    assert |NatToString(CreditScoreFrom(m))| > 0;
  }

  /** Merging a patch that records the answer keeps the answers present: the
      stage it moves to is one whose answers the merged profile holds. */
  lemma PatchKeepsAnswers(profile: Profile, stage: Stage, d: Decision)
    requires AnswersPresent(profile, stage) && RecordsAnswer(stage, d)
    ensures AnswersPresent(Merge(profile, d.patch), d.nextStage)
  {
    var merged := Merge(profile, d.patch);
    if d.nextStage == CreditScore {
      assert stage == Spending;
    } else if d.nextStage == Recommendations {
      assert stage == CreditScore;
    }
  }

  /** Applying a rule keeps the answers present. */
  lemma RuleKeepsAnswers(m: string, profile: Profile, stage: Stage)
    requires AnswersPresent(profile, stage)
    ensures var d := Decide(m, profile, stage);
            AnswersPresent(Merge(profile, d.patch), d.nextStage)
  {
    DecideRecordsAnswer(m, profile, stage);
    PatchKeepsAnswers(profile, stage, Decide(m, profile, stage));
  }

  /** An odd number of messages, the assistant's at even positions and the
      user's at odd ones. */
  predicate Alternates(messages: seq<ChatMessage>) {
    && |messages| % 2 == 1
    && (forall i :: 0 <= i < |messages| ==> messages[i].role == if i % 2 == 0 then Assistant else User)
  }

  /** Proof helper: pushing two messages one at a time appends both. */
  lemma AppendTwo(messages: seq<ChatMessage>, first: ChatMessage, second: ChatMessage)
    ensures messages + [first] + [second] == messages + [first, second]
  {
  }

  /** A user message followed by an assistant reply keeps the alternation. */
  lemma TurnAlternates(messages: seq<ChatMessage>, question: string, answer: string)
    requires Alternates(messages)
    ensures Alternates(messages + [ChatMessage(User, question), ChatMessage(Assistant, answer)])
  {
    var longer := messages + [ChatMessage(User, question), ChatMessage(Assistant, answer)];
    forall i | 0 <= i < |longer| ensures longer[i].role == if i % 2 == 0 then Assistant else User {
      if i < |messages| {
        assert longer[i] == messages[i];
      }
    }
  }

  lemma NewConversationWellFormed()
    ensures WellFormed(NewConversation)
  {
  }

  /** One successful chat turn on a conversation: the user message appended,
      the profile merged with the rule's patch, the stage advanced and the
      reply appended. */
  function Advance(c: Conversation, message: string): (d: Conversation)
    ensures var r := GenerateRuleBasedResponse(message, c.profile, c.stage);
            && d.messages == c.messages + [ChatMessage(User, message), ChatMessage(Assistant, r.response)]
            && d.profile == Merge(c.profile, r.patch)
            && d.stage == r.nextStage
    ensures WellFormed(c) ==> WellFormed(d)
  {
    var r := GenerateRuleBasedResponse(message, c.profile, c.stage);
    var d := Conversation(c.messages + [ChatMessage(User, message), ChatMessage(Assistant, r.response)],
                          Merge(c.profile, r.patch), r.nextStage);
    assert WellFormed(c) ==> WellFormed(d) by {
      if WellFormed(c) {
        TurnAlternates(c.messages, message, r.response);
        RuleKeepsAnswers(ToLower(message), c.profile, c.stage);
      }
    }
    d
  }

  /** The route's in-place turn on a conversation: push the user message,
      apply the rules to the profile and stage as they were, merge the patch,
      set the stage and push the reply. */
  method Turn(c: Conversation, message: string) returns (d: Conversation, reply: string)
    ensures d == Advance(c, message)
    ensures reply == d.messages[|d.messages| - 1].content
  {
    d := c;
    d := d.(messages := d.messages + [ChatMessage(User, message)]);
    var rule := GenerateRuleBasedResponse(message, d.profile, d.stage);
    d := d.(profile := Merge(d.profile, rule.patch), stage := rule.nextStage);
    d := d.(messages := d.messages + [ChatMessage(Assistant, rule.response)]);
    AppendTwo(c.messages, ChatMessage(User, message), ChatMessage(Assistant, rule.response));
    reply := rule.response;
  }

  /** The stored conversation for the session, or a fresh one. */
  function SessionOrNew(sessions: map<string, Conversation>, sessionId: string): (c: Conversation)
    ensures sessionId in sessions ==> c == sessions[sessionId]
    ensures sessionId !in sessions ==> c.messages == [ChatMessage(Assistant, Greeting)] && c.profile == EmptyProfile && c.stage == Income
    ensures (forall k :: k in sessions ==> WellFormed(sessions[k])) ==> WellFormed(c)
  {
    NewConversationWellFormed();
    if sessionId in sessions then sessions[sessionId] else NewConversation
  }

  /** What the chat route answers. */
  datatype ChatResult =
    | BadRequest
    | ChatReply(message: string, recommendations: seq<CreditCard>, profile: Profile, stage: Stage)

  /** Recommendations are fetched only once the stage is recommendations and
      the profile has a (truthy) income. */
  function RecommendationsFor(c: Conversation, table: seq<CreditCard>): (r: seq<CreditCard>)
    ensures r != [] ==> c.stage == Recommendations && Truthy(c.profile.monthlyIncome)
    ensures |r| <= 5
  {
    if c.stage == Recommendations && Truthy(c.profile.monthlyIncome) then RecommendedCards(table, PreferencesOf(c.profile)) else []
  }

  /** In a well-formed conversation that reached the recommendations stage the
      income is present, so the reply carries the ranker's cards. */
  lemma RecommendationsAtLastStage(c: Conversation, table: seq<CreditCard>)
    requires WellFormed(c) && c.stage == Recommendations
    ensures RecommendationsFor(c, table) == RecommendedCards(table, PreferencesOf(c.profile))
  {
    assert Truthy(c.profile.monthlyIncome);
  }

  /** The process-wide table of conversations, keyed by session id. */
  class ConversationState {
    var sessions: map<string, Conversation>

    ghost predicate Valid()
      reads this
    {
      forall k :: k in sessions ==> WellFormed(sessions[k])
    }

    constructor ()
      ensures Valid() && sessions == map[]
    {
      sessions := map[];
    }

    /** `POST /api/chat`. A missing (falsy) message or session id is a bad
        request and changes nothing; otherwise the session's conversation,
        created if new, advances by one turn and only that entry changes. */
    method Chat(message: string, sessionId: string, store: Storage) returns (r: ChatResult)
      requires Valid()
      modifies this
      ensures Valid()
      ensures message == "" || sessionId == "" ==> r == BadRequest && sessions == old(sessions)
      ensures message != "" && sessionId != "" ==>
                var d := Advance(SessionOrNew(old(sessions), sessionId), message);
                && sessions == old(sessions)[sessionId := d]
                && r == ChatReply(d.messages[|d.messages| - 1].content, RecommendationsFor(d, store.cards), d.profile, d.stage)
      ensures forall k :: k in old(sessions) && k != sessionId ==> k in sessions && sessions[k] == old(sessions)[k]
      ensures forall k :: k in sessions ==> k in old(sessions) || k == sessionId
    {
      if message == "" || sessionId == "" {
        return BadRequest;
      }
      var conversation := SessionOrNew(sessions, sessionId);
      var reply;
      conversation, reply := Turn(conversation, message);
      sessions := sessions[sessionId := conversation];
      var recommendations := RecommendationsFor(conversation, store.cards);
      r := ChatReply(reply, recommendations, conversation.profile, conversation.stage);
    }

    /** `GET /api/chat/:sessionId/history`. */
    function History(sessionId: string): (h: seq<ChatMessage>)
      reads this
      ensures sessionId !in sessions ==> h == []
      ensures sessionId in sessions ==> h == sessions[sessionId].messages
      ensures Valid() && h != [] ==> h[0].role == Assistant && h[|h| - 1].role == Assistant
    {
      if sessionId in sessions then sessions[sessionId].messages else []
    }
  }

  // ---------------------------------------------------------------------------
  // Card routes
  // ---------------------------------------------------------------------------

  /** `parseInt(raw) || fallback`: a missing, unparseable or zero value gives
      the fallback. */
  function QueryInt(raw: Option<string>, fallback: nat): (n: nat)
    ensures raw.Some? && ParseInt(raw.value).Some? && ParseInt(raw.value).value != 0 ==> n == ParseInt(raw.value).value
    ensures raw.None? || ParseInt(raw.value).None? || ParseInt(raw.value) == Some(0) ==> n == fallback
    ensures fallback > 0 ==> n > 0
  {
    match raw
    case None => fallback
    case Some(s) =>
      match ParseInt(s)
      case None => fallback
      case Some(v) => if v == 0 then fallback else v
  }

  /** A positive number sent as its decimal text arrives unchanged. */
  lemma QueryIntOfRendered(n: nat, fallback: nat)
    requires n > 0
    ensures QueryInt(Some(NatToString(n)), fallback) == n
  {
    ParseIntOfNatToString(n);
  }

  /** The query string of `GET /api/cards`; an absent parameter is `None`. */
  datatype CardsQuery = CardsQuery(
    page: Option<string>, limit: Option<string>,
    search: Option<string>, issuer: Option<string>, cardType: Option<string>, sortBy: Option<string>)

  /** An absent filter is undefined, which is falsy like "". */
  function FiltersOf(q: CardsQuery): CardFilters {
    CardFilters(q.search.GetOr(""), q.issuer.GetOr(""), q.cardType.GetOr(""), q.sortBy.GetOr(""))
  }

  function PageOf(q: CardsQuery): nat {
    QueryInt(q.page, 1)
  }

  function LimitOf(q: CardsQuery): nat {
    QueryInt(q.limit, 12)
  }

  /** The first row of a page: `(page - 1) * limit`. */
  function PageOffset(page: nat, limit: nat): (offset: nat)
    requires page >= 1
    ensures page == 1 ==> offset == 0
  {
    (page - 1) * limit
  }

  /** Each later page starts one limit further than the page before it. */
  lemma NextPageOffset(page: nat, limit: nat)
    requires page >= 1
    ensures PageOffset(page + 1, limit) == PageOffset(page, limit) + limit
  {
  }

  /** `GET /api/cards`: page 1 and 12 per page unless given, starting at
      offset (page - 1) * limit. */
  function CardsRoute(table: seq<CreditCard>, q: CardsQuery): (r: CardPage)
    ensures r.total == |MatchingCards(table, FiltersOf(q))|
    ensures |r.cards| <= LimitOf(q)
    ensures |r.cards| > 0 <==> PageOffset(PageOf(q), LimitOf(q)) < r.total
    ensures var offset := PageOffset(PageOf(q), LimitOf(q));
            |r.cards| == if offset >= r.total then 0
                         else if LimitOf(q) < r.total - offset then LimitOf(q)
                         else r.total - offset
    ensures forall k :: 0 <= k < |r.cards| ==>
              PageOffset(PageOf(q), LimitOf(q)) + k < |OrderedMatches(table, FiltersOf(q))| &&
              r.cards[k] == OrderedMatches(table, FiltersOf(q))[PageOffset(PageOf(q), LimitOf(q)) + k]
  {
    var limit := LimitOf(q);
    var offset := PageOffset(PageOf(q), limit);
    GetCards(table, offset, limit, FiltersOf(q))
  }

  /** Page 2 of 12 holds the 13th to 24th matches in the chosen order. */
  lemma SecondPageOfTwelve(table: seq<CreditCard>, q: CardsQuery)
    requires q.page == Some("2") && q.limit == Some("12")
    ensures var n := |OrderedMatches(table, FiltersOf(q))|;
            |CardsRoute(table, q).cards| == if n <= 12 then 0 else if n - 12 < 12 then n - 12 else 12
    ensures forall k :: 0 <= k < |CardsRoute(table, q).cards| ==>
              12 + k < |OrderedMatches(table, FiltersOf(q))| &&
              CardsRoute(table, q).cards[k] == OrderedMatches(table, FiltersOf(q))[12 + k]
  {
    assert ParseInt("2") == Some(2);
    assert ParseInt("12") == Some(12);
    assert PageOf(q) == 2 && LimitOf(q) == 12;
    assert PageOffset(1, 12) == 0;
    assert PageOffset(2, 12) == 12;
    var r := CardsRoute(table, q);
    var ordered := OrderedMatches(table, FiltersOf(q));
    forall k | 0 <= k < |r.cards| ensures 12 + k < |ordered| && r.cards[k] == ordered[12 + k] {
      assert r.cards[k] == ordered[PageOffset(PageOf(q), LimitOf(q)) + k];
    }
  }

  datatype CardResult = NotFound | Found(card: CreditCard)

  /** `GET /api/cards/:id` for a numeric id: 404 exactly when no row has it. */
  function CardRoute(table: seq<CreditCard>, id: int): (r: CardResult)
    ensures r.NotFound? <==> forall c :: c in table ==> c.id != id
    ensures r.Found? ==> r.card in table && r.card.id == id
  {
    match CardById(table, id)
    case None => NotFound
    case Some(c) => Found(c)
  }
}
