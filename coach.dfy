/** The advice engine of the coach screen (src/components/Coach.jsx): a
    stateless rule evaluator that lists messages about today's totals, puts
    keyword answers in front, and replies with the first two. */
module Coach {
  import opened Numeric
  import opened Text
  import opened Ledger
  import opened Wrappers

  /** The messages the coach can give. The two calorie messages carry the
      rounded number of kcal they report. */
  datatype Tip =
    | UnderTarget(kcal: int)
    | OverTarget(kcal: int)
    | LowProtein
    | CarbHeavy
    | Encourage
    | KwProtein
    | KwBreakfast
    | KwFatLoss

  /** The messages answering a keyword in the question. */
  predicate IsKeywordTip(t: Tip)
  {
    t.KwProtein? || t.KwBreakfast? || t.KwFatLoss?
  }

  // The fixed parts of the message texts.
  const UnderPrefix := "You're about "
  const UnderSuffix :=
    " kcal under target. Consider a balanced snack like Greek yogurt with berries or a handful of nuts."
  const OverPrefix := "You're about "
  const OverSuffix := " kcal over target. A light walk or reducing dinner carbs can help balance it."
  const LowProteinText := "Protein seems low today. Add eggs, paneer, tofu, or whey to hit your target."
  const CarbHeavyText := "Your carbs are quite high vs protein. Try swapping some carbs for lean protein."
  const EncourageText := "Great work! Keep meals colorful and hydrate well. Aim for 7–8k steps today."
  const KwProteinText := "High-protein options: eggs, Greek yogurt, chicken, paneer, tofu, legumes."
  const KwBreakfastText :=
    "Quick breakfast ideas: oats + whey, veggie omelette, Greek yogurt parfait, peanut butter toast + banana."
  const KwFatLossText :=
    "For fat loss: 300–500 kcal deficit, 1.6–2.2 g/kg protein, 8000 steps/day, resistance training 3x/week."

  /** The text of each message; the calorie messages write their number in
      decimal between the fixed parts. */
  function TipText(t: Tip): (r: string)
    ensures r != ""
  {
    match t
    case UnderTarget(n) => UnderPrefix + IntToString(n) + UnderSuffix
    case OverTarget(n) => OverPrefix + IntToString(n) + OverSuffix
    case LowProtein => LowProteinText
    case CarbHeavy => CarbHeavyText
    case Encourage => EncourageText
    case KwProtein => KwProteinText
    case KwBreakfast => KwBreakfastText
    case KwFatLoss => KwFatLossText
  }

  /** How far today is below the target, counting burned calories as
      earned back. Negative when over. */
  function Gap(totals: Totals, targetCalories: int): (r: real)
    ensures r > 0.0 <==> totals.food.calories - totals.burned < targetCalories as real
    ensures r == 0.0 <==> totals.food.calories - totals.burned == targetCalories as real
  {
    targetCalories as real - totals.food.calories + totals.burned
  }

  /** The rules fired by today's totals, independent of the question. */
  predicate UnderFires(totals: Totals, targetCalories: int) { Gap(totals, targetCalories) > 120.0 }
  predicate OverFires(totals: Totals, targetCalories: int) { Gap(totals, targetCalories) < -120.0 }
  predicate LowProteinFires(totals: Totals) { totals.food.protein < 80.0 }
  predicate CarbHeavyFires(totals: Totals) { totals.food.carbs > totals.food.protein * 3.0 }

  /** The rule messages that fired, in rule order: under or over target,
      low protein, carbs against protein. */
  function FiredTips(totals: Totals, targetCalories: int): seq<Tip>
  {
    var g := Gap(totals, targetCalories);
    (if g > 120.0 then [UnderTarget(Round(g))] else [])
    + (if g < -120.0 then [OverTarget(Abs(Round(g)))] else [])
    + (if LowProteinFires(totals) then [LowProtein] else [])
    + (if CarbHeavyFires(totals) then [CarbHeavy] else [])
  }

  /** The rule part of the message list: what fired, or encouragement when
      nothing did. */
  function RuleTips(totals: Totals, targetCalories: int): (r: seq<Tip>)
    ensures |r| >= 1
  {
    var fired := FiredTips(totals, targetCalories);
    if fired == [] then [Encourage] else fired
  }

  /** What the rule part says: the calorie message reports the rounded gap
      (its absolute value when over), under and over never appear together,
      each other rule message appears exactly when its rule holds, and
      encouragement appears exactly when no rule fired, and then alone. */
  lemma RuleTipsMeaning(totals: Totals, targetCalories: int)
    ensures var r, g := RuleTips(totals, targetCalories), Gap(totals, targetCalories);
      && |r| >= 1
      && (forall t :: t in r ==> !IsKeywordTip(t))
      && (UnderFires(totals, targetCalories) <==> UnderTarget(Round(g)) in r)
      && (OverFires(totals, targetCalories) <==> OverTarget(Abs(Round(g))) in r)
      && (forall t :: t in r && t.UnderTarget? ==> t.kcal == Round(g))
      && (forall t :: t in r && t.OverTarget? ==> t.kcal == Abs(Round(g)))
      && (forall i, j :: 0 <= i < |r| && 0 <= j < |r| && r[i].UnderTarget? ==> !r[j].OverTarget?)
      && (LowProtein in r <==> LowProteinFires(totals))
      && (CarbHeavy in r <==> CarbHeavyFires(totals))
      && (Encourage in r <==>
           !UnderFires(totals, targetCalories) && !OverFires(totals, targetCalories)
           && !LowProteinFires(totals) && !CarbHeavyFires(totals))
      && (Encourage in r ==> r == [Encourage])
  {
  }

  /** The position of each rule message in the rule part: the calorie
      message, then low protein, then carbs against protein. */
  function RuleRank(t: Tip): nat
  {
    match t
    case UnderTarget(_) => 0
    case OverTarget(_) => 0
    case LowProtein => 1
    case CarbHeavy => 2
    case _ => 3
  }

  /** The rule messages come in rule order, each at most once, so the rule
      part holds at most three messages. */
  lemma RuleTipsOrdered(totals: Totals, targetCalories: int)
    ensures var r := RuleTips(totals, targetCalories);
      && |r| <= 3
      && forall i, j :: 0 <= i < j < |r| ==> RuleRank(r[i]) < RuleRank(r[j])
  {
    var r := RuleTips(totals, targetCalories);
    var g := Gap(totals, targetCalories);
    var cal: seq<Tip> := if g > 120.0 then [UnderTarget(Round(g))] else if g < -120.0 then [OverTarget(Abs(Round(g)))] else [];
    var low: seq<Tip> := if LowProteinFires(totals) then [LowProtein] else [];
    var carb: seq<Tip> := if CarbHeavyFires(totals) then [CarbHeavy] else [];
    assert FiredTips(totals, targetCalories) == cal + low + carb;
    forall i, j | 0 <= i < j < |r| ensures RuleRank(r[i]) < RuleRank(r[j]) {
      if r != [Encourage] {
        assert r == cal + low + carb;
        assert forall k :: 0 <= k < |cal| ==> RuleRank(r[k]) == 0;
        assert forall k :: |cal| <= k < |cal| + |low| ==> RuleRank(r[k]) == 1;
        assert forall k :: |cal| + |low| <= k < |r| ==> RuleRank(r[k]) == 2;
      }
    }
  }

  /** The keyword tests, on the lower-cased question. */
  predicate AsksProtein(question: string) { Contains(Lower(question), "protein") }
  predicate AsksBreakfast(question: string) { Contains(Lower(question), "breakfast") }
  predicate AsksFatLoss(question: string)
  {
    Contains(Lower(question), "fat loss") || Contains(Lower(question), "lose weight")
  }

  /** The keyword answers as they end up at the front of the list, for an
      already lower-cased question: each match is put before the earlier
      ones, so fat loss, then breakfast, then protein. */
  function KeywordFront(q: string): seq<Tip>
  {
    Unshifted(Contains(q, "fat loss") || Contains(q, "lose weight"), Contains(q, "breakfast"), Contains(q, "protein"))
  }

  /** The answers put in front for the keywords found. */
  function Unshifted(fatLoss: bool, breakfast: bool, protein: bool): seq<Tip>
  {
    (if fatLoss then [KwFatLoss] else [])
    + (if breakfast then [KwBreakfast] else [])
    + (if protein then [KwProtein] else [])
  }

  /** The keyword answers for a question as typed. */
  function KeywordTips(question: string): (r: seq<Tip>)
    ensures |r| <= 3
    ensures r == [] <==> !AsksProtein(question) && !AsksBreakfast(question) && !AsksFatLoss(question)
  {
    KeywordFront(Lower(question))
  }

  /** Each keyword answer appears exactly when its keyword is asked about. */
  lemma KeywordTipsMeaning(question: string)
    ensures var r := KeywordTips(question);
      && (forall t :: t in r ==> IsKeywordTip(t))
      && (KwProtein in r <==> AsksProtein(question))
      && (KwBreakfast in r <==> AsksBreakfast(question))
      && (KwFatLoss in r <==> AsksFatLoss(question))
  {
  }

  /** The keyword tests ignore case: a question and its lower-cased form get
      the same answers. */
  lemma KeywordsIgnoreCase(question: string)
    ensures KeywordTips(Lower(question)) == KeywordTips(question)
  {
    LowerIdempotent(question);
  }

  /** The whole message list before truncation: the keyword answers, then
      the rule messages. It is never empty and holds at most six messages,
      three keyword answers and three rule messages. */
  function Messages(question: string, totals: Totals, targetCalories: int): (r: seq<Tip>)
    ensures 1 <= |r| <= 6
  {
    RuleTipsOrdered(totals, targetCalories);
    KeywordTips(question) + RuleTips(totals, targetCalories)
  }

  /** Each message as the text the user sees. */
  function Render(msgs: seq<Tip>): seq<string>
  {
    seq(|msgs|, i requires 0 <= i < |msgs| => TipText(msgs[i]))
  }

  /** `texts.slice(0, 2).join(' ')`: the first text, then a single space and
      the second when there is one. */
  function FirstTwoJoined(texts: seq<string>): (r: string)
    ensures |texts| == 1 ==> r == texts[0]
    ensures |texts| >= 2 ==> r == texts[0] + " " + texts[1]
    ensures |texts| >= 1 && texts[0] != "" ==> r != ""
  {
    Join(if |texts| <= 2 then texts else texts[..2], " ")
  }

  /** The reply to a message list: the text of the first message, followed
      by a space and the text of the second when there is one; never empty
      when there is a message. */
  function Reply(msgs: seq<Tip>): (r: string)
    ensures |msgs| == 1 ==> r == TipText(msgs[0])
    ensures |msgs| >= 2 ==> r == TipText(msgs[0]) + " " + TipText(msgs[1])
    ensures |msgs| >= 1 ==> r != ""
  {
    FirstTwoJoined(Render(msgs))
  }

  /** `generateTip`: push the rule messages, unshift the keyword answers,
      keep the first two. */
  method GenerateTip(question: string, totals: Totals, targetCalories: int) returns (reply: string)
    ensures reply == Reply(Messages(question, totals, targetCalories))
    ensures reply != ""
  {
    var msgs := RuleMessages(totals, targetCalories);
    var q := Lower(question);
    msgs := PutKeywordsFirst(q, msgs);
    RuleTipsMeaning(totals, targetCalories);
    reply := FirstTwoJoined(Render(msgs));
  }

  /** The first half of `generateTip`: push each rule message that fires,
      or the encouragement when none does. */
  method RuleMessages(totals: Totals, targetCalories: int) returns (msgs: seq<Tip>)
    ensures msgs == RuleTips(totals, targetCalories)
  {
    msgs := [];
    var calGap := targetCalories as real - totals.food.calories + totals.burned;
    if calGap > 120.0 {
      msgs := msgs + [UnderTarget(Round(calGap))];
    }
    if calGap < -120.0 {
      msgs := msgs + [OverTarget(Abs(Round(calGap)))];
    }
    if totals.food.protein < 0.8 * (totals.food.protein + 1.0) && totals.food.protein < 100.0 {
      // the program leaves this branch empty
    }
    if totals.food.protein < 80.0 {
      msgs := msgs + [LowProtein];
    }
    if totals.food.carbs > totals.food.protein * 3.0 {
      msgs := msgs + [CarbHeavy];
    }
    if |msgs| == 0 {
      msgs := msgs + [Encourage];
    }
  }

  /** The second half of `generateTip`: unshift the answer to each keyword
      found in the lower-cased question. */
  method PutKeywordsFirst(q: string, rules: seq<Tip>) returns (msgs: seq<Tip>)
    ensures msgs == KeywordFront(q) + rules
  {
    var asksProtein := Contains(q, "protein");
    var asksBreakfast := Contains(q, "breakfast");
    var asksFatLoss := Contains(q, "fat loss") || Contains(q, "lose weight");
    msgs := rules;
    if asksProtein {
      msgs := [KwProtein] + msgs;
    }
    ghost var m1 := msgs;
    if asksBreakfast {
      msgs := [KwBreakfast] + msgs;
    }
    ghost var m2 := msgs;
    if asksFatLoss {
      msgs := [KwFatLoss] + msgs;
    }
    assert m1 == (if asksProtein then [KwProtein] else []) + rules;
    assert m2 == (if asksBreakfast then [KwBreakfast] else []) + m1;
    assert msgs == (if asksFatLoss then [KwFatLoss] else []) + m2;
    UnshiftedInFront(asksFatLoss, asksBreakfast, asksProtein, rules);
  }

  /** Unshifting the answers one by one in front of the rule messages. */
  lemma UnshiftedInFront(fatLoss: bool, breakfast: bool, protein: bool, rules: seq<Tip>)
    ensures (if fatLoss then [KwFatLoss] else [])
      + ((if breakfast then [KwBreakfast] else []) + ((if protein then [KwProtein] else []) + rules))
      == Unshifted(fatLoss, breakfast, protein) + rules
  {
  }

  /** `send`: the question is trimmed first; an all-blank input gets no
      reply, anything else gets the coach's answer to the trimmed text. */
  method Send(input: string, totals: Totals, targetCalories: int) returns (reply: Option<string>)
    ensures reply.None? <==> forall i :: 0 <= i < |input| ==> IsSpace(input[i])
    ensures reply.Some? ==> reply.value == Reply(Messages(Trim(input), totals, targetCalories))
    ensures reply.Some? ==> reply.value != ""
  {
    var trimmed := Trim(input);
    if trimmed == [] {
      return None;
    }
    var r := GenerateTip(trimmed, totals, targetCalories);
    reply := Some(r);
  }

  // ---------------------------------------------------------------------------
  // Properties of the message list

  /** The position classes of the final list: fat loss, breakfast, protein,
      then the rule messages. */
  function Rank(t: Tip): nat
  {
    match t
    case KwFatLoss => 0
    case KwBreakfast => 1
    case KwProtein => 2
    case _ => 3
  }

  /** Keyword answers come before every rule message, in the order fat loss,
      breakfast, protein; there is always at least one message. */
  lemma MessagesOrdered(question: string, totals: Totals, targetCalories: int)
    ensures var m := Messages(question, totals, targetCalories);
      && |m| >= 1
      && forall i, j :: 0 <= i < j < |m| ==> Rank(m[i]) <= Rank(m[j])
  {
    var k, r := KeywordTips(question), RuleTips(totals, targetCalories);
    var m := k + r;
    forall i, j | 0 <= i < j < |m| ensures Rank(m[i]) <= Rank(m[j]) {
      if j < |k| {
        assert m[i] == k[i] && m[j] == k[j];
      } else if i < |k| {
        assert m[i] == k[i] && m[j] == r[j - |k|];
        assert m[i] in k && m[j] in r;
      } else {
        assert m[i] == r[i - |k|] && m[j] == r[j - |k|];
        assert m[i] in r && m[j] in r;
      }
    }
  }

  /** The branch on "protein < 0.8 * (protein + 1)" changes nothing: the
      message list is the same whichever way it goes. */
  lemma NoOpBranchIrrelevant(question: string, totals: Totals, totals': Totals, targetCalories: int)
    requires totals'.food.calories == totals.food.calories && totals'.burned == totals.burned
    requires totals'.food.carbs == totals.food.carbs
    requires (totals.food.protein < 80.0) == (totals'.food.protein < 80.0)
    requires (totals.food.carbs > totals.food.protein * 3.0) == (totals'.food.carbs > totals'.food.protein * 3.0)
    ensures Messages(question, totals, targetCalories) == Messages(question, totals', targetCalories)
  {
  }

  /** An empty day against a 2000 kcal target, with no keyword: the reply is
      the under-target message for 2000 kcal, then the protein message; the
      carbs rule stays silent since 0 > 0 * 3 is false. */
  lemma EmptyDayScenario(question: string)
    requires !AsksProtein(question) && !AsksBreakfast(question) && !AsksFatLoss(question)
    ensures var totals := Totals(FoodTotals(0.0, 0.0, 0.0, 0.0), 0.0);
      && Messages(question, totals, 2000) == [UnderTarget(2000), LowProtein]
      && Reply(Messages(question, totals, 2000)) == TipText(UnderTarget(2000)) + " " + TipText(LowProtein)
  {
    RoundInt(2000);
    var m := Messages(question, Totals(FoodTotals(0.0, 0.0, 0.0, 0.0), 0.0), 2000);
    assert m[..2] == m;
  }

  /** Only two messages reach the reply, so on a day under target, low in
      protein and heavy in carbs, with no keyword asked, the carbs message is
      cut off. */
  lemma CarbsMessageCutOff(question: string, totals: Totals, targetCalories: int)
    requires !AsksProtein(question) && !AsksBreakfast(question) && !AsksFatLoss(question)
    requires UnderFires(totals, targetCalories) && LowProteinFires(totals) && CarbHeavyFires(totals)
    ensures var g := Gap(totals, targetCalories);
      && Messages(question, totals, targetCalories) == [UnderTarget(Round(g)), LowProtein, CarbHeavy]
      && Reply(Messages(question, totals, targetCalories)) == TipText(UnderTarget(Round(g))) + " " + TipText(LowProtein)
  {
  }

  /** A question about breakfast and protein, and not about losing weight,
      gets the breakfast ideas first and the protein foods second, whatever
      the day's totals. */
  lemma BreakfastThenProtein(question: string, totals: Totals, targetCalories: int)
    requires AsksBreakfast(question) && AsksProtein(question) && !AsksFatLoss(question)
    ensures var m := Messages(question, totals, targetCalories);
      && |m| >= 3
      && m[..2] == [KwBreakfast, KwProtein]
      && Reply(m) == Reply([KwBreakfast, KwProtein])
  {
    var m := Messages(question, totals, targetCalories);
    RuleTipsMeaning(totals, targetCalories);
    assert m[..2] == [KwBreakfast, KwProtein];
    ReplyFirstTwo(m);
  }

  /** A question about breakfast and protein. */
  const BreakfastProteinQuestion := "What about breakfast and protein?"

  /** This question asks about breakfast and protein and not about losing
      weight, so it gets the breakfast ideas, then the protein foods. */
  lemma BreakfastProteinAnswers(totals: Totals, targetCalories: int)
    ensures var m := Messages(BreakfastProteinQuestion, totals, targetCalories);
      |m| >= 2 && m[..2] == [KwBreakfast, KwProtein]
  {
    QuestionAsksBreakfast();
    QuestionAsksProtein();
    QuestionNotFatLoss();
    BreakfastThenProtein(BreakfastProteinQuestion, totals, targetCalories);
  }

  lemma QuestionAsksBreakfast()
    ensures AsksBreakfast(BreakfastProteinQuestion)
  {
    var q := BreakfastProteinQuestion;
    assert q[11] == 'b' && q[12] == 'r' && q[13] == 'e' && q[14] == 'a' && q[15] == 'k';
    assert q[16] == 'f' && q[17] == 'a' && q[18] == 's' && q[19] == 't';
    OccursAtByChars(q, "breakfast", 11);
    LowerKeepsOccurrence(q, "breakfast", 11);
  }

  lemma QuestionAsksProtein()
    ensures AsksProtein(BreakfastProteinQuestion)
  {
    var q := BreakfastProteinQuestion;
    assert q[25] == 'p' && q[26] == 'r' && q[27] == 'o' && q[28] == 't';
    assert q[29] == 'e' && q[30] == 'i' && q[31] == 'n';
    OccursAtByChars(q, "protein", 25);
    LowerKeepsOccurrence(q, "protein", 25);
  }

  lemma QuestionNotFatLoss()
    ensures !AsksFatLoss(BreakfastProteinQuestion)
  {
    var q := BreakfastProteinQuestion;
    assert forall i :: 0 <= i < |q| ==> q[i] != 'l' && q[i] != 'L';
    NoLNoFatLoss(q);
  }

  /** Without the letter l in either case, a question asks nothing about
      losing weight. */
  lemma NoLNoFatLoss(question: string)
    requires 'l' !in question && 'L' !in question
    ensures !AsksFatLoss(question)
  {
    LowerLacksLetter(question, 'l');
    NoLetterNoMatch(Lower(question), "fat loss", 'l', 4);
    NoLetterNoMatch(Lower(question), "lose weight", 'l', 0);
  }

  /** Only the first two messages reach the reply. */
  lemma ReplyFirstTwo(msgs: seq<Tip>)
    requires |msgs| >= 2
    ensures Reply(msgs) == Reply(msgs[..2])
  {
  }

  /** A string without the letter `c` contains no text that has it. */
  lemma NoLetterNoMatch(s: string, sub: string, c: char, k: nat)
    requires k < |sub| && sub[k] == c && c !in s
    ensures !Contains(s, sub)
  {
    forall i: nat | i <= |s| ensures !OccursAt(s, sub, i) {
      if i + |sub| <= |s| {
        assert s[i..i + |sub|][k] == s[i + k];
      }
    }
  }
}
