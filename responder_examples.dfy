/** The answers to the three quick questions the widget offers, and to a
    few typed texts that show how plain substring tests decide. */
module ResponderExamples {
  import opened Text
  import opened Search
  import opened KnowledgeBase
  import opened CannedReplies
  import opened Responder
  import opened Conversation

  /** Rule `TopicRule(t)` tests the keywords of `t`. */
  lemma KeywordRuleFires(t: Topic, message: string)
    ensures Fires(Rules[TopicRule(t)], message) == AnyOccurs(message, Keywords(t))
  {
  }

  // ---------------------------------------------------------------------------
  // Quick question "What are your prices?"
  // ---------------------------------------------------------------------------

  const PricesQuestion: string := QuickQuestions[0]
  const PricesLowered: string := "what are your prices?"

  lemma PricesQuestionLowered() ensures Lower(PricesQuestion) == PricesLowered { }

  lemma PricesNoGreeting() ensures !AnyOccurs(PricesLowered, GreetingKeywords)
  {
    AbsentPair(PricesLowered, "hello", 0);
    AbsentPair(PricesLowered, "hi", 0);
    AbsentPair(PricesLowered, "hey", 0);
  }

  lemma PricesMentionPrice() ensures AnyOccurs(PricesLowered, PricingKeywords)
  {
    assert MatchAt(PricesLowered, PricingKeywords[0], 14);
  }

  /** The "Pricing" quick question gets the pricing answer. */
  lemma PricesQuestionAnswer() ensures Choose(PricesQuestion) == Canned(Pricing)
  {
    PricesQuestionLowered();
    PricesNoGreeting();
    PricesMentionPrice();
    KeywordRuleFires(Greeting, PricesLowered);
    KeywordRuleFires(Pricing, PricesLowered);
    assert AnyOccurs(PricesLowered, Keywords(Pricing));
    CannedIff(PricesQuestion, Pricing);
  }

  // ---------------------------------------------------------------------------
  // Quick question "How long is setup?"
  // ---------------------------------------------------------------------------

  const SetupQuestion: string := QuickQuestions[1]
  const SetupLowered: string := "how long is setup?"

  lemma SetupQuestionLowered() ensures Lower(SetupQuestion) == SetupLowered { }

  lemma SetupNoGreeting() ensures !AnyOccurs(SetupLowered, GreetingKeywords)
  {
    AbsentPair(SetupLowered, "hello", 0);
    AbsentPair(SetupLowered, "hi", 0);
    AbsentPair(SetupLowered, "hey", 0);
  }

  lemma SetupNoPrice() ensures !AnyOccurs(SetupLowered, PricingKeywords)
  {
    AbsentPair(SetupLowered, "price", 0);
    AbsentChar(SetupLowered, "cost", 0);
    AbsentPair(SetupLowered, "pricing", 0);
    AbsentChar(SetupLowered, "how much", 4);
  }

  lemma SetupNoManagement() ensures !AnyOccurs(SetupLowered, ManagementKeywords)
  {
    AbsentPair(SetupLowered, "what's included in management", 0);
    AbsentPair(SetupLowered, "whats included in management", 0);
    AbsentChar(SetupLowered, "management include", 0);
  }

  lemma SetupNoSetupOnly() ensures !AnyOccurs(SetupLowered, SetupOnlyKeywords)
  {
    AbsentChar(SetupLowered, "setup without management", 14);
    AbsentChar(SetupLowered, "just setup", 0);
    AbsentChar(SetupLowered, "setup only", 9);
    AbsentPair(SetupLowered, "no management", 0);
  }

  /** "how long is setup" is none of the duration phrases: the word "is"
      breaks "how long setup". */
  lemma SetupNoDuration()
    ensures !AnyOccurs(SetupLowered, SetupDurationKeywords)
  {
    AbsentChar(SetupLowered, "how long does setup take", 9);
    AbsentChar(SetupLowered, "setup time", 8);
    var p := "how long setup";
    forall i: nat | i <= |SetupLowered| ensures !MatchAt(SetupLowered, p, i) {
      if i + |p| <= |SetupLowered| {
        if i == 0 {
          MismatchAt(SetupLowered, p, 0, 9);
        } else {
          MismatchAt(SetupLowered, p, i, 0);
        }
      }
    }
  }

  /** Each of the rules before rule 5 of the chain fails. */
  lemma SetupRulesFail()
    ensures !Fires(Rules[0], SetupLowered)
    ensures !Fires(Rules[1], SetupLowered)
    ensures !Fires(Rules[2], SetupLowered)
    ensures !Fires(Rules[3], SetupLowered)
    ensures !Fires(Rules[4], SetupLowered)
  {
    SetupNoGreeting();
    SetupNoPrice();
    SetupNoManagement();
    SetupNoSetupOnly();
    SetupNoDuration();
    KeywordRuleFires(Greeting, SetupLowered);
    KeywordRuleFires(Pricing, SetupLowered);
    KeywordRuleFires(Management, SetupLowered);
    KeywordRuleFires(SetupOnly, SetupLowered);
    KeywordRuleFires(SetupDuration, SetupLowered);
  }

  /** None of the rules before rule 5 of the chain passes. */
  lemma SetupNoEarlierRule()
    ensures forall j :: 0 <= j < 5 ==> !Fires(Rules[j], SetupLowered)
  {
    SetupRulesFail();
    NoneFiresExtend(SetupLowered, 0);
    NoneFiresExtend(SetupLowered, 1);
    NoneFiresExtend(SetupLowered, 2);
    NoneFiresExtend(SetupLowered, 3);
    NoneFiresExtend(SetupLowered, 4);
  }

  /** The "Setup Time" quick question gets the general setup answer (ready
      in 24 hours), not the duration answer (3-5 business days). */
  lemma SetupQuestionAnswer() ensures Choose(SetupQuestion) == Canned(Setup)
  {
    SetupQuestionLowered();
    SetupNoEarlierRule();
    assert MatchAt(SetupLowered, SetupKeywords[0], 12);
    assert Occurs(SetupLowered, SetupKeywords[0]);
    KeywordRuleFires(Setup, SetupLowered);
    assert AnyOccurs(SetupLowered, Keywords(Setup));
    CannedIff(SetupQuestion, Setup);
  }

  // ---------------------------------------------------------------------------
  // Quick question "Tell me about lead generation"
  // ---------------------------------------------------------------------------

  const LeadQuestion: string := QuickQuestions[2]
  const LeadLowered: string := "tell me about lead generation"

  lemma LeadQuestionLowered() ensures Lower(LeadQuestion) == LeadLowered { }

  /** The text has no 'h', 'c', 'p', 's' or 'w'. */
  lemma LeadNoGreetingOrPrice()
    ensures !AnyOccurs(LeadLowered, GreetingKeywords)
    ensures !AnyOccurs(LeadLowered, PricingKeywords)
  {
    NoneOccurByFirstChar(LeadLowered, GreetingKeywords);
    NoneOccurByFirstChar(LeadLowered, PricingKeywords);
  }

  lemma LeadNoManagement() ensures !AnyOccurs(LeadLowered, ManagementKeywords)
  {
    AbsentChar(LeadLowered, "what's included in management", 0);
    AbsentChar(LeadLowered, "whats included in management", 0);
    AbsentPair(LeadLowered, "management include", 0);
  }

  lemma LeadNoSetupOnly() ensures !AnyOccurs(LeadLowered, SetupOnlyKeywords)
  {
    AbsentChar(LeadLowered, "setup without management", 0);
    AbsentChar(LeadLowered, "just setup", 0);
    AbsentChar(LeadLowered, "setup only", 0);
    AbsentPair(LeadLowered, "no management", 0);
  }

  lemma LeadNoSetup()
    ensures !AnyOccurs(LeadLowered, SetupDurationKeywords)
    ensures !AnyOccurs(LeadLowered, SetupKeywords)
  {
    NoneOccurByFirstChar(LeadLowered, SetupDurationKeywords);
    AbsentChar(LeadLowered, "setup", 0);
    AbsentChar(LeadLowered, "implementation", 2);
    AbsentChar(LeadLowered, "how long", 0);
    AbsentChar(LeadLowered, "install", 2);
  }

  /** The text does not name the first entry: it has no 'c'. */
  lemma LeadNotCustomerService() ensures !Mentions(LeadLowered, Services[0])
  {
    CustomerServiceWord();
    MentionsIffFirstWord(LeadLowered, Services[0]);
    AbsentChar(LeadLowered, "customer", 0);
  }

  /** The text names the second entry by its first word. */
  lemma LeadNamesLeadGeneration() ensures Mentions(LeadLowered, Services[1])
  {
    LeadGenerationWord();
    MentionsIffFirstWord(LeadLowered, Services[1]);
    assert MatchAt(LeadLowered, "lead", 14);
  }

  /** The loop over the table stops at the lead-generation entry. */
  lemma LeadFindsLeadGeneration() ensures FindService(Services, LeadLowered) == Some(1)
  {
    LeadNotCustomerService();
    LeadNamesLeadGeneration();
    FindServiceAt(Services, LeadLowered, 1);
  }

  /** Each of the rules before rule 6 of the chain fails. */
  lemma LeadRulesFail()
    ensures !Fires(Rules[0], LeadLowered)
    ensures !Fires(Rules[1], LeadLowered)
    ensures !Fires(Rules[2], LeadLowered)
    ensures !Fires(Rules[3], LeadLowered)
    ensures !Fires(Rules[4], LeadLowered)
    ensures !Fires(Rules[5], LeadLowered)
  {
    LeadNoGreetingOrPrice();
    LeadNoManagement();
    LeadNoSetupOnly();
    LeadNoSetup();
    KeywordRuleFires(Greeting, LeadLowered);
    KeywordRuleFires(Pricing, LeadLowered);
    KeywordRuleFires(Management, LeadLowered);
    KeywordRuleFires(SetupOnly, LeadLowered);
    KeywordRuleFires(SetupDuration, LeadLowered);
    KeywordRuleFires(Setup, LeadLowered);
  }

  /** None of the rules before rule 6 of the chain passes. */
  lemma LeadNoEarlierRule()
    ensures forall j :: 0 <= j < 6 ==> !Fires(Rules[j], LeadLowered)
  {
    LeadRulesFail();
    NoneFiresExtend(LeadLowered, 0);
    NoneFiresExtend(LeadLowered, 1);
    NoneFiresExtend(LeadLowered, 2);
    NoneFiresExtend(LeadLowered, 3);
    NoneFiresExtend(LeadLowered, 4);
    NoneFiresExtend(LeadLowered, 5);
  }

  /** The "Lead Gen" quick question gets the block of the second entry. */
  lemma LeadQuestionAnswer() ensures Choose(LeadQuestion) == ServiceInfo(Services[1])
  {
    LeadQuestionLowered();
    LeadNoEarlierRule();
    LeadFindsLeadGeneration();
    assert FindService(Services, LeadLowered).Some?;
    ServiceIff(LeadQuestion, Services[1]);
  }

  // ---------------------------------------------------------------------------
  // Typed texts
  // ---------------------------------------------------------------------------

  const ThisCostQuestion: string := "How much does this cost?"
  const ThisCostLowered: string := "how much does this cost?"

  lemma ThisCostLoweredIs() ensures Lower(ThisCostQuestion) == ThisCostLowered { }

  /** A pricing question that says "this" gets the greeting: "hi" occurs
      inside "this", and the greeting test comes first. */
  lemma ThisCostGetsGreeting() ensures Choose(ThisCostQuestion) == Canned(Greeting)
  {
    ThisCostLoweredIs();
    assert MatchAt(ThisCostLowered, GreetingKeywords[1], 15);
    GreetingIff(ThisCostQuestion);
  }

  const SetupTime: string := "setup time"

  lemma SetupTimeLowered() ensures Lower(SetupTime) == SetupTime { }

  /** The text has no 'h', 'r', 'c', 'w', 'a', 'j', 'o' or 'n'. */
  lemma SetupTimeNoEarlierKeyword()
    ensures !AnyOccurs(SetupTime, GreetingKeywords)
    ensures !AnyOccurs(SetupTime, PricingKeywords)
    ensures !AnyOccurs(SetupTime, ManagementKeywords)
    ensures !AnyOccurs(SetupTime, SetupOnlyKeywords)
  {
    NoneOccurByFirstChar(SetupTime, GreetingKeywords);
    AbsentChar(SetupTime, "price", 1);
    AbsentChar(SetupTime, "cost", 0);
    AbsentChar(SetupTime, "pricing", 1);
    AbsentChar(SetupTime, "how much", 0);
    AbsentChar(SetupTime, "what's included in management", 0);
    AbsentChar(SetupTime, "whats included in management", 0);
    AbsentChar(SetupTime, "management include", 1);
    AbsentChar(SetupTime, "setup without management", 6);
    AbsentChar(SetupTime, "just setup", 0);
    AbsentChar(SetupTime, "setup only", 6);
    AbsentChar(SetupTime, "no management", 0);
  }

  /** Each of the rules before rule 4 of the chain fails. */
  lemma SetupTimeRulesFail()
    ensures !Fires(Rules[0], SetupTime)
    ensures !Fires(Rules[1], SetupTime)
    ensures !Fires(Rules[2], SetupTime)
    ensures !Fires(Rules[3], SetupTime)
  {
    SetupTimeNoEarlierKeyword();
    KeywordRuleFires(Greeting, SetupTime);
    KeywordRuleFires(Pricing, SetupTime);
    KeywordRuleFires(Management, SetupTime);
    KeywordRuleFires(SetupOnly, SetupTime);
  }

  /** None of the rules before rule 4 of the chain passes. */
  lemma SetupTimeNoEarlierRule()
    ensures forall j :: 0 <= j < 4 ==> !Fires(Rules[j], SetupTime)
  {
    SetupTimeRulesFail();
    NoneFiresExtend(SetupTime, 0);
    NoneFiresExtend(SetupTime, 1);
    NoneFiresExtend(SetupTime, 2);
    NoneFiresExtend(SetupTime, 3);
  }

  /** "setup time" passes the duration test, and with it the general
      setup test. */
  lemma SetupTimePassesBoth()
    ensures Fires(Rules[TopicRule(SetupDuration)], SetupTime)
    ensures Fires(Rules[TopicRule(Setup)], SetupTime)
  {
    assert MatchAt(SetupTime, SetupDurationKeywords[1], 0);
    assert Occurs(SetupTime, SetupDurationKeywords[1]);
    DurationKeywordsHoldSetup(SetupTime);
    KeywordRuleFires(SetupDuration, SetupTime);
    KeywordRuleFires(Setup, SetupTime);
  }

  /** "setup time" gets the duration answer (3-5 business days), not the
      general setup answer it also passes the test of, because the duration
      test comes first. */
  lemma SetupTimeAnswer()
    ensures Choose(SetupTime) == Canned(SetupDuration)
  {
    SetupTimeLowered();
    SetupTimeNoEarlierRule();
    SetupTimePassesBoth();
    KeywordRuleFires(SetupDuration, SetupTime);
    CannedIff(SetupTime, SetupDuration);
  }

  const LeadCostQuestion: string := "how much does lead generation cost"

  lemma LeadCostLowered() ensures Lower(LeadCostQuestion) == LeadCostQuestion { }

  /** No 'h' of the text is followed by 'e' or 'i'. */
  lemma LeadCostNoGreeting() ensures !AnyOccurs(LeadCostQuestion, GreetingKeywords)
  {
    AbsentPair(LeadCostQuestion, "hello", 0);
    AbsentPair(LeadCostQuestion, "hi", 0);
    AbsentPair(LeadCostQuestion, "hey", 0);
  }

  /** A pricing question that names a service gets the pricing answer,
      not the service's block: the pricing test comes before the lookup. */
  lemma LeadCostGetsPricing()
    ensures Mentions(LeadCostQuestion, Services[1])
    ensures Choose(LeadCostQuestion) == Canned(Pricing)
  {
    LeadCostLowered();
    LeadCostNoGreeting();
    assert MatchAt(LeadCostQuestion, PricingKeywords[3], 0);
    assert Occurs(LeadCostQuestion, PricingKeywords[3]);
    LeadGenerationWord();
    MentionsIffFirstWord(LeadCostQuestion, Services[1]);
    assert MatchAt(LeadCostQuestion, "lead", 14);
    KeywordRuleFires(Greeting, LeadCostQuestion);
    KeywordRuleFires(Pricing, LeadCostQuestion);
    assert AnyOccurs(LeadCostQuestion, Keywords(Pricing));
    CannedIff(LeadCostQuestion, Pricing);
  }
}
