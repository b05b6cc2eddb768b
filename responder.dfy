/** `generateResponse`: the chain of keyword tests that picks the chat
    widget's answer to a visitor's text. The text is lower-cased once; the
    tests are tried in a fixed order and the first that passes decides. */
module Responder {
  import opened Text
  import opened Search
  import opened KnowledgeBase
  import opened CannedReplies

  /** What the chain answers: a canned answer, the block of a service of the
      table, or the menu it falls back on. */
  datatype Reply = Canned(topic: Topic) | ServiceInfo(service: Service) | Menu

  /** One test of the chain: the keywords of a canned answer, or the lookup
      in the service table. */
  datatype Rule = KeywordRule(topic: Topic) | ServiceLookup

  const GreetingKeywords: seq<string> := ["hello", "hi", "hey"]
  const PricingKeywords: seq<string> := ["price", "cost", "pricing", "how much"]
  const ManagementKeywords: seq<string> :=
    ["what's included in management", "whats included in management", "management include"]
  const SetupOnlyKeywords: seq<string> :=
    ["setup without management", "just setup", "setup only", "no management"]
  const SetupDurationKeywords: seq<string> := ["how long does setup take", "setup time", "how long setup"]
  const SetupKeywords: seq<string> := ["setup", "implementation", "how long", "install"]
  const CustomKeywords: seq<string> := ["custom", "specific", "unique"]
  const IndustryKeywords: seq<string> := ["industry", "business type", "who"]
  const SupportKeywords: seq<string> := ["support", "maintenance", "after", "ongoing"]
  const ContactKeywords: seq<string> := ["contact", "consultation", "talk", "call"]

  /** Index of the service lookup in the chain. */
  const ServiceRule: nat := 6

  /** The chain, in the source's order. */
  const Rules: seq<Rule> := [
    KeywordRule(Greeting),
    KeywordRule(Pricing),
    KeywordRule(Management),
    KeywordRule(SetupOnly),
    KeywordRule(SetupDuration),
    KeywordRule(Setup),
    ServiceLookup,
    KeywordRule(Custom),
    KeywordRule(Industry),
    KeywordRule(Support),
    KeywordRule(Contact)
  ]

  /** The keywords of each canned answer. */
  function Keywords(topic: Topic): seq<string>
  {
    match topic
    case Greeting => GreetingKeywords
    case Pricing => PricingKeywords
    case Management => ManagementKeywords
    case SetupOnly => SetupOnlyKeywords
    case SetupDuration => SetupDurationKeywords
    case Setup => SetupKeywords
    case Custom => CustomKeywords
    case Industry => IndustryKeywords
    case Support => SupportKeywords
    case Contact => ContactKeywords
  }

  /** The test of `rule` passes on the (lower-cased) text. */
  predicate Fires(rule: Rule, message: string)
  {
    match rule
    case KeywordRule(topic) => AnyOccurs(message, Keywords(topic))
    case ServiceLookup => FindService(Services, message).Some?
  }

  /** The answer of a rule whose test passes. */
  function Answer(rule: Rule, message: string): Reply
    requires Fires(rule, message)
  {
    match rule
    case KeywordRule(topic) => Canned(topic)
    case ServiceLookup => ServiceInfo(Services[FindService(Services, message).value])
  }

  /** The first rule of the chain whose test passes on the text. */
  function FirstFiring(message: string): (r: Option<nat>)
    ensures r.Some? ==> r.value < |Rules| && Fires(Rules[r.value], message)
    ensures r.Some? ==> forall j :: 0 <= j < r.value ==> !Fires(Rules[j], message)
    ensures r.None? <==> forall j :: 0 <= j < |Rules| ==> !Fires(Rules[j], message)
  {
    FirstIndex(Rules, rule => Fires(rule, message))
  }

  /** The answer to a visitor's text: the text is lower-cased, and the first
      rule whose test passes answers; the menu when none does. */
  function Choose(userMessage: string): Reply
  {
    var message := Lower(userMessage);
    match FirstFiring(message)
    case Some(k) => Answer(Rules[k], message)
    case None => Menu
  }

  /** `generateResponse(userMessage)`. */
  function GenerateResponse(userMessage: string): string
  {
    ReplyText(Choose(userMessage))
  }

  /** The text shown for an answer. */
  function ReplyText(r: Reply): string
  {
    match r
    case Canned(topic) => TopicText(topic)
    case ServiceInfo(e) => ServiceBlock(e)
    case Menu => MenuText()
  }

  /** The rule of the chain that gives an answer; none gives the menu. */
  function RuleOf(r: Reply): (k: Option<nat>)
    ensures k.Some? ==> k.value < |Rules|
  {
    match r
    case Canned(topic) => Some(TopicRule(topic))
    case ServiceInfo(_) => Some(ServiceRule)
    case Menu => None
  }

  function TopicRule(topic: Topic): (k: nat)
    ensures k < |Rules| && Rules[k].KeywordRule? && Rules[k].topic == topic
  {
    match topic
    case Greeting => 0
    case Pricing => 1
    case Management => 2
    case SetupOnly => 3
    case SetupDuration => 4
    case Setup => 5
    case Custom => 7
    case Industry => 8
    case Support => 9
    case Contact => 10
  }

  // ---------------------------------------------------------------------------
  // Properties of the chain
  // ---------------------------------------------------------------------------

  /** Every canned answer has exactly one rule in the chain, and the
      service lookup is the one rule that is not a keyword rule. */
  lemma TopicRuleInverse(k: nat)
    requires k < |Rules|
    ensures Rules[k].KeywordRule? <==> k != ServiceRule
    ensures Rules[k].KeywordRule? ==> TopicRule(Rules[k].topic) == k
  {
  }

  /** Each rule's answer names that rule back. */
  lemma RuleOfAnswer(k: nat, message: string)
    requires k < |Rules| && Fires(Rules[k], message)
    ensures RuleOf(Answer(Rules[k], message)) == Some(k)
  {
    TopicRuleInverse(k);
  }

  /** The answer comes from the first rule whose test passes on the
      lower-cased text, and is the menu exactly when no test passes. */
  lemma ChooseIsFirstFiring(userMessage: string)
    ensures RuleOf(Choose(userMessage)) == FirstFiring(Lower(userMessage))
    ensures Choose(userMessage) == Menu <==>
      forall j :: 0 <= j < |Rules| ==> !Fires(Rules[j], Lower(userMessage))
  {
    var message := Lower(userMessage);
    match FirstFiring(message)
    case Some(k) => RuleOfAnswer(k, message);
    case None =>
  }

  /** A canned answer is given exactly when one of its keywords occurs in
      the lower-cased text and no rule before it in the chain passes. */
  lemma CannedIff(userMessage: string, topic: Topic)
    ensures var message := Lower(userMessage);
      Choose(userMessage) == Canned(topic) <==>
        && AnyOccurs(message, Keywords(topic))
        && forall j :: 0 <= j < TopicRule(topic) ==> !Fires(Rules[j], message)
  {
    var message := Lower(userMessage);
    var k := TopicRule(topic);
    ChooseIsFirstFiring(userMessage);
    if AnyOccurs(message, Keywords(topic)) && forall j :: 0 <= j < k ==> !Fires(Rules[j], message) {
      FirstIndexUnique(Rules, rule => Fires(rule, message), k);
    }
    TopicRuleInverse(ServiceRule);
  }

  /** The greeting is given exactly when "hello", "hi" or "hey" occurs
      anywhere in the text, whatever else it asks. */
  lemma GreetingIff(userMessage: string)
    ensures Choose(userMessage) == Canned(Greeting) <==>
      AnyOccurs(Lower(userMessage), GreetingKeywords)
  {
    CannedIff(userMessage, Greeting);
  }

  /** A service block is given exactly when none of the six keyword rules
      before the lookup passes and the text names a service; the block is
      that of the first service, in table order, that the text names. */
  lemma ServiceIff(userMessage: string, e: Service)
    ensures var message := Lower(userMessage);
      Choose(userMessage) == ServiceInfo(e) <==>
        && (forall j :: 0 <= j < ServiceRule ==> !Fires(Rules[j], message))
        && FindService(Services, message).Some?
        && e == Services[FindService(Services, message).value]
  {
    var message := Lower(userMessage);
    ChooseIsFirstFiring(userMessage);
    TopicRuleInverse(ServiceRule);
    if (forall j :: 0 <= j < ServiceRule ==> !Fires(Rules[j], message)) && FindService(Services, message).Some? {
      FirstIndexUnique(Rules, rule => Fires(rule, message), ServiceRule);
    }
  }

  /** A service answer is about an entry of the table that the lower-cased
      text names. */
  lemma ServiceMentioned(userMessage: string, e: Service)
    requires Choose(userMessage) == ServiceInfo(e)
    ensures e in Services && Mentions(Lower(userMessage), e)
  {
    ServiceIff(userMessage, e);
  }

  /** The text of a service answer is the entry's reply block. */
  lemma ServiceReplyText(e: Service)
    ensures ReplyText(ServiceInfo(e)) == ServiceBlock(e)
  {
  }

  /** The text of a service answer is the reply block of an entry of the
      table, and that entry is well-formed. */
  lemma ServiceAnswerText(userMessage: string, e: Service)
    requires Choose(userMessage) == ServiceInfo(e)
    ensures e in Services && WellFormed(e)
    ensures GenerateResponse(userMessage) == ServiceBlock(e)
  {
    ServiceMentioned(userMessage, e);
    TableWellFormed();
    ServiceReplyText(e);
  }

  /** A service answer, line by line: the name and price, the description,
      one bullet per feature of the entry and the setup time. */
  lemma ServiceAnswerLayout(userMessage: string, e: Service)
    requires Choose(userMessage) == ServiceInfo(e)
    ensures var lines := SplitLines(ServiceBlock(e));
      && |lines| == |e.features| + 10
      && lines[0] == "**" + e.name + "** - " + e.price
      && lines[2] == e.description
      && (forall k :: 0 <= k < |e.features| ==> lines[5 + k] == Bullet + e.features[k])
      && lines[|e.features| + 6] == SetupLabel + e.setup
  {
    ServiceMentioned(userMessage, e);
    TableWellFormed();
    ServiceBlockLayout(e);
  }

  /** When a rule passes, no later rule answers: the answer comes from that
      rule or from one before it. */
  lemma EarlierRuleWins(userMessage: string, i: nat)
    requires i < |Rules| && Fires(Rules[i], Lower(userMessage))
    ensures RuleOf(Choose(userMessage)).Some? && RuleOf(Choose(userMessage)).value <= i
  {
    ChooseIsFirstFiring(userMessage);
  }

  /** The rules before `k + 1` all fail when those before `k` fail and rule
      `k` fails too. */
  lemma NoneFiresExtend(message: string, k: nat)
    requires k < |Rules|
    requires forall j :: 0 <= j < k ==> !Fires(Rules[j], message)
    requires !Fires(Rules[k], message)
    ensures forall j :: 0 <= j < k + 1 ==> !Fires(Rules[j], message)
  {
  }

  /** Only the lower-cased text matters: texts that differ in the case of
      their letters get the same answer. */
  lemma CaseInsensitive(u: string, v: string)
    requires Lower(u) == Lower(v)
    ensures Choose(u) == Choose(v)
  {
  }

  /** Answering the lower-cased text gives the same answer as the text. */
  lemma ChooseLowered(userMessage: string)
    ensures Choose(Lower(userMessage)) == Choose(userMessage)
  {
    LowerFixesLowerCase(userMessage);
  }

  /** Each setup-duration keyword holds "setup", so a text that passes the
      duration test also passes the general setup test: only the order of
      the two rules sends it to the duration answer. */
  lemma DurationKeywordsHoldSetup(message: string)
    requires AnyOccurs(message, SetupDurationKeywords)
    ensures AnyOccurs(message, SetupKeywords)
  {
    var k :| 0 <= k < |SetupDurationKeywords| && Occurs(message, SetupDurationKeywords[k]);
    var at := [14, 0, 9];
    assert MatchAt(SetupDurationKeywords[k], "setup", at[k]);
    OccursInfix(message, SetupDurationKeywords[k], "setup", at[k]);
    assert Occurs(message, SetupKeywords[0]);
  }
}
