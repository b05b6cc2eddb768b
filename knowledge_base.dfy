/** The chat widget's static knowledge table: six services, the general
    facts the canned replies quote, the search terms by which a user's text
    names a service, and the reply block built for a named service. */
module KnowledgeBase {
  import opened Text
  import opened Search

  datatype Service = Service(
    name: string,
    description: string,
    price: string,
    setup: string,
    features: seq<string>)

  /** The table, in the source's order. Each name is written as its first
      word, a space and the rest, and long texts as concatenations of
      shorter literals; the texts are the same. */
  const Services: seq<Service> :=
    [CustomerService, LeadGeneration, SocialMedia, EmailMarketing, Inventory, Appointments]

  const CustomerService := Service(
    "Customer" + " " + "Service Chatbot",
    "24/7 automated customer support with FAQ "
    + "responses, escalation to human agents, "
    + "and multi-platform support",
    "$297/month", "24 hours",
    ["24/7 availability", "FAQ responses", "Human escalation", "Multi-platform support"])

  const LeadGeneration := Service(
    "Lead" + " " + "Generation Automation",
    "Capture, qualify, and nurture leads "
    + "automatically from multiple sources",
    "$397/month", "24 hours",
    ["Multi-source capture", "Lead scoring", "Auto follow-up", "CRM integration"])

  const SocialMedia := Service(
    "Social" + " " + "Media Automation",
    "Schedule posts, respond to comments, "
    + "and grow your social presence "
    + "automatically",
    "$197/month", "24 hours",
    ["Multi-platform posting", "Content queues", "Engagement tracking", "Optimal timing"])

  const EmailMarketing := Service(
    "Email" + " " + "Marketing Automation",
    "Personalized email sequences with "
    + "behavioral triggers and A/B testing",
    "$347/month", "24 hours",
    ["Drip campaigns", "Behavioral triggers", "A/B testing", "Analytics dashboard"])

  const Inventory := Service(
    "Inventory" + " " + "Management",
    "Real-time stock tracking with automatic "
    + "reordering and supplier communication",
    "$447/month", "24 hours",
    ["Real-time tracking", "Auto reordering", "Supplier notifications", "Low stock alerts"])

  const Appointments := Service(
    "Appointment" + " " + "Scheduling",
    "Automated booking system with calendar "
    + "integration and reminders",
    "$247/month", "24 hours",
    ["Calendar sync", "Automated reminders", "Availability management", "Booking confirmations"])

  /** The two general facts that replies quote. */
  const CustomAutomations: string := "Any automation that is possible to make, we can offer"
  const Industries: string := "Any business that wants any type of automation can get it"

  // ---------------------------------------------------------------------------
  // Naming a service
  // ---------------------------------------------------------------------------

  /** The lower-cased full name and the lower-cased first word of the name. */
  function SearchTerms(e: Service): seq<string>
  {
    [Lower(e.name), Lower(FirstWord(e.name))]
  }

  /** The (already lower-cased) text names service `e`. */
  predicate Mentions(message: string, e: Service)
  {
    AnyOccurs(message, SearchTerms(e))
  }

  /** The loop over the table: the first service, in table order, that the
      text names. */
  function FindService(services: seq<Service>, message: string): (r: Option<nat>)
    ensures r.Some? ==> r.value < |services| && Mentions(message, services[r.value])
    ensures r.Some? ==> forall j :: 0 <= j < r.value ==> !Mentions(message, services[j])
    ensures r.None? <==> forall j :: 0 <= j < |services| ==> !Mentions(message, services[j])
  {
    FirstIndex(services, e => Mentions(message, e))
  }

  /** The loop stops at entry `k` when the text names it and no entry before it. */
  lemma FindServiceAt(services: seq<Service>, message: string, k: nat)
    requires k < |services| && Mentions(message, services[k])
    requires forall j :: 0 <= j < k ==> !Mentions(message, services[j])
    ensures FindService(services, message) == Some(k)
  {
  }

  /** The full-name test never decides anything: the first word is a prefix
      of the name, so a text holding the name also holds the first word. */
  lemma MentionsIffFirstWord(message: string, e: Service)
    ensures Mentions(message, e) <==> Occurs(message, Lower(FirstWord(e.name)))
  {
    var w := FirstWord(e.name);
    if Occurs(message, Lower(e.name)) {
      LowerPrefix(e.name, |w|);
      OccursPrefix(message, Lower(e.name), |w|);
    }
    assert SearchTerms(e)[1] == Lower(w);
  }

  /** `split(" ")[0]` of a name whose first space is at index `n`. */
  lemma FirstWordAt(s: string, n: nat)
    requires n <= |s| && (n == |s| || s[n] == ' ')
    requires forall i :: 0 <= i < n ==> s[i] != ' '
    ensures FirstWord(s) == s[..n]
  {
  }

  // ---------------------------------------------------------------------------
  // The reply block for one service
  // ---------------------------------------------------------------------------

  /** Decorations of the block. The source file holds its emoji and its
      bullet double-encoded (UTF-8 bytes read as Windows-1252), and these
      constants keep the characters exactly as the file holds them. */
  const FeaturesHeading: string := "\U{00E2}\U{0153}\U{00A8} **Key Features:**"
  const Bullet: string := "\U{00E2}\U{20AC}\U{00A2} "
  const SetupLabel: string := "\U{00E2}\U{0161}\U{00A1} **Setup:** "
  const MaintenanceLine: string := "\U{00F0}\U{0178}\U{201D}\U{00A7} **Maintenance:** " + "Monthly fee included"
  const ClosingLine: string := "Ready to get started? I can connect you " + "with our team for a free consultation!"

  /** Each feature behind a bullet, in table order. */
  function Bullets(features: seq<string>): (lines: seq<string>)
    ensures |lines| == |features|
    ensures forall k :: 0 <= k < |features| ==> lines[k] == Bullet + features[k]
  {
    if features == [] then [] else [Bullet + features[0]] + Bullets(features[1..])
  }

  /** The reply for a named service: name and price, description, the
      bulleted features joined by newlines, the setup time and two fixed lines. */
  function ServiceBlock(e: Service): string
  {
    "**" + e.name + "** - " + e.price + "\n\n"
    + e.description + "\n\n"
    + FeaturesHeading + "\n"
    + Join(Bullets(e.features)) + "\n\n"
    + SetupLabel + e.setup + "\n"
    + MaintenanceLine + "\n\n"
    + ClosingLine
  }

  /** Every field fits on one line and there is at least one feature. */
  predicate WellFormed(e: Service)
  {
    && SingleLine(e.name) && SingleLine(e.description) && SingleLine(e.price) && SingleLine(e.setup)
    && |e.features| >= 1
    && forall k :: 0 <= k < |e.features| ==> SingleLine(e.features[k])
  }

  /** The lines of the block, in order. */
  function ServiceBlockLines(e: Service): seq<string>
  {
    ["**" + e.name + "** - " + e.price, "", e.description, "", FeaturesHeading]
    + Bullets(e.features)
    + ["", SetupLabel + e.setup, MaintenanceLine, "", ClosingLine]
  }

  lemma JoinHead(a: string, d: string, h: string)
    ensures Join([a, "", d, "", h]) == a + "\n\n" + d + "\n\n" + h
  {
    JoinTwo("", h);
    JoinCons(d, ["", h]);
    assert [d] + ["", h] == [d, "", h];
    JoinCons("", [d, "", h]);
    assert [""] + [d, "", h] == ["", d, "", h];
    JoinCons(a, ["", d, "", h]);
    assert [a] + ["", d, "", h] == [a, "", d, "", h];
  }

  lemma JoinTail(tag: string, s: string, m: string, c: string)
    ensures Join(["", tag + s, m, "", c]) == "\n" + tag + s + "\n" + m + "\n\n" + c
  {
    JoinTwo("", c);
    JoinCons(m, ["", c]);
    assert [m] + ["", c] == [m, "", c];
    JoinCons(tag + s, [m, "", c]);
    assert [tag + s] + [m, "", c] == [tag + s, m, "", c];
    JoinCons("", [tag + s, m, "", c]);
    assert [""] + [tag + s, m, "", c] == ["", tag + s, m, "", c];
  }

  lemma TailRegroup(x: string, tag: string, s: string, m: string, c: string)
    ensures x + "\n" + ("\n" + tag + s + "\n" + m + "\n\n" + c)
         == x + "\n\n" + tag + s + "\n" + m + "\n\n" + c
  {
  }

  lemma ServiceBlockIsJoin(e: Service)
    requires |e.features| >= 1
    ensures ServiceBlock(e) == Join(ServiceBlockLines(e))
  {
    var first := "**" + e.name + "** - " + e.price;
    var head := [first, "", e.description, "", FeaturesHeading];
    var bullets := Bullets(e.features);
    var tail := ["", SetupLabel + e.setup, MaintenanceLine, "", ClosingLine];
    JoinHead(first, e.description, FeaturesHeading);
    JoinTail(SetupLabel, e.setup, MaintenanceLine, ClosingLine);
    JoinAppend(head, bullets);
    JoinAppend(head + bullets, tail);
    TailRegroup(Join(head) + "\n" + Join(bullets), SetupLabel, e.setup, MaintenanceLine, ClosingLine);
  }

  lemma HeadingSingleLine() ensures SingleLine(FeaturesHeading) && SingleLine(Bullet) { }
  lemma SetupLabelSingleLine() ensures SingleLine(SetupLabel) { }
  lemma MaintenanceSingleLine() ensures SingleLine(MaintenanceLine) { }
  lemma ClosingSingleLine() ensures SingleLine(ClosingLine) { }

  lemma ServiceBlockLinesSingle(e: Service)
    requires WellFormed(e)
    ensures forall k :: 0 <= k < |ServiceBlockLines(e)| ==> SingleLine(ServiceBlockLines(e)[k])
  {
    var all := ServiceBlockLines(e);
    var bullets := Bullets(e.features);
    forall k | 0 <= k < |all| ensures SingleLine(all[k]) {
      if k == 0 {
        assert all[k] == "**" + e.name + "** - " + e.price;
      } else if k < 5 {
        HeadingSingleLine();
      } else if k < 5 + |bullets| {
        HeadingSingleLine();
        assert all[k] == Bullet + e.features[k - 5];
      } else if k == 6 + |bullets| {
        SetupLabelSingleLine();
        assert all[k] == SetupLabel + e.setup;
      } else if k == 7 + |bullets| {
        MaintenanceSingleLine();
      } else if k == 9 + |bullets| {
        ClosingSingleLine();
      }
    }
  }

  /** Read line by line, the block of a well-formed service is: the name and
      price, a blank line, the description, a blank line, the heading, one
      bullet line per feature in table order, a blank line, the setup line,
      the maintenance line, a blank line and the closing line. */
  lemma ServiceBlockLayout(e: Service)
    requires WellFormed(e)
    ensures var lines := SplitLines(ServiceBlock(e));
      && |lines| == |e.features| + 10
      && lines[0] == "**" + e.name + "** - " + e.price
      && lines[1] == "" && lines[2] == e.description && lines[3] == ""
      && lines[4] == FeaturesHeading
      && (forall k :: 0 <= k < |e.features| ==> lines[5 + k] == Bullet + e.features[k])
      && lines[|e.features| + 5] == ""
      && lines[|e.features| + 6] == SetupLabel + e.setup
      && lines[|e.features| + 7] == MaintenanceLine
      && lines[|e.features| + 9] == ClosingLine
  {
    ServiceBlockIsJoin(e);
    ServiceBlockLinesSingle(e);
    SplitJoin(ServiceBlockLines(e));
  }

  // ---------------------------------------------------------------------------
  // Every entry of the table is well-formed
  // ---------------------------------------------------------------------------
  // The solver's cost of showing that a string literal holds no newline
  // grows quickly with its length and with the number of literals in one
  // proof. So each piece of a description gets its own small lemma, and
  // the pieces are joined with SingleLineAppend.

  lemma CustomerServiceDescription1() ensures SingleLine("24/7 automated customer support with FAQ ") { }
  lemma CustomerServiceDescription2() ensures SingleLine("responses, escalation to human agents, ") { }
  lemma CustomerServiceDescription3() ensures SingleLine("and multi-platform support") { }

  lemma CustomerServiceFeatures()
    ensures forall k :: 0 <= k < |CustomerService.features| ==> SingleLine(CustomerService.features[k])
  {
  }

  lemma CustomerServiceWellFormed() ensures WellFormed(CustomerService)
  {
    CustomerServiceDescription1(); CustomerServiceDescription2(); CustomerServiceDescription3();
    SingleLineAppend("24/7 automated customer support with FAQ ", "responses, escalation to human agents, ");
    SingleLineAppend("24/7 automated customer support with FAQ " + "responses, escalation to human agents, ", "and multi-platform support");
    CustomerServiceFeatures();
  }

  lemma LeadGenerationDescription1() ensures SingleLine("Capture, qualify, and nurture leads ") { }
  lemma LeadGenerationDescription2() ensures SingleLine("automatically from multiple sources") { }

  lemma LeadGenerationFeatures()
    ensures forall k :: 0 <= k < |LeadGeneration.features| ==> SingleLine(LeadGeneration.features[k])
  {
  }

  lemma LeadGenerationWellFormed() ensures WellFormed(LeadGeneration)
  {
    LeadGenerationDescription1(); LeadGenerationDescription2();
    SingleLineAppend("Capture, qualify, and nurture leads ", "automatically from multiple sources");
    LeadGenerationFeatures();
  }

  lemma SocialMediaDescription1() ensures SingleLine("Schedule posts, respond to comments, ") { }
  lemma SocialMediaDescription2() ensures SingleLine("and grow your social presence ") { }
  lemma SocialMediaDescription3() ensures SingleLine("automatically") { }

  lemma SocialMediaFeatures()
    ensures forall k :: 0 <= k < |SocialMedia.features| ==> SingleLine(SocialMedia.features[k])
  {
  }

  lemma SocialMediaWellFormed() ensures WellFormed(SocialMedia)
  {
    SocialMediaDescription1(); SocialMediaDescription2(); SocialMediaDescription3();
    SingleLineAppend("Schedule posts, respond to comments, ", "and grow your social presence ");
    SingleLineAppend("Schedule posts, respond to comments, " + "and grow your social presence ", "automatically");
    SocialMediaFeatures();
  }

  lemma EmailMarketingDescription1() ensures SingleLine("Personalized email sequences with ") { }
  lemma EmailMarketingDescription2() ensures SingleLine("behavioral triggers and A/B testing") { }

  lemma EmailMarketingFeatures()
    ensures forall k :: 0 <= k < |EmailMarketing.features| ==> SingleLine(EmailMarketing.features[k])
  {
  }

  lemma EmailMarketingWellFormed() ensures WellFormed(EmailMarketing)
  {
    EmailMarketingDescription1(); EmailMarketingDescription2();
    SingleLineAppend("Personalized email sequences with ", "behavioral triggers and A/B testing");
    EmailMarketingFeatures();
  }

  lemma InventoryDescription1() ensures SingleLine("Real-time stock tracking with automatic ") { }
  lemma InventoryDescription2() ensures SingleLine("reordering and supplier communication") { }

  lemma InventoryFeatures()
    ensures forall k :: 0 <= k < |Inventory.features| ==> SingleLine(Inventory.features[k])
  {
  }

  lemma InventoryWellFormed() ensures WellFormed(Inventory)
  {
    InventoryDescription1(); InventoryDescription2();
    SingleLineAppend("Real-time stock tracking with automatic ", "reordering and supplier communication");
    InventoryFeatures();
  }

  lemma AppointmentsDescription1() ensures SingleLine("Automated booking system with calendar ") { }
  lemma AppointmentsDescription2() ensures SingleLine("integration and reminders") { }

  lemma AppointmentsFeatures()
    ensures forall k :: 0 <= k < |Appointments.features| ==> SingleLine(Appointments.features[k])
  {
  }

  lemma AppointmentsWellFormed() ensures WellFormed(Appointments)
  {
    AppointmentsDescription1(); AppointmentsDescription2();
    SingleLineAppend("Automated booking system with calendar ", "integration and reminders");
    AppointmentsFeatures();
  }

  /** Every entry of the table fits the layout of the reply block. */
  lemma TableWellFormed()
    ensures forall k :: 0 <= k < |Services| ==> WellFormed(Services[k])
  {
    CustomerServiceWellFormed();
    LeadGenerationWellFormed();
    SocialMediaWellFormed();
    EmailMarketingWellFormed();
    InventoryWellFormed();
    AppointmentsWellFormed();
  }

  /** `split(" ")[0]` of a name written as a space-free word, a space and the rest. */
  lemma FirstWordOf(w: string, rest: string)
    requires ' ' !in w
    ensures FirstWord(w + " " + rest) == w
  {
    FirstWordAt(w + " " + rest, |w|);
    assert (w + " " + rest)[..|w|] == w;
  }

  /** The words by which the entries are found, in table order. */
  lemma CustomerServiceWord() ensures SearchTerms(Services[0])[1] == "customer"
  {
    FirstWordOf("Customer", "Service Chatbot");
  }

  lemma LeadGenerationWord() ensures SearchTerms(Services[1])[1] == "lead"
  {
    FirstWordOf("Lead", "Generation Automation");
  }

  lemma SocialMediaWord() ensures SearchTerms(Services[2])[1] == "social"
  {
    FirstWordOf("Social", "Media Automation");
  }

  lemma EmailMarketingWord() ensures SearchTerms(Services[3])[1] == "email"
  {
    FirstWordOf("Email", "Marketing Automation");
  }

  lemma InventoryWord() ensures SearchTerms(Services[4])[1] == "inventory"
  {
    FirstWordOf("Inventory", "Management");
  }

  lemma AppointmentsWord() ensures SearchTerms(Services[5])[1] == "appointment"
  {
    FirstWordOf("Appointment", "Scheduling");
  }
}
