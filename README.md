# ZeroInputAI site: chat widget and lead forms

A model of the logic in the ZeroInputAI agency's marketing site. It has
three parts.

**The chat widget's answer function.** `generateResponse` lower-cases the
visitor's text and then runs a fixed chain of eleven tests. The first test
that passes picks the answer.

The tests, in order:
1. greeting;
2. pricing;
3. what management includes;
4. setup-only purchase;
5. setup duration;
6. setup in general;
7. lookup in the table of six services;
8. custom automations;
9. industries;
10. support;
11. contact.

When no test passes, the answer is a menu. A keyword test is a plain
substring test (`includes`). The service lookup takes the first entry, in
table order, whose lower-cased full name or lower-cased first word occurs
in the text. Its answer is a block built from that entry: name and price,
description, one bullet line per feature, setup time, and three fixed lines (the features heading, the
maintenance line and the closing line).
The canned answers are kept verbatim.

**The chat session.** The session holds:
- the message list, which starts with the welcome message;
- the input box;
- the "typing" flag;
- the pending timers.

Sending shows the visitor's text at once and sets a 1500 ms timer for the
answer. A quick-question button fills the input box and sets a 100 ms
timer, which then sends the question the same way. The buttons are shown
only while the list holds only the welcome message. Timers are modelled as
two FIFO queues, and the environment chooses which queue fires next.
- The session's invariant: the answers shown are the answers, under the
  answer function, to the visitor's texts of the same rank.
- The texts not yet answered are exactly those in the answer queue.
- "Typing" shows only while an answer is due, but not always then. Two
  quick-question presses before the first 100 ms timer fires queue two
  answers. The first answer turns "typing" off while the second is still
  due, and the input box and send button are enabled again.

**The two forms.**
- The lead-capture form requires all four fields to be non-empty.
- The contact form requires name, e-mail and message; the business name is
  optional.
- In both forms, a rejected submit leaves the form unchanged and an
  accepted one clears every field. Each edit replaces one field only.
- Each submit handler checks only that the fields are non-empty: it trims
  nothing and does not look at the e-mail's shape. The e-mail box is a
  `type="email"` input, so the browser checks that box before the handler
  runs.

Facts the proofs bring out about the source as written:
- "hi" matches inside words, so "How much does this cost?" gets the
  greeting and not the prices.
- The "Setup Time" quick question ("How long is setup?") gets the general
  24-hour setup answer. Only texts holding "setup time", "how long setup"
  or "how long does setup take" get the 3-5 business days answer.
- A pricing question that names a service gets the price list, not the
  service's block.

Files:
- `text.dfy`: lower-casing, `includes`, `split(" ")[0]`, `join("\n")`,
  `trim()`.
- `search.dfy`: first-match search.
- `knowledge_base.dfy`: the service table, the lookup and the service
  block.
- `canned_replies.dfy`: the canned answer texts.
- `responder.dfy`: the rule chain.
- `responder_examples.dfy`: answers to the quick questions and a few typed
  texts.
- `conversation.dfy`: the chat session.
- `lead_capture.dfy`: the lead-capture form.
- `contact.dfy`: the contact form.

## Model

| member | source | states |
|---|---|---|
| Text.LowerFixesLowerCase | src/components/Chatbot.tsx:94 | lower-casing leaves no upper-case letter, fixes a lower-case text, and is idempotent |
| Text.OccursPrefix | src/components/Chatbot.tsx:173-174 | a text that contains a pattern contains every prefix of it |
| Text.OccursInfix | src/components/Chatbot.tsx:153-158 | a text that contains a pattern contains every piece of it |
| Text.FirstWord | src/components/Chatbot.tsx:174 | `split(" ")[0]` is a space-free prefix ending at the first space or at the end |
| Text.SplitJoin | src/components/Chatbot.tsx:180 | splitting on newlines undoes `join("\n")` of single-line texts |
| Text.JoinAppend | src/components/Chatbot.tsx:180 | joining two lists puts exactly one newline between their joins |
| Text.TrimEmptyIffBlank | src/components/Chatbot.tsx:278 | `trim()` is empty exactly when every character is JavaScript whitespace |
| Search.FirstIndex | src/components/Chatbot.tsx:172-187 | the index returned satisfies the test and no earlier one does; None exactly when no element does |
| KnowledgeBase.FindService | src/components/Chatbot.tsx:172-174 | the lookup returns the first entry, in table order, that the text names; None exactly when it names none |
| KnowledgeBase.FindServiceAt | src/components/Chatbot.tsx:172-174 | the lookup stops at the first named entry |
| KnowledgeBase.MentionsIffFirstWord | src/components/Chatbot.tsx:173-174 | the full-name test never decides: a text names a service exactly when it holds the name's lower-cased first word |
| KnowledgeBase.Bullets | src/components/Chatbot.tsx:180 | one bullet line per feature, in table order |
| KnowledgeBase.ServiceBlockIsJoin | src/components/Chatbot.tsx:175-185 | the service block is the newline join of its lines |
| KnowledgeBase.ServiceBlockLayout | src/components/Chatbot.tsx:175-185 | read line by line, the block is name and price, description, heading, each feature bulleted in order, setup, maintenance and closing line |
| KnowledgeBase.TableWellFormed | src/components/Chatbot.tsx:39-91 | every entry of the table has single-line name, description, price, setup and features, and at least one feature |
| KnowledgeBase.CustomerServiceWord | src/components/Chatbot.tsx:42 | the first entry is found by "customer" |
| KnowledgeBase.LeadGenerationWord | src/components/Chatbot.tsx:49 | the second entry is found by "lead" |
| KnowledgeBase.SocialMediaWord | src/components/Chatbot.tsx:56 | the third entry is found by "social" |
| KnowledgeBase.EmailMarketingWord | src/components/Chatbot.tsx:63 | the fourth entry is found by "email" |
| KnowledgeBase.InventoryWord | src/components/Chatbot.tsx:70 | the fifth entry is found by "inventory" |
| KnowledgeBase.AppointmentsWord | src/components/Chatbot.tsx:77 | the sixth entry is found by "appointment" |
| Responder.FirstFiring | src/components/Chatbot.tsx:96-254 | the rule picked passes and no earlier rule passes; none exactly when no rule passes |
| Responder.ChooseIsFirstFiring | src/components/Chatbot.tsx:93-273 | every text gets an answer: that of the first rule passing on the lower-cased text, and the menu exactly when none passes |
| Responder.CannedIff | src/components/Chatbot.tsx:96-254 | a canned answer is given exactly when one of its keywords occurs and no earlier rule passes |
| Responder.GreetingIff | src/components/Chatbot.tsx:97-99 | the greeting is given exactly when "hello", "hi" or "hey" occurs anywhere, whatever else the text holds |
| Responder.ServiceIff | src/components/Chatbot.tsx:157-187 | a service block is given exactly when the six earlier rules fail and the lookup succeeds, and it is the block of the entry found |
| Responder.ServiceMentioned | src/components/Chatbot.tsx:172-186 | a service answer is about a table entry that the lower-cased text names |
| Responder.ServiceAnswerText | src/components/Chatbot.tsx:172-186 | the text of a service answer is the reply block of a well-formed entry of the table |
| Responder.ServiceAnswerLayout | src/components/Chatbot.tsx:172-186 | the block of a service answer has one line per feature plus ten: name and price first, then the description, each feature bulleted in order, and the setup time |
| Responder.EarlierRuleWins | src/components/Chatbot.tsx:96-254 | when a rule passes, the answer comes from it or from an earlier rule |
| Responder.CaseInsensitive | src/components/Chatbot.tsx:94 | texts with the same lower-cased form get the same answer |
| Responder.ChooseLowered | src/components/Chatbot.tsx:94 | answering the lower-cased text gives the same answer as the text |
| Responder.DurationKeywordsHoldSetup | src/components/Chatbot.tsx:153-158 | every text that passes the duration test also passes the general setup test |
| ResponderExamples.PricesQuestionAnswer | src/components/Chatbot.tsx:101-140 | "What are your prices?" gets the pricing answer |
| ResponderExamples.SetupQuestionAnswer | src/components/Chatbot.tsx:152-169 | "How long is setup?" gets the general 24-hour setup answer, not the duration answer |
| ResponderExamples.LeadQuestionAnswer | src/components/Chatbot.tsx:172-187 | "Tell me about lead generation" gets the block of the second entry |
| ResponderExamples.ThisCostGetsGreeting | src/components/Chatbot.tsx:97-99 | "How much does this cost?" gets the greeting, because "hi" occurs in "this" |
| ResponderExamples.SetupTimePassesBoth | src/components/Chatbot.tsx:153-158 | "setup time" passes both the duration test and the general setup test |
| ResponderExamples.SetupTimeAnswer | src/components/Chatbot.tsx:152-155 | "setup time" gets the duration answer, because that test comes first |
| ResponderExamples.LeadCostGetsPricing | src/components/Chatbot.tsx:101-187 | "how much does lead generation cost" names a service and still gets the pricing answer |
| Conversation.ChatSession.constructor | src/components/Chatbot.tsx:17-26 | the session starts with the welcome message only, an empty input, no "typing" and no timers |
| Conversation.OpenChat | src/components/Chatbot.tsx:17-26 | the widget's session answers with the answer function and starts consistent |
| Conversation.ChatSession.SendEnabled | src/components/Chatbot.tsx:470 | the send button is enabled exactly when "typing" is off and the input is not all whitespace |
| Conversation.DoublePress | src/components/Chatbot.tsx:305-329 | two quick-question presses, both timers and the first answer leave "typing" off with one answer still due, and the input box accepts typing |
| Conversation.ChatSession.SetInput | src/components/Chatbot.tsx:464-468 | typing replaces the input except while "typing" shows; the invariant is kept |
| Conversation.ChatSession.Send | src/components/Chatbot.tsx:276-291 | sends exactly when "typing" is off and the input is not all whitespace, the condition `SendEnabled` states: appends one visitor message with the input's text, clears the input, sets "typing" and queues the answer; otherwise nothing changes; the invariant is kept |
| Conversation.ChatSession.Enqueue | src/components/Chatbot.tsx:280-289 | the text joins the list as a visitor message, "typing" shows and its answer is queued; input and quick timers are unchanged; the invariant is kept |
| Conversation.ChatSession.DeliverReply | src/components/Chatbot.tsx:292-302 | appends one answer message whose text answers the oldest pending text, and clears "typing"; the invariant is kept |
| Conversation.ChatSession.QuickQuestion | src/components/Chatbot.tsx:305-308 | takes one of the three button questions; shown only while the list holds the welcome message alone; puts the question in the input and sets its timer |
| Conversation.ChatSession.FireQuick | src/components/Chatbot.tsx:308-319 | appends the question as a visitor message, sets "typing" and queues its answer; the input keeps the question |
| LeadCapture.Set | src/components/LeadCapture.tsx:87-115 | an edit gives one field its new value and leaves the other three unchanged |
| LeadCapture.CompleteIffNoneEmpty | src/components/LeadCapture.tsx:21 | the submit check passes exactly when no field is empty |
| LeadCapture.WhitespaceAccepted | src/components/LeadCapture.tsx:21 | fields holding only a space pass: nothing is trimmed |
| LeadCapture.ClearedRejected | src/components/LeadCapture.tsx:36-42 | the cleared form fails the check, so a second submit after success is rejected |
| LeadCapture.EditsCommute | src/components/LeadCapture.tsx:87-115 | edits of different fields can be made in either order |
| LeadCapture.FilledForm | src/components/LeadCapture.tsx:21-53 | filling name, e-mail, business and a listed automation gives a form that passes exactly when the three typed values are non-empty |
| LeadCapture.ChoicesNonEmpty | src/components/LeadCapture.tsx:45-53 | seven choices ending with "Other", none empty |
| LeadCapture.LeadCaptureForm.constructor | src/components/LeadCapture.tsx:10-15 | the form starts with four empty fields |
| LeadCapture.LeadCaptureForm.Edit | src/components/LeadCapture.tsx:87-109 | typing in a box replaces that field only |
| LeadCapture.LeadCaptureForm.SelectAutomation | src/components/LeadCapture.tsx:115-124 | choosing a listed automation replaces that field only, with a non-empty value |
| LeadCapture.LeadCaptureForm.Submit | src/components/LeadCapture.tsx:18-43 | accepted exactly when no field is empty; accepted clears all four fields, rejected leaves the form unchanged |
| Contact.Set | src/components/Contact.tsx:74-107 | an edit gives one field its new value and leaves the other three unchanged |
| Contact.CompleteIffRequiredFilled | src/components/Contact.tsx:21 | the submit check passes exactly when name, e-mail and message are non-empty |
| Contact.BusinessOptional | src/components/Contact.tsx:21 | the business name never changes the check's verdict |
| Contact.WhitespaceAccepted | src/components/Contact.tsx:21 | required fields holding only a space pass: nothing is trimmed |
| Contact.ClearedRejected | src/components/Contact.tsx:36-42 | the cleared form fails the check, so a second submit after success is rejected |
| Contact.EditsCommute | src/components/Contact.tsx:74-107 | edits of different fields can be made in either order |
| Contact.ContactForm.constructor | src/components/Contact.tsx:10-15 | the form starts with four empty fields |
| Contact.ContactForm.Edit | src/components/Contact.tsx:74-107 | typing in a box replaces that field only |
| Contact.ContactForm.Submit | src/components/Contact.tsx:18-43 | accepted exactly when name, e-mail and message are non-empty; accepted clears all four fields, business included, rejected leaves the form unchanged |

## Left out

- Rendering, styling, icons, opening and closing the widget, and scrolling to the last message. They do not affect the state.
- Toast notifications in all three components. They are a side channel to the user.
- Clock-derived message ids and time stamps. Ids are parameters of the steps, and nothing assumes they are unique. Time stamps are dropped.
- Timer durations. The 100 ms and 1500 ms timers are queues whose next firing the environment chooses. Timers of one kind fire in the order they were set.
- `toLowerCase` is modelled on the ASCII letters only. Keywords and table names hold no non-ASCII letter, but the visitor's text may. JavaScript lower-cases some non-ASCII letters to ASCII ones: U+0130 becomes "i" followed by U+0307, and U+212A (the Kelvin sign) becomes "k". So "H\u0130" gets the greeting in the source and the menu in the model.
- Responder.Choose: the chain of `if` tests is modelled as a table of eleven rules searched for the first one that passes. The answer texts sit in `CannedReplies.TopicText`, and the answer function is `Responder.GenerateResponse`. Apart from the layout of the service block, the lemmas state which answer is picked, not what its text says.
- Conversation.ChatSession.Send: the handler itself checks only that the trimmed input is non-empty. The "typing is off" condition comes from the disabled input and button. Sending while "typing" is therefore a no-op in the model.
- Conversation.ChatSession.SetInput: likewise, the input box is disabled while "typing", so typing then changes nothing.
- Conversation.ChatSession.QuickQuestion: the buttons are hidden once the list holds more than the welcome message. A press at that point is modelled as a call that changes nothing.
- LeadCapture.LeadCaptureForm.Submit: the browser's own check of the `type="email"` box (LeadCapture.tsx:94) is not modelled. The form does not turn it off: the browser strips leading and trailing whitespace from that box and blocks a malformed address before the handler runs.
- Contact.ContactForm.Submit: likewise, the browser's check of the `type="email"` box (Contact.tsx:80) is not modelled.
- The static pages (services list, hero, index page), the downloadable free-automation page and the 3D scene are not part of this model.
