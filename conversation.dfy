/** The chat window of the widget: the list of messages, the input box, the
    "typing" flag, and the timers that are still to fire. Sending a text
    shows it at once and schedules the answer 1500 ms later; a quick
    question first waits 100 ms and is then sent the same way. The timers
    are modelled as two queues, and the environment chooses which queue
    fires next; timers of one kind fire in the order they were set. */
module Conversation {
  import opened Text
  import opened Responder

  datatype Sender = User | Bot

  /** A message of the list; the time stamp is left out. */
  datatype Message = Message(id: string, text: string, sender: Sender)

  /** The message the list starts with. */
  const Welcome: Message := Message("1",
    "Hi! I'm your ZeroInputAI assistant. I can help you "
    + "learn about our automation services, pricing, and setup "
    + "process. What would you like to know?",
    Bot)

  /** The questions behind the three quick-question buttons. */
  const QuickQuestions: seq<string> :=
    ["What are your prices?", "How long is setup?", "Tell me about lead generation"]

  /** The texts of the visitor's messages, in order. */
  function UserTexts(ms: seq<Message>): seq<string>
  {
    if ms == [] then []
    else UserTexts(ms[..|ms| - 1]) + (if ms[|ms| - 1].sender == User then [ms[|ms| - 1].text] else [])
  }

  /** The texts of the widget's messages, in order. */
  function BotTexts(ms: seq<Message>): seq<string>
  {
    if ms == [] then []
    else BotTexts(ms[..|ms| - 1]) + (if ms[|ms| - 1].sender == Bot then [ms[|ms| - 1].text] else [])
  }

  /** The answers to `questions`, in order. */
  function Answers(respond: string -> string, questions: seq<string>): (answers: seq<string>)
    ensures |answers| == |questions|
    ensures forall i :: 0 <= i < |questions| ==> answers[i] == respond(questions[i])
  {
    seq(|questions|, i requires 0 <= i < |questions| => respond(questions[i]))
  }

  lemma AppendMessage(ms: seq<Message>, m: Message)
    ensures UserTexts(ms + [m]) == UserTexts(ms) + (if m.sender == User then [m.text] else [])
    ensures BotTexts(ms + [m]) == BotTexts(ms) + (if m.sender == Bot then [m.text] else [])
  {
    assert (ms + [m])[..|ms|] == ms;
  }

  /** The answer queue holds the last texts of `questions`. */
  ghost predicate QueueTail(questions: seq<string>, queue: seq<string>)
  {
    |queue| <= |questions| && questions[|questions| - |queue|..] == queue
  }

  /** The texts of `questions` that are no longer in the queue. */
  ghost function Answered(questions: seq<string>, queue: seq<string>): seq<string>
    requires |queue| <= |questions|
  {
    questions[..|questions| - |queue|]
  }

  /** A text sent joins both the questions and the queue; the answered
      texts stay the same. */
  lemma {:induction false} QueueSend(questions: seq<string>, queue: seq<string>, text: string)
    requires QueueTail(questions, queue)
    ensures QueueTail(questions + [text], queue + [text])
    ensures Answered(questions + [text], queue + [text]) == Answered(questions, queue)
  {
    var q := questions + [text];
    assert q[|q| - |queue| - 1..] == questions[|questions| - |queue|..] + [text];
    assert q[..|q| - |queue| - 1] == questions[..|questions| - |queue|];
  }

  /** Answering the head of the queue moves it to the answered texts. */
  lemma {:induction false} QueueAnswer(questions: seq<string>, queue: seq<string>)
    requires QueueTail(questions, queue) && |queue| > 0
    ensures QueueTail(questions, queue[1..])
    ensures Answered(questions, queue[1..]) == Answered(questions, queue) + [queue[0]]
  {
    var n := |questions| - |queue|;
    assert questions[n] == queue[0];
    assert questions[n + 1..] == questions[n..][1..];
    assert questions[..n + 1] == questions[..n] + [questions[n]];
  }

  /** The list starts with the welcome message; every answer shown after
      it is the answer to the visitor's text of the same rank; the texts
      not yet answered are exactly those in the answer queue, in order;
      and the widget shows "typing" only while an answer is due. */
  ghost predicate Consistent(respond: string -> string, messages: seq<Message>, isTyping: bool, replyTimers: seq<string>)
  {
    && |messages| >= 1 && messages[0] == Welcome
    && var questions := UserTexts(messages[1..]);
    && QueueTail(questions, replyTimers)
    && BotTexts(messages[1..]) == Answers(respond, Answered(questions, replyTimers))
    && (isTyping ==> |replyTimers| > 0)
  }

  /** Sending a text keeps the session consistent: it joins the list as a
      visitor message and the answer queue, and "typing" shows. */
  lemma SendConsistent(respond: string -> string, messages: seq<Message>, isTyping: bool,
                       replyTimers: seq<string>, id: string, text: string)
    requires Consistent(respond, messages, isTyping, replyTimers)
    ensures Consistent(respond, messages + [Message(id, text, User)], true, replyTimers + [text])
  {
    var m := Message(id, text, User);
    AppendMessage(messages[1..], m);
    assert (messages + [m])[1..] == messages[1..] + [m];
    QueueSend(UserTexts(messages[1..]), replyTimers, text);
  }

  /** Answering the oldest queued text keeps the session consistent: the
      answer joins the list as a widget message and "typing" goes off. */
  lemma ReplyConsistent(respond: string -> string, messages: seq<Message>, isTyping: bool,
                        replyTimers: seq<string>, id: string)
    requires Consistent(respond, messages, isTyping, replyTimers) && |replyTimers| > 0
    ensures Consistent(respond, messages + [Message(id, respond(replyTimers[0]), Bot)], false, replyTimers[1..])
  {
    var reply := Message(id, respond(replyTimers[0]), Bot);
    AppendMessage(messages[1..], reply);
    assert (messages + [reply])[1..] == messages[1..] + [reply];
    QueueAnswer(UserTexts(messages[1..]), replyTimers);
  }

  class ChatSession {
    /** The answer function, `generateResponse`. */
    const respond: string -> string
    var messages: seq<Message>
    var input: string
    var isTyping: bool
    /** Quick questions whose 100 ms timer has not fired yet. */
    var quickTimers: seq<string>
    /** Texts whose 1500 ms answer timer has not fired yet. */
    var replyTimers: seq<string>

    /** The session's fields are consistent. */
    ghost predicate Valid()
      reads this
    {
      Consistent(respond, messages, isTyping, replyTimers)
    }

    /** The window as it opens, answering with `respond`. */
    constructor (respond: string -> string)
      ensures Valid()
      ensures this.respond == respond
      ensures messages == [Welcome] && input == "" && !isTyping
      ensures quickTimers == [] && replyTimers == []
    {
      this.respond := respond;
      messages := [Welcome];
      input := "";
      isTyping := false;
      quickTimers := [];
      replyTimers := [];
    }

    /** The send button is enabled: "typing" is off and the trimmed input
        is not empty, that is, the input holds more than whitespace. */
    function SendEnabled(): (enabled: bool)
      reads this
      ensures enabled <==> !isTyping && !Blank(input)
    {
      TrimEmptyIffBlank(input);
      !isTyping && Trim(input) != []
    }

    /** Typing in the input box; the box is disabled while "typing" shows. */
    method SetInput(text: string)
      requires Valid()
      modifies this
      ensures Valid()
      ensures input == (if old(isTyping) then old(input) else text)
      ensures messages == old(messages) && isTyping == old(isTyping)
      ensures quickTimers == old(quickTimers) && replyTimers == old(replyTimers)
    {
      if !isTyping {
        input := text;
      }
    }

    /** `handleSendMessage`: the input's text becomes a visitor message, the
        box is cleared, "typing" shows and the answer timer is set. Nothing
        happens when the form cannot be sent, which is exactly when
        `SendEnabled()` is false. */
    method Send(id: string) returns (sent: bool)
      requires Valid()
      modifies this
      ensures Valid()
      ensures sent <==> !old(isTyping) && !Blank(old(input))
      ensures sent ==> && messages == old(messages) + [Message(id, old(input), User)]
                       && input == "" && isTyping
                       && replyTimers == old(replyTimers) + [old(input)]
      ensures !sent ==> messages == old(messages) && input == old(input) && isTyping == old(isTyping)
                        && replyTimers == old(replyTimers)
      ensures quickTimers == old(quickTimers)
    {
      sent := !isTyping && !Blank(input);
      if sent {
        Enqueue(id, input);
        input := "";
      }
    }

    /** What sending a text does, from the input box or from a quick-question
        timer: it joins the list as a visitor message, "typing" shows and
        its answer timer is set. */
    method Enqueue(id: string, text: string)
      requires Valid()
      modifies this
      ensures Valid()
      ensures messages == old(messages) + [Message(id, text, User)]
      ensures isTyping && replyTimers == old(replyTimers) + [text]
      ensures input == old(input) && quickTimers == old(quickTimers)
    {
      SendConsistent(respond, messages, isTyping, replyTimers, id, text);
      messages := messages + [Message(id, text, User)];
      isTyping := true;
      replyTimers := replyTimers + [text];
    }

    /** The oldest answer timer fires: the answer to its text is shown and
        "typing" goes off. */
    method DeliverReply(id: string)
      requires Valid() && |replyTimers| > 0
      modifies this
      ensures Valid()
      ensures messages == old(messages) + [Message(id, respond(old(replyTimers)[0]), Bot)]
      ensures replyTimers == old(replyTimers)[1..] && !isTyping
      ensures input == old(input) && quickTimers == old(quickTimers)
    {
      ReplyConsistent(respond, messages, isTyping, replyTimers, id);
      messages := messages + [Message(id, respond(replyTimers[0]), Bot)];
      isTyping := false;
      replyTimers := replyTimers[1..];
    }

    /** `handleQuickQuestion`: the question of the button pressed is put in
        the input box and its 100 ms timer is set. The buttons are shown only
        while the list holds just the welcome message. */
    method QuickQuestion(question: string) returns (shown: bool)
      requires Valid() && question in QuickQuestions
      modifies this
      ensures Valid()
      ensures shown <==> |old(messages)| == 1
      ensures shown ==> input == question && quickTimers == old(quickTimers) + [question]
      ensures !shown ==> input == old(input) && quickTimers == old(quickTimers)
      ensures messages == old(messages) && isTyping == old(isTyping) && replyTimers == old(replyTimers)
    {
      shown := |messages| == 1;
      if shown {
        input := question;
        quickTimers := quickTimers + [question];
      }
    }

    /** The oldest quick-question timer fires: the question becomes a
        visitor message, "typing" shows and the answer timer is set. The
        input box keeps the question. */
    method FireQuick(id: string)
      requires Valid() && |quickTimers| > 0
      modifies this
      ensures Valid()
      ensures messages == old(messages) + [Message(id, old(quickTimers)[0], User)]
      ensures quickTimers == old(quickTimers)[1..] && isTyping
      ensures replyTimers == old(replyTimers) + [old(quickTimers)[0]]
      ensures input == old(input)
    {
      Enqueue(id, quickTimers[0]);
      quickTimers := quickTimers[1..];
    }
  }

  /** Two quick-question presses before the first 100 ms timer fires, both
      timers and the first answer: "typing" is off although the second
      answer is still due, so the input box takes typing again. */
  method DoublePress(respond: string -> string) returns (session: ChatSession)
    ensures session.Valid()
    ensures !session.isTyping && |session.replyTimers| == 1
    ensures session.input == "x"
  {
    session := new ChatSession(respond);
    var shown := session.QuickQuestion(QuickQuestions[0]);
    shown := session.QuickQuestion(QuickQuestions[1]);
    session.FireQuick("2");
    session.FireQuick("3");
    session.DeliverReply("4");
    session.SetInput("x");
  }

  /** The widget's window as it opens: it answers with `generateResponse`. */
  method OpenChat() returns (session: ChatSession)
    ensures fresh(session) && session.Valid()
    ensures session.respond == GenerateResponse
    ensures session.messages == [Welcome] && session.input == "" && !session.isTyping
    ensures session.quickTimers == [] && session.replyTimers == []
  {
    session := new ChatSession(GenerateResponse);
  }
}
