/** The help chat widget: canned answers looked up by the trimmed question,
    the user's message shown at once and the answer a second later, the
    Enter key and the show/hide toggle. */
module ChatBox {
  import opened Js
  import opened Outcomes

  /** What a canned answer is about; each has one fixed text. */
  datatype Topic = Greeting | About | Registration | Contact | Payment | BookingHistory | AddMoney | Balance

  /** What the bot says: a canned answer or the fallback. */
  datatype Answer = Canned(topic: Topic) | NotUnderstood

  /** The text shown for an answer. */
  function AnswerText(a: Answer): string
  {
    match a
    case Canned(Greeting) => "Hello! How can I assist you today?"
    case Canned(About) => "This is a flight booking system where users can search for flights, book tickets, manage their bookings, and more."
    case Canned(Registration) => "You can register by clicking on the 'Sign Up' button on the homepage."
    case Canned(Contact) => "You can contact us via the 'Contact Us' section in the footer."
    case Canned(Payment) => "We support various payment methods including credit cards and PayPal."
    case Canned(BookingHistory) => "You can view your booking history by going to the 'My Bookings' section in your dashboard."
    case Canned(AddMoney) => "You can add money to your wallet by going to the 'Wallet' section in your dashboard and clicking on the 'Add Money' button."
    case Canned(Balance) => "You can check your wallet balance in the 'Wallet' section of your dashboard."
    case NotUnderstood => "Sorry, I didn't understand that. Can you ask another question?"
  }

  /** The canned answers, keyed by the exact question text, in the order
      the object literal lists them. */
  const PredefinedResponses: seq<(string, Topic)> := [
    ("hi", Greeting),
    ("HI", Greeting),
    ("What is this project about?", About),
    ("How can I register?", Registration),
    ("What is the contact information?", Contact),
    ("What are the payment options?", Payment),
    ("How do I view my booking history?", BookingHistory),
    ("How do I add money to my wallet?", AddMoney),
    ("What is the balance in my wallet?", Balance)
  ]

  /** The topic a table holds for a key: its own property, if any. */
  function TopicOf(table: seq<(string, Topic)>, key: string): Option<Topic> {
    if |table| == 0 then None
    else if table[0].0 == key then Some(table[0].1)
    else TopicOf(table[1..], key)
  }

  /** What the lookup finds is an entry of the table. */
  lemma {:induction false} TopicOfFound(table: seq<(string, Topic)>, key: string)
    ensures TopicOf(table, key).Some? ==> exists i :: 0 <= i < |table| && table[i] == (key, TopicOf(table, key).value)
  {
    if |table| > 0 && table[0].0 != key {
      TopicOfFound(table[1..], key);
      if TopicOf(table, key).Some? {
        var i :| 0 <= i < |table[1..]| && table[1..][i] == (key, TopicOf(table, key).value);
        assert table[i + 1] == table[1..][i];
      }
    }
  }

  /** The names every plain object literal inherits from `Object.prototype`. */
  const InheritedMembers: seq<string> := [
    "constructor", "toString", "toLocaleString", "valueOf", "hasOwnProperty",
    "isPrototypeOf", "propertyIsEnumerable", "__proto__",
    "__defineGetter__", "__defineSetter__", "__lookupGetter__", "__lookupSetter__"
  ]

  /** What `predefinedResponses[key] || fallback` yields: an answer, or an
      inherited member (a function, or the prototype object itself), which
      is truthy and so is taken instead of the fallback. */
  datatype LookupResult = Found(answer: Answer) | InheritedMember(name: string)

  /** The lookup as written: indexing the object literal also finds the
      inherited members. */
  function ReplyAsWritten(key: string): (r: LookupResult)
    ensures r.InheritedMember? <==> key in InheritedMembers
    ensures r.InheritedMember? ==> r.name == key
    ensures r.Found? ==> r.answer == Reply(key)
  {
    match TopicOf(PredefinedResponses, key)
    case Some(topic) =>
      assert key !in InheritedMembers by {
        if key in InheritedMembers { InheritedNamesUnanswered(key); }
      }
      Found(Canned(topic))
    case None => if key in InheritedMembers then InheritedMember(key) else Found(NotUnderstood)
  }

  /** The shape of every question the table knows: "hi", "HI", or a
      sentence ending in a question mark. */
  predicate QuestionShaped(q: string) {
    q == "hi" || q == "HI" || (|q| > 0 && q[|q| - 1] == '?')
  }

  lemma QuestionsShaped()
    ensures forall i :: 0 <= i < |PredefinedResponses| ==> QuestionShaped(PredefinedResponses[i].0)
  {
  }

  /** A key unlike every question of a table finds nothing in it. */
  lemma {:induction false} TopicOfUnlike(table: seq<(string, Topic)>, key: string)
    requires forall i :: 0 <= i < |table| ==> QuestionShaped(table[i].0)
    requires !QuestionShaped(key)
    ensures TopicOf(table, key) == None
  {
    if |table| > 0 {
      assert QuestionShaped(table[0].0);
      TopicOfUnlike(table[1..], key);
    }
  }

  /** No inherited name is question-shaped. */
  lemma InheritedNameShape(key: string)
    requires key in InheritedMembers
    ensures !QuestionShaped(key)
  {
  }

  /** No question of the table is an inherited name. */
  lemma InheritedNamesUnanswered(key: string)
    requires key in InheritedMembers
    ensures TopicOf(PredefinedResponses, key).None?
  {
    InheritedNameShape(key);
    QuestionsShaped();
    TopicOfUnlike(PredefinedResponses, key);
  }

  /** Asking "toString", "constructor" or any other inherited name gets a
      function or object instead of an answer, so the bot message has no
      text to show. */
  lemma InheritedNameGetsNoAnswer(key: string)
    requires key in InheritedMembers
    ensures ReplyAsWritten(key) == InheritedMember(key)
  {
    InheritedNamesUnanswered(key);
  }

  /** The lookup on the object's own answers only. */
  function Reply(key: string): (a: Answer)
    ensures key in InheritedMembers ==> a == NotUnderstood
    ensures a.Canned? ==> exists i :: 0 <= i < |PredefinedResponses| && PredefinedResponses[i] == (key, a.topic)
  {
    assert key in InheritedMembers ==> TopicOf(PredefinedResponses, key).None? by {
      if key in InheritedMembers { InheritedNamesUnanswered(key); }
    }
    match TopicOf(PredefinedResponses, key)
    case Some(topic) => TopicOfFound(PredefinedResponses, key); Canned(topic)
    case None => NotUnderstood
  }

  /** An entry whose key no earlier entry carries is the one found. */
  lemma {:induction false} TopicOfFirst(table: seq<(string, Topic)>, i: nat)
    requires i < |table|
    requires forall j :: 0 <= j < i ==> table[j].0 != table[i].0
    ensures TopicOf(table, table[i].0) == Some(table[i].1)
  {
    if i > 0 {
      assert table[0].0 != table[i].0;
      assert table[1..][i - 1] == table[i];
      TopicOfFirst(table[1..], i - 1);
    }
  }

  /** Every question the table lists is answered with its own topic. */
  lemma EveryQuestionAnswered(i: nat)
    requires i < |PredefinedResponses|
    ensures Reply(PredefinedResponses[i].0) == Canned(PredefinedResponses[i].1)
  {
    forall j | 0 <= j < i
      ensures PredefinedResponses[j].0 != PredefinedResponses[i].0
    {
    }
    TopicOfFirst(PredefinedResponses, i);
  }

  /** A table finds nothing for a key exactly when no entry carries it. */
  lemma {:induction false} TopicOfNoneIff(table: seq<(string, Topic)>, key: string)
    ensures TopicOf(table, key) == None <==> forall i :: 0 <= i < |table| ==> table[i].0 != key
  {
    if |table| > 0 {
      TopicOfNoneIff(table[1..], key);
      if table[0].0 != key {
        forall i | 0 < i < |table|
          ensures table[i].0 == table[1..][i - 1].0
        {
        }
      }
    }
  }

  /** The fallback is given exactly for a trimmed input that is none of the
      listed questions. */
  lemma ReplyFallbackIffUnlisted(key: string)
    ensures Reply(key) == NotUnderstood <==>
      forall i :: 0 <= i < |PredefinedResponses| ==> PredefinedResponses[i].0 != key
  {
    TopicOfNoneIff(PredefinedResponses, key);
  }

  /** The corrected lookup agrees with the one as written wherever that one
      finds an answer, and answers every inherited name with the fallback. */
  lemma ReplyAgreesWhereFound(key: string)
    ensures ReplyAsWritten(key).Found? ==> ReplyAsWritten(key) == Found(Reply(key))
    ensures key in InheritedMembers ==> Reply(key) == NotUnderstood
  {
    if key in InheritedMembers {
      InheritedNamesUnanswered(key);
    }
  }

  /** The lookup is exact: "hi" and "HI" are both greeted, "Hi" is not. */
  lemma GreetingCaseSensitive()
    ensures Reply("hi") == Canned(Greeting) && Reply("HI") == Canned(Greeting)
    ensures Reply("Hi") == NotUnderstood
  {
    assert PredefinedResponses[0].0 == "hi";
    assert PredefinedResponses[1].0 == "HI";
    assert !QuestionShaped("Hi") by {
      assert "Hi"[1] != '?';
    }
    QuestionsShaped();
    TopicOfUnlike(PredefinedResponses, "Hi");
  }

  /** A bubble: the user's text as typed, or what the lookup gave the bot. */
  datatype Message = UserMessage(text: string) | BotMessage(reply: LookupResult)

  /** The text a bubble shows; a bot bubble holding an inherited member (a
      function, or the prototype object) has no text. */
  function Text(m: Message): (text: Option<string>)
    ensures m.UserMessage? ==> text == Some(m.text)
    ensures m.BotMessage? && m.reply.Found? ==> text == Some(AnswerText(m.reply.answer))
    ensures m.BotMessage? && m.reply.InheritedMember? ==> text == None
  {
    match m
    case UserMessage(text) => Some(text)
    case BotMessage(Found(answer)) => Some(AnswerText(answer))
    case BotMessage(InheritedMember(_)) => None
  }

  /** How many messages a conversation holds from the user (`fromUser`) or
      from the bot. */
  function Count(messages: seq<Message>, fromUser: bool): (n: nat)
    ensures n <= |messages|
  {
    if |messages| == 0 then 0
    else
      var last := if messages[|messages| - 1].UserMessage? == fromUser then 1 else 0;
      Count(messages[..|messages| - 1], fromUser) + last
  }

  lemma {:induction false} CountAppend(a: seq<Message>, b: seq<Message>, fromUser: bool)
    ensures Count(a + b, fromUser) == Count(a, fromUser) + Count(b, fromUser)
  {
    if |b| > 0 {
      assert (a + b)[..|a + b| - 1] == a + b[..|b| - 1];
      CountAppend(a, b[..|b| - 1], fromUser);
    } else {
      assert a + b == a;
    }
  }

  /** Every bot message directly follows a user message. */
  predicate AnswersFollowQuestions(messages: seq<Message>) {
    forall i :: 0 <= i < |messages| && messages[i].BotMessage? ==> 0 < i && messages[i - 1].UserMessage?
  }

  /** What a send shows at once: the user's message appended. */
  function Shown(messages: seq<Message>, input: string): (r: seq<Message>)
    ensures Count(r, true) == Count(messages, true) + 1
    ensures Count(r, false) == Count(messages, false)
    ensures AnswersFollowQuestions(messages) ==> AnswersFollowQuestions(r)
    ensures |r| > 0 && r[|r| - 1] == UserMessage(input)
  {
    CountAppend(messages, [UserMessage(input)], true);
    CountAppend(messages, [UserMessage(input)], false);
    messages + [UserMessage(input)]
  }

  /** The list a send's timer installs, as written: the list that send
      showed plus the reply. It replaces whatever is shown when it fires. */
  function TimerListAsWritten(shown: seq<Message>, reply: LookupResult): (r: seq<Message>)
    ensures |r| == |shown| + 1 && r[..|shown|] == shown && r[|shown|] == BotMessage(reply)
    ensures AnswersFollowQuestions(shown) && |shown| > 0 && shown[|shown| - 1].UserMessage? ==>
      AnswersFollowQuestions(r)
  {
    assert (shown + [BotMessage(reply)])[..|shown|] == shown;
    shown + [BotMessage(reply)]
  }

  /** Two questions asked within the second: the second timer's list was
      taken before the first answer arrived, and it fires last, so the
      first answer is gone; two questions were asked and one answered. */
  lemma QuickSecondQuestionLosesFirstAnswer(messages: seq<Message>, a: string, b: string, second: LookupResult)
    ensures var final := TimerListAsWritten(Shown(Shown(messages, a), b), second);
      final == messages + [UserMessage(a), UserMessage(b), BotMessage(second)] &&
      Count(final, true) == Count(messages, true) + 2 &&
      Count(final, false) == Count(messages, false) + 1
  {
    var shown := Shown(Shown(messages, a), b);
    var final := TimerListAsWritten(shown, second);
    assert final == shown + [BotMessage(second)];
    CountAppend(shown, [BotMessage(second)], true);
    CountAppend(shown, [BotMessage(second)], false);
  }

  /** A timer firing as corrected: the answer of the own-keys lookup is
      appended to the list shown at that moment. */
  function Deliver(messages: seq<Message>, answer: Answer): (r: seq<Message>)
    ensures Count(r, true) == Count(messages, true)
    ensures Count(r, false) == Count(messages, false) + 1
    ensures |r| == |messages| + 1 && r[..|messages|] == messages && r[|messages|] == BotMessage(Found(answer))
  {
    CountAppend(messages, [BotMessage(Found(answer))], true);
    CountAppend(messages, [BotMessage(Found(answer))], false);
    assert (messages + [BotMessage(Found(answer))])[..|messages|] == messages;
    messages + [BotMessage(Found(answer))]
  }

  /** The same two quick questions with corrected timers: both answers
      arrive, in the order asked. */
  lemma QuickSecondQuestionKeepsBothAnswers(messages: seq<Message>, a: string, b: string, first: Answer, second: Answer)
    ensures var final := Deliver(Deliver(Shown(Shown(messages, a), b), first), second);
      final == messages + [UserMessage(a), UserMessage(b), BotMessage(Found(first)), BotMessage(Found(second))] &&
      Count(final, true) == Count(messages, true) + 2 &&
      Count(final, false) == Count(messages, false) + 2
  {
  }

  /** The widget as written: each send arms a timer holding the list that
      send showed and the reply the object lookup gave; the timer installs
      that list plus the reply, whatever is shown when it fires. */
  class Component {
    var messages: seq<Message>
    var userInput: string
    var showChat: bool
    /** Armed timers in firing order (all wait the same second): the list
      the send showed, ending with its question, and the trimmed question
      whose looked-up reply the timer adds. */
    var timers: seq<(seq<Message>, string)>

    /** Every answer shown or armed directly follows a question, and every
      armed timer's list ends with the question it answers. */
    ghost predicate Valid()
      reads this
    {
      AnswersFollowQuestions(messages) &&
      forall k :: 0 <= k < |timers| ==>
        AnswersFollowQuestions(timers[k].0) && |timers[k].0| > 0 && timers[k].0[|timers[k].0| - 1].UserMessage?
    }

    constructor ()
      ensures Valid()
      ensures messages == [] && userInput == "" && !showChat && timers == []
    {
      messages := [];
      userInput := "";
      showChat := false;
      timers := [];
    }

    /** The input's `onChange`. */
    method SetInput(value: string)
      requires Valid()
      modifies this
      ensures Valid()
      ensures userInput == value
      ensures messages == old(messages) && showChat == old(showChat) && timers == old(timers)
    {
      userInput := value;
    }

    /** `handleSendMessage`: blank input (after trimming) does nothing;
      otherwise the untrimmed input is shown as the user's message, a timer
      is armed with that list and the reply to the trimmed input, and the
      input is cleared. */
    method HandleSendMessage()
      requires Valid()
      modifies this
      ensures Valid()
      ensures Trim(old(userInput)) == "" ==>
        messages == old(messages) && userInput == old(userInput) && timers == old(timers)
      ensures Trim(old(userInput)) != "" ==>
        messages == Shown(old(messages), old(userInput)) &&
        timers == old(timers) + [(messages, Trim(old(userInput)))] &&
        userInput == ""
      ensures showChat == old(showChat)
    {
      var question := Trim(userInput);
      if question != "" {
        messages := Shown(messages, userInput);
        timers := timers + [(messages, question)];
        userInput := "";
      }
    }

    /** The earliest timer fires and installs its own list plus its reply,
      replacing what is shown. */
    method TimerFires()
      requires Valid() && timers != []
      modifies this
      ensures Valid()
      ensures messages == TimerListAsWritten(old(timers)[0].0, ReplyAsWritten(old(timers)[0].1))
      ensures timers == old(timers)[1..]
      ensures userInput == old(userInput) && showChat == old(showChat)
    {
      messages := TimerListAsWritten(timers[0].0, ReplyAsWritten(timers[0].1));
      timers := timers[1..];
    }

    /** `handleKeyPress`: only Enter sends. */
    method HandleKeyPress(key: string)
      requires Valid()
      modifies this
      ensures Valid()
      ensures key != "Enter" || Trim(old(userInput)) == "" ==>
        messages == old(messages) && userInput == old(userInput) && timers == old(timers)
      ensures key == "Enter" && Trim(old(userInput)) != "" ==>
        messages == Shown(old(messages), old(userInput)) &&
        timers == old(timers) + [(messages, Trim(old(userInput)))] &&
        userInput == ""
      ensures showChat == old(showChat)
    {
      if key == "Enter" {
        HandleSendMessage();
      }
    }

    /** `toggleChatBox`. */
    method ToggleChatBox()
      requires Valid()
      modifies this
      ensures Valid()
      ensures showChat == !old(showChat)
      ensures messages == old(messages) && userInput == old(userInput) && timers == old(timers)
    {
      showChat := !showChat;
    }
  }
}
