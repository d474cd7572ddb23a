/** The support chatbot: a reply is chosen by case-insensitive keyword matching
    with a fixed priority (crisis first, then the keyword categories in
    declaration order, then greetings, then a default), and the conversation is an
    append-only list of messages. The random pick among a category's three
    replies is an input. */
module Chatbot {
  import opened Wrappers
  import opened Text

  datatype Category =
    | Greetings | Stress | Anxiety | Depression | Sleep | Academic
    | Relationships | SelfCare | Crisis | Resources | Default

  /** `keywordMap`: the keywords of each category (greetings and default have none). */
  function Keywords(c: Category): seq<string> {
    match c
    case Stress => ["stress", "stressed", "pressure", "overwhelmed", "busy"]
    case Anxiety => ["anxiety", "anxious", "worry", "worried", "panic", "nervous"]
    case Depression => ["depression", "depressed", "sad", "hopeless", "empty", "down"]
    case Sleep => ["sleep", "insomnia", "tired", "exhausted", "rest"]
    case Academic => ["study", "exam", "grades", "assignment", "college", "university"]
    case Relationships => ["relationship", "friend", "family", "boyfriend", "girlfriend", "partner"]
    case SelfCare => ["self-care", "self care", "tired", "burnout", "exhausted"]
    case Crisis => ["suicide", "self-harm", "hurt myself", "end it all", "not worth living"]
    case Resources => ["help", "support", "counselor", "therapy", "professional"]
    case Greetings => []
    case Default => []
  }

  /** The properties of `keywordMap` in declaration order. */
  const KeywordOrder: seq<Category> :=
    [Stress, Anxiety, Depression, Sleep, Academic, Relationships, SelfCare, Crisis, Resources]

  /** `mentalHealthResponses`: three replies per category. */
  function Responses(c: Category): (rs: seq<string>)
    ensures |rs| == 3
  {
    match c
    case Greetings => [GreetingsReply1, GreetingsReply2, GreetingsReply3]
    case Stress => [StressReply1, StressReply2, StressReply3]
    case Anxiety => [AnxietyReply1, AnxietyReply2, AnxietyReply3]
    case Depression => [DepressionReply1, DepressionReply2, DepressionReply3]
    case Sleep => [SleepReply1, SleepReply2, SleepReply3]
    case Academic => [AcademicReply1, AcademicReply2, AcademicReply3]
    case Relationships => [RelationshipsReply1, RelationshipsReply2, RelationshipsReply3]
    case SelfCare => [SelfCareReply1, SelfCareReply2, SelfCareReply3]
    case Crisis => [CrisisReply1, CrisisReply2, CrisisReply3]
    case Resources => [ResourcesReply1, ResourcesReply2, ResourcesReply3]
    case Default => [DefaultReply1, DefaultReply2, DefaultReply3]
  }

  const GreetingsReply1 := "Hello! I'm here to support your mental health journey. How are you feeling today?"
  const GreetingsReply2 := "Hi there! I'm your mental health companion. What's on your mind?"
  const GreetingsReply3 := "Welcome! I'm here to listen and help. How can I support you today?"
  const StressReply1 := "I understand you're feeling stressed. Try taking 5 deep breaths and remember: this feeling is temporary. Would you like some stress management techniques?"
  const StressReply2 := "Stress is a normal part of life, but it's important to manage it. Let's work through some coping strategies together."
  const StressReply3 := "It sounds like you're going through a tough time. Remember, it's okay to feel overwhelmed. What specific situation is causing you stress?"
  const AnxietyReply1 := "Anxiety can feel overwhelming, but you're not alone. Try the 5-4-3-2-1 grounding technique: name 5 things you see, 4 you can touch, 3 you hear, 2 you smell, 1 you taste."
  const AnxietyReply2 := "Anxiety is your body's way of trying to protect you. Let's work on some calming techniques together."
  const AnxietyReply3 := "When anxiety feels intense, try box breathing: inhale for 4 counts, hold for 4, exhale for 4, hold for 4. Repeat until you feel calmer."
  const DepressionReply1 := "I'm sorry you're feeling this way. Depression can make everything feel heavy, but remember that your feelings are valid and temporary."
  const DepressionReply2 := "It takes courage to talk about depression. You're already taking a positive step by reaching out. Have you considered speaking with a counselor?"
  const DepressionReply3 := "Depression can feel isolating, but you're not alone. Small steps matter - even getting out of bed is an achievement."
  const SleepReply1 := "Sleep issues can really affect your mental health. Try establishing a bedtime routine: no screens 1 hour before bed, keep your room cool and dark."
  const SleepReply2 := "Poor sleep can make everything feel harder. Consider trying relaxation techniques before bed, like gentle stretching or meditation."
  const SleepReply3 := "Sleep is crucial for mental health. If you're having persistent sleep problems, it might be worth discussing with a healthcare provider."
  const AcademicReply1 := "Academic pressure can be overwhelming. Remember, your worth isn't determined by your grades. Break tasks into smaller, manageable pieces."
  const AcademicReply2 := "It's normal to feel stressed about academics. Try the Pomodoro technique: 25 minutes of focused work, then a 5-minute break."
  const AcademicReply3 := "Academic stress is common, but it doesn't have to control your life. What specific academic challenges are you facing?"
  const RelationshipsReply1 := "Relationships can be complex and emotionally challenging. Remember that healthy relationships involve mutual respect and communication."
  const RelationshipsReply2 := "It's okay to set boundaries in relationships. Your mental health comes first. Would you like to talk about what's bothering you?"
  const RelationshipsReply3 := "Relationship issues can deeply affect our mental health. Remember, you deserve to be treated with kindness and respect."
  const SelfCareReply1 := "Self-care isn't selfish - it's essential! Try to do one thing today that brings you joy, even if it's small."
  const SelfCareReply2 := "Self-care looks different for everyone. It could be taking a walk, reading, calling a friend, or simply resting. What feels good to you?"
  const SelfCareReply3 := "Remember the basics: eat regularly, stay hydrated, get some fresh air, and be gentle with yourself."
  const CrisisReply1 := "If you're having thoughts of self-harm, please reach out to a crisis helpline immediately. In India, you can call 1800-599-0019 (KIRAN Mental Health Helpline)."
  const CrisisReply2 := "Your safety is the most important thing. If you're in immediate danger, please contact emergency services or go to your nearest hospital."
  const CrisisReply3 := "You matter, and there are people who want to help. Please reach out to a trusted friend, family member, or mental health professional."
  const ResourcesReply1 := "Here are some helpful resources: KIRAN Mental Health Helpline (1800-599-0019), iCall (9152987821), and your college counseling center."
  const ResourcesReply2 := "Consider reaching out to your college's mental health services, or speak with a trusted professor or counselor."
  const ResourcesReply3 := "Remember, seeking professional help is a sign of strength, not weakness. You deserve support."
  const DefaultReply1 := "I'm here to listen and support you. Can you tell me more about what you're experiencing?"
  const DefaultReply2 := "That sounds challenging. I'm glad you're reaching out. How can I best support you right now?"
  const DefaultReply3 := "Thank you for sharing that with me. Remember, it's okay to not be okay sometimes. What would be most helpful for you right now?"

  /** The bot's opening message. */
  const Welcome := "Hello! I'm your mental health support companion. I'm here to listen and help you through difficult times. How are you feeling today?"

  /** `keywords.some(keyword => message.includes(keyword))`. */
  predicate Mentions(message: string, keywords: seq<string>) {
    exists i :: 0 <= i < |keywords| && Contains(message, keywords[i])
  }

  /** The position of the first category of `cats`, crisis skipped, with a keyword in
      the message: the `for ... of Object.entries(keywordMap)` search. */
  function FirstMatch(message: string, cats: seq<Category>): (r: Option<nat>)
    ensures r.Some? ==> r.value < |cats| && cats[r.value] != Crisis && Mentions(message, Keywords(cats[r.value]))
    ensures r.Some? ==> forall j :: 0 <= j < r.value ==> cats[j] == Crisis || !Mentions(message, Keywords(cats[j]))
    ensures r.None? ==> forall j :: 0 <= j < |cats| ==> cats[j] == Crisis || !Mentions(message, Keywords(cats[j]))
  {
    if cats == [] then None
    else if cats[0] != Crisis && Mentions(message, Keywords(cats[0])) then Some(0)
    else
      match FirstMatch(message, cats[1..])
      case None => None
      case Some(i) => Some(i + 1)
  }

  /** The greeting test: `hello`, `hi` or `hey` anywhere in the message. */
  predicate Greets(message: string) {
    Contains(message, "hello") || Contains(message, "hi") || Contains(message, "hey")
  }

  /** The category whose replies `getResponse` draws from. */
  function SelectCategory(userMessage: string): (c: Category)
    ensures var m := Lower(userMessage);
            c == Crisis <==> Mentions(m, Keywords(Crisis))
    ensures var m := Lower(userMessage);
            c in KeywordOrder && c != Crisis ==>
              && Mentions(m, Keywords(c))
              && !Mentions(m, Keywords(Crisis))
              && forall j :: 0 <= j < |KeywordOrder| && KeywordOrder[j] == c ==>
                   forall k :: 0 <= k < j ==> KeywordOrder[k] == Crisis || !Mentions(m, Keywords(KeywordOrder[k]))
    ensures var m := Lower(userMessage);
            c == Greetings <==>
              && !Mentions(m, Keywords(Crisis))
              && (forall j :: 0 <= j < |KeywordOrder| ==> !Mentions(m, Keywords(KeywordOrder[j])))
              && Greets(m)
    ensures var m := Lower(userMessage);
            c == Default <==>
              && (forall j :: 0 <= j < |KeywordOrder| ==> !Mentions(m, Keywords(KeywordOrder[j])))
              && !Greets(m)
  {
    var message := Lower(userMessage);
    CategoryOfCrisis(message);
    CategoryOfKeyword(message);
    CategoryOfFallback(message);
    CategoryOf(message)
  }

  /** The selection on a lower-cased message: crisis keywords first, then the first
      other category with a keyword, then a greeting, then the default. */
  function CategoryOf(message: string): Category {
    if Mentions(message, Keywords(Crisis)) then Crisis
    else
      match FirstMatch(message, KeywordOrder)
      case Some(i) => KeywordOrder[i]
      case None => if Greets(message) then Greetings else Default
  }

  lemma CategoryOfCrisis(m: string)
    ensures CategoryOf(m) == Crisis <==> Mentions(m, Keywords(Crisis))
  {
  }

  lemma CategoryOfKeyword(m: string)
    ensures var c := CategoryOf(m);
            c in KeywordOrder && c != Crisis ==>
              && Mentions(m, Keywords(c))
              && !Mentions(m, Keywords(Crisis))
              && forall j :: 0 <= j < |KeywordOrder| && KeywordOrder[j] == c ==>
                   forall k :: 0 <= k < j ==> KeywordOrder[k] == Crisis || !Mentions(m, Keywords(KeywordOrder[k]))
  {
    var c := CategoryOf(m);
    if c in KeywordOrder && c != Crisis {
      var r := FirstMatch(m, KeywordOrder);
      assert r.Some?;
      forall j | 0 <= j < |KeywordOrder| && KeywordOrder[j] == c
        ensures j == r.value
      {
        KeywordOrderDistinct(j, r.value);
      }
    }
  }

  lemma KeywordOrderDistinct(i: nat, j: nat)
    requires i < |KeywordOrder| && j < |KeywordOrder| && KeywordOrder[i] == KeywordOrder[j]
    ensures i == j
  {
  }

  lemma CategoryOfFallback(m: string)
    ensures var c := CategoryOf(m);
            && (c == Greetings <==>
                  && !Mentions(m, Keywords(Crisis))
                  && (forall j :: 0 <= j < |KeywordOrder| ==> !Mentions(m, Keywords(KeywordOrder[j])))
                  && Greets(m))
            && (c == Default <==>
                  && (forall j :: 0 <= j < |KeywordOrder| ==> !Mentions(m, Keywords(KeywordOrder[j])))
                  && !Greets(m))
  {
    assert KeywordOrder[7] == Crisis;
  }

  /** `getResponse`: the reply at position `pick` (the random draw) of the selected category. */
  function GetResponse(userMessage: string, pick: nat): (reply: string)
    requires pick < 3
    ensures reply in Responses(SelectCategory(userMessage))
  {
    Responses(SelectCategory(userMessage))[pick]
  }

  /** Matching ignores letter case: a message and its lower-case form get the same category. */
  lemma CaseInsensitive(userMessage: string)
    ensures SelectCategory(Lower(userMessage)) == SelectCategory(userMessage)
  {
    LowerIdempotent(userMessage);
  }

  /** The self-care keywords 'tired' and 'exhausted' never decide: sleep is tried first
      and lists both, so a message selecting self-care contains neither. */
  lemma SelfCareNeverByTiredness(userMessage: string)
    requires SelectCategory(userMessage) == SelfCare
    ensures !Contains(Lower(userMessage), "tired") && !Contains(Lower(userMessage), "exhausted")
  {
    var m := Lower(userMessage);
    assert KeywordOrder[6] == SelfCare && KeywordOrder[3] == Sleep;
    assert Keywords(Sleep)[2] == "tired" && Keywords(Sleep)[3] == "exhausted";
  }

  /** One entry of `messages`; ids and timestamps come from the clock and are left out. */
  datatype Message = Message(text: string, isBot: bool)

  /** The conversation state of the chat window. */
  class ChatLog {
    var messages: seq<Message>
    var inputValue: string
    var isTyping: bool

    /** The window opens with the welcome message and an empty input. */
    constructor ()
      ensures messages == [Message(Welcome, true)] && inputValue == "" && !isTyping
    {
      messages := [Message(Welcome, true)];
      inputValue := "";
      isTyping := false;
    }

    /** Typing into the input field. */
    method SetInput(text: string)
      modifies this
      ensures inputValue == text && messages == old(messages) && isTyping == old(isTyping)
    {
      inputValue := text;
    }

    /** `handleSendMessage`, up to the delayed reply: input made only of white space
        is ignored; otherwise the text is appended as a user message, the input is
        cleared and the bot starts typing. The text sent is returned for the reply. */
    method SendMessage() returns (sent: Option<string>)
      modifies this
      ensures sent.None? <==> IsBlank(old(inputValue))
      ensures sent.None? ==> messages == old(messages) && inputValue == old(inputValue) && isTyping == old(isTyping)
      ensures sent.Some? ==> && sent.value == old(inputValue)
                             && messages == old(messages) + [Message(old(inputValue), false)]
                             && inputValue == "" && isTyping
    {
      TrimEmptyIffBlank(inputValue);
      if Trim(inputValue) == [] {
        return None;
      }
      sent := Some(inputValue);
      messages := messages + [Message(inputValue, false)];
      inputValue := "";
      isTyping := true;
    }

    /** The timeout of `handleSendMessage`: one bot reply to the text sent is appended
        and typing stops. */
    method DeliverReply(sent: string, pick: nat)
      requires pick < 3
      modifies this
      ensures messages == old(messages) + [Message(GetResponse(sent, pick), true)]
      ensures |messages| == |old(messages)| + 1 && messages[..|old(messages)|] == old(messages)
      ensures inputValue == old(inputValue) && !isTyping
    {
      messages := messages + [Message(GetResponse(sent, pick), true)];
      isTyping := false;
    }
  }
}
