/**
 * The FAQ chat widget: the keyword rule table that answers a question
 * (`getResponse`) and the `PersonalChatbot` object whose fields the widget's
 * event handlers update (open flag, transcript, input box, send button).
 */
module Chatbot {
  import opened Wrappers
  import opened Text

  /**
   * The response chain is a list of groups, one per `if`: rule `i` has the
   * keyword group `Keywords[i]` and returns `Reply(i)`. Rule names below
   * are indices into both tables, in the order the chain tests them.
   */
  const Education := 0
  const Gpa := 1
  const Projects := 2
  const Code := 3
  const Skills := 4
  const AiMl := 5
  const Experience := 6
  const Companies := 7
  const CareerGoals := 8
  const ContactInfo := 9
  const Location := 10
  const AboutPhong := 11
  const Greeting := 12

  /** The keyword group of each `if`, in the order the chain tests them. */
  const Keywords: seq<seq<string>> := [
      ["education", "school", "university", "college"],  // education, chatbot.js:194
      ["gpa", "grade"],  // GPA, chatbot.js:198
      ["resume2path", "project"],  // projects, chatbot.js:203
      ["github", "code", "repository"],  // GitHub and code, chatbot.js:207
      ["skill", "technology", "programming", "language"],  // skills, chatbot.js:212
      ["ai", "machine learning", "ml"],  // AI and machine learning, chatbot.js:216
      ["experience", "internship", "work", "job"],  // experience, chatbot.js:221
      ["finbud", "esmart", "cf hub", "quantfident"],  // internship companies, chatbot.js:225
      ["goal", "career", "future", "internship"],  // career goals, chatbot.js:230
      ["contact", "email", "reach", "linkedin"],  // contact information, chatbot.js:235
      ["location", "where", "live"],  // location, chatbot.js:239
      ["who", "about", "tell me about"],  // general questions, chatbot.js:244
      ["hello", "hi", "hey"]   // greetings, chatbot.js:248
    ]

  /** The reply of rule `rule`, in the same order as the keyword groups. */
  function Reply(rule: nat): string
    requires rule < |Keywords|
  {
    match rule
    // education
    case 0 => "Phong is currently a Computer Science student at Georgia State University (August 2024 - May 2026) with a 4.0 GPA and President's List honors. He's also been accepted to Georgia Institute of Technology where he'll continue his Bachelor of Science in Computer Science from August 2026 - May 2028."
    // GPA
    case 1 => "Phong has maintained a perfect 4.0 GPA and has been on the President's List at Georgia State University. He's also been accepted to Georgia Institute of Technology to continue his studies."
    // projects
    case 2 => "Resume2Path is Phong's flagship project - an AI-powered career mentorship platform built with Next.js and Google's Gemini 2.0 Flash model. It provides personalized career guidance, resume analysis, and real-time job market intelligence. You can check it out at https://resume2path.vercel.app/"
    // GitHub and code
    case 3 => "You can find Phong's projects and code on his GitHub: https://github.com/pvu06. His main project Resume2Path showcases his skills in AI/ML, web development, and real-time analytics."
    // skills
    case 4 => "Phong's technical skills include:\n\n• Programming Languages: Python, JavaScript, Java, C++\n• Web Technologies: React.js, Next.js, Node.js, Express.js\n• Databases: PostgreSQL, MongoDB\n• Cloud & DevOps: AWS, Docker, GitHub Actions\n• AI/ML: Machine Learning, Data Science, Google Gemini AI\n• Tools: Git, VS Code, Linux"
    // AI and machine learning
    case 5 => "Phong has strong experience in AI and Machine Learning, particularly demonstrated through Resume2Path which uses Google's Gemini 2.0 Flash model for AI-powered career guidance. He's also worked on predictive analytics platforms and has interests in AI/ML for his career focus."
    // experience
    case 6 => "Phong has completed 4 software engineering internships:\n\n• FinBud AI (May 2025 - Aug 2025): Deployed microservices, streamlined data integrations\n• Esmart Solutions Agency (Apr 2024 - Aug 2024): Refactored APIs, automated data pipelines\n• CF Hub (Aug 2023 - Dec 2023): Designed secure APIs, automated CI/CD workflows\n• Quantfident (May 2023 - Aug 2023): Built predictive analytics platforms"
    // internship companies
    case 7 => "Phong has interned at several companies:\n\n• FinBud AI (Chicago, IL): Financial technology with microservices and data integrations\n• Esmart Solutions Agency (Saint Paul, MN): API optimization and data pipeline automation\n• CF Hub (Smithfield, VA): Secure API development and CI/CD automation\n• Quantfident (Hanoi, Vietnam): Predictive analytics and data engineering"
    // career goals
    case 8 => "Phong is seeking internship opportunities in Software Engineering, Data Science & Analytics, and Machine Learning & AI. He wants to work on meaningful projects, learn from experienced professionals, gain hands-on experience with scalable systems, contribute to diverse teams, and build professional relationships."
    // contact information
    case 9 => "You can reach Phong at:\n\n• Email: vuanphong06@gmail.com\n• GitHub: https://github.com/pvu06\n• LinkedIn: https://www.linkedin.com/in/phongvu06\n• Location: Duluth, Georgia"
    // location
    case 10 => "Phong is located in Duluth, Georgia. He's currently studying at Georgia State University and will be transferring to Georgia Institute of Technology."
    // general questions
    case 11 => "Phong Vu is a Computer Science student passionate about technology and problem-solving. He's currently exploring AI, software engineering, and data science while seeking internship opportunities. He has completed multiple software engineering internships and built projects like Resume2Path, an AI-powered career mentorship platform."
    // greetings
    case 12 => "Hello! I'm here to help you learn about Phong Vu. Feel free to ask me about his background, projects, skills, or career goals!"
  }

  /** The number of fallback replies `getResponse` chooses from. */
  const FallbackCount := 3

  /** The fallback replies, chosen by `pick` when no rule fires. */
  function Fallback(pick: nat): string
    requires pick < FallbackCount
  {
    match pick
    case 0 => "That's an interesting question! While I don't have specific information about that, I can tell you about Phong's background, projects, skills, or career goals. What would you like to know?"
    case 1 => "I'm not sure about that specific detail, but I'd be happy to share information about Phong's education, work experience, or technical projects. What interests you most?"
    case 2 => "Great question! I might not have that exact information, but I can help you learn about Phong's technical skills, internship experience, or his Resume2Path project. What would you like to explore?"
  }

  const Welcome: string :=
    "Hello! I'm here to help you learn about Phong Vu. You can ask me about:\n\n• His background and education\n• His projects (like Resume2Path)\n• His technical skills\n• His internship experience\n• His career goals\n\nWhat would you like to know?"

  /** `message.includes(k1) || message.includes(k2) || ...` over one keyword group. */
  predicate Fires(keywords: seq<string>, message: string)
  {
    exists k :: 0 <= k < |keywords| && Contains(message, keywords[k])
  }

  /** Rule `i` fires on `message` and no rule before it does. */
  predicate IsFirstFiring(groups: seq<seq<string>>, message: string, i: int)
  {
    0 <= i < |groups| && Fires(groups[i], message) &&
    forall j | 0 <= j < i :: !Fires(groups[j], message)
  }

  /** Walks the chain from rule `from` on and stops at the first rule that fires. */
  function FirstFiring(groups: seq<seq<string>>, message: string, from: nat): (r: Option<nat>)
    requires from <= |groups|
    ensures r.Some? ==> from <= r.value < |groups| && Fires(groups[r.value], message)
    ensures r.Some? ==> forall j | from <= j < r.value :: !Fires(groups[j], message)
    ensures r.None? ==> forall j | from <= j < |groups| :: !Fires(groups[j], message)
    decreases |groups| - from
  {
    if from == |groups| then None
    else if Fires(groups[from], message) then Some(from)
    else FirstFiring(groups, message, from + 1)
  }

  /** The rule that answers `userMessage`, if any: the chain runs on the lower-cased text. */
  function Answer(userMessage: string): (r: Option<nat>)
    ensures r.Some? ==> IsFirstFiring(Keywords, Lower(userMessage), r.value)
    ensures r.None? ==> forall i | 0 <= i < |Keywords| :: !Fires(Keywords[i], Lower(userMessage))
  {
    FirstFiring(Keywords, Lower(userMessage), 0)
  }

  /**
   * `getResponse`: the reply of the first rule, in chain order, with a
   * keyword inside the lower-cased message; when no rule fires, the
   * fallback reply `Fallback(pick)`, where `pick` stands for
   * `Math.floor(Math.random() * 3)`.
   */
  function GetResponse(userMessage: string, pick: nat): (reply: string)
    requires pick < FallbackCount
    ensures forall i | IsFirstFiring(Keywords, Lower(userMessage), i) :: reply == Reply(i)
    ensures (forall i | 0 <= i < |Keywords| :: !Fires(Keywords[i], Lower(userMessage))) ==> reply == Fallback(pick)
  {
    var m := Lower(userMessage);
    assert forall i | IsFirstFiring(Keywords, m, i) :: Answer(userMessage) == Some(i) by {
      forall i | IsFirstFiring(Keywords, m, i) ensures Answer(userMessage) == Some(i) {
        FirstFiringFinds(Keywords, m, 0, i);
      }
    }
    match Answer(userMessage)
    case Some(i) => Reply(i)
    case None => Fallback(pick)
  }

  // ---------------------------------------------------------------------
  // Properties of the rule chain
  // ---------------------------------------------------------------------

  /** At most one rule is the first to fire. */
  lemma FirstFiringUnique(groups: seq<seq<string>>, message: string, i: int, j: int)
    requires IsFirstFiring(groups, message, i) && IsFirstFiring(groups, message, j)
    ensures i == j
  {
  }

  /** The chain stops at the first rule that fires: no later rule is ever consulted. */
  lemma {:induction false} FirstFiringFinds(groups: seq<seq<string>>, message: string, from: nat, i: int)
    requires from <= i && IsFirstFiring(groups, message, i)
    ensures FirstFiring(groups, message, from) == Some(i)
    decreases i - from
  {
    if from < i {
      assert !Fires(groups[from], message);
      FirstFiringFinds(groups, message, from + 1, i);
    }
  }

  /** A keyword group fires exactly when one of its keywords occurs at some index of the message. */
  lemma FiresIffOccurs(keywords: seq<string>, message: string)
    ensures Fires(keywords, message) <==> exists k, i :: 0 <= k < |keywords| && OccursAt(message, keywords[k], i)
  {
    forall k | 0 <= k < |keywords|
      ensures Contains(message, keywords[k]) <==> exists i :: OccursAt(message, keywords[k], i)
    {
      ContainsAt(message, keywords[k]);
    }
  }

  /** A rule that fires bounds the answering rule: an earlier keyword always wins over a later one. */
  lemma EarlierRuleWins(userMessage: string, i: int)
    requires 0 <= i < |Keywords| && Fires(Keywords[i], Lower(userMessage))
    ensures Answer(userMessage).Some? && Answer(userMessage).value <= i
  {
  }

  /** Matching is on substrings: a keyword that contains an earlier rule's keyword can never be the reason its own rule fires. */
  lemma ShadowedKeyword(userMessage: string, keyword: string, j: int, k: int)
    requires 0 <= j < |Keywords| && 0 <= k < |Keywords[j]|
    requires Contains(keyword, Keywords[j][k])
    requires Contains(Lower(userMessage), keyword)
    ensures Answer(userMessage).Some? && Answer(userMessage).value <= j
  {
    ContainsTransitive(Lower(userMessage), keyword, Keywords[j][k]);
    EarlierRuleWins(userMessage, j);
  }

  /**
   * Any message with "internship" in it is answered by the experience rule
   * or an earlier one, so the career-goals rule's own "internship" keyword
   * is unreachable: that rule answers only through "goal", "career" or "future".
   */
  lemma InternshipNeverReachesCareerGoals(userMessage: string)
    ensures Contains(Lower(userMessage), "internship") ==>
              Answer(userMessage).Some? && Answer(userMessage).value <= Experience
    ensures Answer(userMessage) == Some(CareerGoals) ==>
              var m := Lower(userMessage);
              Contains(m, "goal") || Contains(m, "career") || Contains(m, "future")
  {
    var m := Lower(userMessage);
    assert Keywords[Experience][1] == "internship";
    if Contains(m, "internship") {
      assert Fires(Keywords[Experience], m);
      EarlierRuleWins(userMessage, Experience);
    }
    if Answer(userMessage) == Some(CareerGoals) {
      assert Fires(Keywords[CareerGoals], m);
      assert !Fires(Keywords[Experience], m);
      assert !Contains(m, "internship");
      var k :| 0 <= k < 4 && Contains(m, Keywords[CareerGoals][k]);
      assert k != 3;
    }
  }

  /**
   * "email" contains "ai", and the AI/ML rule is tested before the contact
   * rule: every message mentioning "email" is answered by the AI/ML rule or
   * an earlier one.
   */
  lemma EmailCaughtByAiRule(userMessage: string)
    requires Contains(Lower(userMessage), "email")
    ensures Answer(userMessage).Some? && Answer(userMessage).value <= AiMl
  {
    assert Keywords[AiMl][0] == "ai";
    assert Contains("email", "ai");
    ShadowedKeyword(userMessage, "email", AiMl, 0);
  }

  /** A message mentioning "email" and no keyword of the first five groups gets the AI/ML reply, not the contact reply. */
  lemma EmailAnsweredByAiRule(userMessage: string, pick: nat)
    requires pick < FallbackCount
    requires Contains(Lower(userMessage), "email")
    requires forall j | 0 <= j < AiMl :: !Fires(Keywords[j], Lower(userMessage))
    ensures GetResponse(userMessage, pick) == Reply(AiMl)
  {
    var m := Lower(userMessage);
    EmailCaughtByAiRule(userMessage);
    assert Fires(Keywords[AiMl], m);
    assert IsFirstFiring(Keywords, m, AiMl);
  }

  /** The contact rule's "email" keyword is unreachable: that rule answers only through "contact", "reach" or "linkedin". */
  lemma ContactRuleNeverViaEmail(userMessage: string)
    requires Answer(userMessage) == Some(ContactInfo)
    ensures var m := Lower(userMessage);
            Contains(m, "contact") || Contains(m, "reach") || Contains(m, "linkedin")
  {
    var m := Lower(userMessage);
    assert Fires(Keywords[ContactInfo], m);
    assert !Contains(m, "email") by {
      if Contains(m, "email") {
        EmailCaughtByAiRule(userMessage);
      }
    }
    var k :| 0 <= k < 4 && Contains(m, Keywords[ContactInfo][k]);
    assert k != 1;
  }

  /**
   * "tell me about" contains "about" from the same rule, so the general
   * rule fires exactly when one of its first two keywords ("who", "about")
   * occurs: its third keyword never decides anything.
   */
  lemma TellMeAboutRedundant(m: string)
    ensures Fires(Keywords[AboutPhong], m) <==> Fires(Keywords[AboutPhong][..2], m)
  {
    var group := Keywords[AboutPhong];
    GeneralGroupSpelled();
    if Fires(group, m) {
      var k :| 0 <= k < 3 && Contains(m, group[k]);
      if k == 2 {
        ContainsTransitive(m, group[2], group[1]);
        assert group[..2][1] == group[1];
      } else {
        assert group[..2][k] == group[k];
      }
    }
    if Fires(group[..2], m) {
      var k :| 0 <= k < 2 && Contains(m, group[..2][k]);
      assert group[k] == group[..2][k];
    }
  }

  /** The general rule has three keywords, and the third contains the second. */
  lemma GeneralGroupSpelled()
    ensures |Keywords[AboutPhong]| == 3
    ensures Contains(Keywords[AboutPhong][2], Keywords[AboutPhong][1])
  {
    var group := Keywords[AboutPhong];
    assert group == ["who", "about", "tell me about"];
    PhraseContainsWord(group[2], group[1]);
  }

  lemma PhraseContainsWord(phrase: string, word: string)
    requires phrase == "tell me about" && word == "about"
    ensures Contains(phrase, word)
  {
    assert phrase[8..13] == word;
    OccursContains(phrase, word, 8);
  }

  /** The reply does not depend on letter case. */
  lemma CaseInsensitive(userMessage: string, pick: nat)
    requires pick < FallbackCount
    ensures GetResponse(userMessage, pick) == GetResponse(Lower(userMessage), pick)
  {
    LowerIdempotent(userMessage);
  }

  /** When no rule fires the reply is one of the three fallbacks, chosen by `pick`; otherwise it is a rule's reply. */
  lemma FallbackReply(userMessage: string, pick: nat)
    requires pick < FallbackCount
    ensures Answer(userMessage).None? <==> forall i | 0 <= i < |Keywords| :: !Fires(Keywords[i], Lower(userMessage))
    ensures Answer(userMessage).None? ==> exists p | 0 <= p < FallbackCount :: GetResponse(userMessage, pick) == Fallback(p)
    ensures Answer(userMessage).Some? ==> exists i | 0 <= i < |Keywords| :: GetResponse(userMessage, pick) == Reply(i)
  {
    match Answer(userMessage)
    case Some(i) =>
      assert GetResponse(userMessage, pick) == Reply(i);
    case None =>
      assert GetResponse(userMessage, pick) == Fallback(pick);
  }

  // ---------------------------------------------------------------------
  // The widget object
  // ---------------------------------------------------------------------

  datatype Author = User | Bot

  /** One child of the messages container: a `chatbot-message user` or `chatbot-message bot` div and its text. */
  datatype Message = Message(author: Author, text: string)

  /** The toggle button's label while the window is closed and while it is open. */
  const ClosedIcon: string := "\U{1F4AC}"
  const OpenIcon: string := "\U{2715}"

  /**
   * `PersonalChatbot`. `sendMessage` is split at its `setTimeout`: `Submit`
   * is the synchronous part and `Respond` the deferred callback, which the
   * host runs later with the message `Submit` captured.
   */
  class PersonalChatbot {
    var isOpen: bool
    var windowActive: bool       // `active` class of the chat window
    var toggleIcon: string       // label of the floating toggle button
    var messages: seq<Message>   // children of the messages container, in order
    var input: string            // value of the text input
    var sendDisabled: bool       // `disabled` of the send button
    var typing: bool             // `active` class of the typing indicator

    /** The window's class and the button label follow `isOpen`; the welcome message stays first. */
    ghost predicate Valid()
      reads this
    {
      windowActive == isOpen &&
      toggleIcon == (if isOpen then OpenIcon else ClosedIcon) &&
      typing == sendDisabled &&
      |messages| >= 1 && messages[0] == Message(Bot, Welcome)
    }

    /** `constructor` and `init`: the widget starts closed, with the welcome message as its only message. */
    constructor ()
      ensures Valid()
      ensures !isOpen && messages == [Message(Bot, Welcome)]
      ensures input == "" && !sendDisabled
    {
      isOpen := false;
      windowActive := false;
      toggleIcon := ClosedIcon;
      input := "";
      sendDisabled := false;
      typing := false;
      messages := [];
      new;
      AddWelcomeMessage();
    }

    method AddWelcomeMessage()
      modifies this`messages
      ensures messages == old(messages) + [Message(Bot, Welcome)]
    {
      messages := messages + [Message(Bot, Welcome)];
    }

    method AddUserMessage(text: string)
      modifies this`messages
      ensures messages == old(messages) + [Message(User, text)]
    {
      messages := messages + [Message(User, text)];
    }

    method AddBotMessage(text: string)
      modifies this`messages
      ensures messages == old(messages) + [Message(Bot, text)]
    {
      messages := messages + [Message(Bot, text)];
    }

    method OpenChat()
      requires Valid()
      modifies this`isOpen, this`windowActive, this`toggleIcon
      ensures Valid() && isOpen
    {
      isOpen := true;
      windowActive := true;
      toggleIcon := OpenIcon;
    }

    method CloseChat()
      requires Valid()
      modifies this`isOpen, this`windowActive, this`toggleIcon
      ensures Valid() && !isOpen
    {
      isOpen := false;
      windowActive := false;
      toggleIcon := ClosedIcon;
    }

    method ToggleChat()
      requires Valid()
      modifies this`isOpen, this`windowActive, this`toggleIcon
      ensures Valid() && isOpen == !old(isOpen)
    {
      if isOpen {
        CloseChat();
      } else {
        OpenChat();
      }
    }

    /** The document-level click handler; `insideWidget` says whether the target lies in the window or the toggle button. */
    method OutsideClick(insideWidget: bool)
      requires Valid()
      modifies this`isOpen, this`windowActive, this`toggleIcon
      ensures Valid()
      ensures isOpen == (old(isOpen) && insideWidget)
      ensures !old(isOpen) ==> unchanged(this)
    {
      if isOpen && !insideWidget {
        CloseChat();
      }
    }

    /**
     * The synchronous half of `sendMessage`. A message that trims to nothing
     * changes nothing; otherwise the trimmed text is appended as a user
     * message, the input is cleared and the send button disabled, and the
     * trimmed text is handed back for the deferred `Respond`.
     */
    method Submit() returns (pending: Option<string>)
      requires Valid()
      modifies this
      ensures Valid()
      ensures isOpen == old(isOpen)
      ensures Trim(old(input)) == [] ==> pending == None && unchanged(this)
      ensures Trim(old(input)) != [] ==>
                pending == Some(Trim(old(input))) &&
                messages == old(messages) + [Message(User, Trim(old(input)))] &&
                input == "" && sendDisabled && typing
    {
      var message := Trim(input);
      if message == [] {
        return None;
      }
      AddUserMessage(message);
      input := "";
      sendDisabled := true;
      typing := true;
      pending := Some(message);
    }

    /** The deferred half of `sendMessage`: one bot message with the reply to `message`, and the send button enabled again. */
    method Respond(message: string, pick: nat)
      requires Valid() && pick < FallbackCount
      modifies this
      ensures Valid()
      ensures messages == old(messages) + [Message(Bot, GetResponse(message, pick))]
      ensures !sendDisabled && !typing
      ensures isOpen == old(isOpen) && input == old(input)
    {
      var response := GetResponse(message, pick);
      ShowReply(response);
    }

    /** The callback's updates to the page: the typing indicator goes, the reply is appended, the send button comes back. */
    method ShowReply(response: string)
      requires Valid()
      modifies this`messages, this`sendDisabled, this`typing
      ensures Valid()
      ensures messages == old(messages) + [Message(Bot, response)]
      ensures !sendDisabled && !typing
    {
      typing := false;
      AddBotMessage(response);
      sendDisabled := false;
    }
  }
}
