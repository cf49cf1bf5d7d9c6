/**
 * Worked conversations with the chat widget: concrete questions and what
 * the rule chain answers to them.
 */
module ChatbotExamples {
  import opened Wrappers
  import opened Text
  import opened Chatbot

  /**
   * A session: a blank submission leaves the transcript alone; a real
   * question then adds one user message with its trimmed text and, once
   * the reply arrives, one bot message with the reply to it.
   */
  method AskAfterBlank(blank: string, question: string, pick: nat) returns (transcript: seq<Message>)
    requires Trim(blank) == [] && Trim(question) != [] && pick < FallbackCount
    ensures transcript == [Message(Bot, Welcome), Message(User, Trim(question)), Message(Bot, GetResponse(Trim(question), pick))]
  {
    var chat := new PersonalChatbot();
    chat.input := blank;
    var pending := chat.Submit();
    assert chat.messages == [Message(Bot, Welcome)];
    chat.input := question;
    pending := chat.Submit();
    var asked := pending.value;
    assert asked == Trim(question);
    assert chat.messages == [Message(Bot, Welcome), Message(User, asked)];
    chat.Respond(asked, pick);
    transcript := chat.messages;
  }

  /** "What is his GPA?" passes the education rule and is answered by the GPA rule. */
  lemma GpaQuestionAnswered(q: string)
    requires q == "What is his GPA?"
    ensures Answer(q) == Some(Gpa)
  {
    var m := Lower(q);
    assert m == "what is his gpa?";
    GpaRuleFirst(m);
    FirstFiringFinds(Keywords, m, 0, Gpa);
  }

  lemma GpaRuleFirst(m: string)
    requires m == "what is his gpa?"
    ensures IsFirstFiring(Keywords, m, Gpa)
  {
    EducationRuleSilent(m);
    GpaRuleFires(m);
  }

  lemma EducationRuleSilent(m: string)
    requires m == "what is his gpa?"
    ensures !Fires(Keywords[Education], m)
  {
    assert 'c' !in m && 'u' !in m;
    EducationWordsSpelled();
    forall k | 0 <= k < |Keywords[Education]| ensures !Contains(m, Keywords[Education][k]) {
      var w := Keywords[Education][k];
      if 'c' in w {
        MissingChar(m, w, 'c');
      } else {
        MissingChar(m, w, 'u');
      }
    }
  }

  /** Every education keyword has a "c" or a "u" in it. */
  lemma EducationWordsSpelled()
    ensures forall k | 0 <= k < |Keywords[Education]| :: 'c' in Keywords[Education][k] || 'u' in Keywords[Education][k]
  {
    var group := Keywords[Education];
    assert group == ["education", "school", "university", "college"];
    assert 'c' in group[0] && 'c' in group[1] && 'u' in group[2] && 'c' in group[3];
  }

  lemma GpaRuleFires(m: string)
    requires m == "what is his gpa?"
    ensures Fires(Keywords[Gpa], m)
  {
    assert OccursAt(m, "gpa", 12);
    OccursContains(m, "gpa", 12);
    assert Keywords[Gpa][0] == "gpa";
  }

  /** `w` contains one of the letters a, e, i, o, u, m. */
  predicate HasMarker(w: string)
  {
    'a' in w || 'e' in w || 'i' in w || 'o' in w || 'u' in w || 'm' in w
  }

  /** Every keyword of the table contains one of those letters. */
  lemma EveryKeywordHasMarker()
    ensures forall i, k | 0 <= i < |Keywords| && 0 <= k < |Keywords[i]| :: HasMarker(Keywords[i][k])
  {
    forall i | 0 <= i < |Keywords|
      ensures forall k | 0 <= k < |Keywords[i]| :: HasMarker(Keywords[i][k])
    {
      assert i in {0, 1, 2, 3, 4, 5, 6, 7, 8, 9, 10, 11, 12};
    }
  }

  /** A message with none of those letters matches no rule and gets the fallback reply. */
  lemma MarkerFreeFallsBack(userMessage: string, pick: nat)
    requires pick < FallbackCount
    requires forall c | c in Lower(userMessage) :: c !in "aeioum"
    ensures Answer(userMessage) == None
    ensures GetResponse(userMessage, pick) == Fallback(pick)
  {
    var m := Lower(userMessage);
    EveryKeywordHasMarker();
    forall i, k | 0 <= i < |Keywords| && 0 <= k < |Keywords[i]|
      ensures !Contains(m, Keywords[i][k])
    {
      var w := Keywords[i][k];
      var c :| c in "aeioum" && c in w;
      MissingChar(m, w, c);
    }
  }

  /** "zzxyqw123" gets one of the three fallback replies. */
  lemma GibberishFallsBack(pick: nat)
    requires pick < FallbackCount
    ensures GetResponse("zzxyqw123", pick) == Fallback(pick)
  {
    assert Lower("zzxyqw123") == "zzxyqw123";
    MarkerFreeFallsBack("zzxyqw123", pick);
  }
}
