/**
  The rule-based reply pipeline of the mental-health chatbot: the keyword
  and polarity classifier (`analyze_sentiment`), the choice of a canned reply
  for a category (`get_response`) and the optional empathy prefix
  (`add_personalized_touch`).

  Two values the program obtains from outside are parameters here:
  - a sentiment polarity, which the program asks an NLP library for;
  - `choice`, the index that `random.choice` would pick from a reply list.
 */
module Chatbot {
  import opened Text

  datatype Option<T> = None | Some(value: T)

  // Category names: the keys of the reply table.
  const Greeting := "greeting"
  const Crisis := "crisis"
  const Anxiety := "anxiety"
  const Depression := "depression"
  const Stress := "stress"
  const Positive := "positive"
  const Support := "support"

  // The canned replies of each category.
  const GreetingReplies: seq<string> := [
    "Hello! I'm glad you're here. How can I support you today?",
    "Hi there! It's wonderful to connect with you. What's on your mind?",
    "Welcome! I'm here to listen and help. How are you feeling right now?"
  ]
  const AnxietyReplies: seq<string> := [
    "I hear that you're feeling anxious. That's completely normal. Try taking 3 deep breaths with me: in for 4, hold for 4, out for 6.",
    "Anxiety can feel overwhelming, but you're not alone. Let's focus on what you can control right now. Can you name 5 things you can see around you?",
    "It's okay to feel anxious. Remember: this feeling is temporary. What usually helps you feel more grounded?"
  ]
  const DepressionReplies: seq<string> := [
    "I'm sorry you're going through this difficult time. Your feelings are valid, and reaching out shows incredible strength.",
    "Depression can make everything feel heavy. Remember that small steps count too. What's one tiny thing that might bring you a moment of comfort today?",
    "You're not alone in this. Even when it's hard to see, you matter and your life has value. Have you been able to talk to anyone about how you're feeling?"
  ]
  const StressReplies: seq<string> := [
    "Stress can be really challenging. Let's try to break it down - what's the biggest thing causing you stress right now?",
    "It sounds like you're carrying a lot right now. Sometimes writing down our worries can help us see them more clearly. What's weighing on your mind?",
    "Stress is your body's way of responding to challenges. You've handled difficult situations before. What helped you get through tough times in the past?"
  ]
  const PositiveReplies: seq<string> := [
    "That's wonderful to hear! It's great that you're feeling positive. What's been going well for you?",
    "I'm so glad you're feeling good! Celebrating these moments is important. What's bringing you joy today?",
    "It's beautiful to hear such positivity from you! These good feelings are just as important to acknowledge as the difficult ones."
  ]
  const SupportReplies: seq<string> := [
    "Remember, seeking help is a sign of strength, not weakness. You deserve support and care.",
    "You're taking an important step by reaching out. That takes courage, and I'm proud of you for that.",
    "It's okay to not be okay sometimes. You're human, and your feelings matter. Is there someone in your life you trust to talk to?"
  ]
  const CrisisReplies: seq<string> := [
    "I'm very concerned about you. Please reach out to a crisis helpline immediately:",
    "• National Suicide Prevention Lifeline: 988 (US)",
    "• Crisis Text Line: Text HOME to 741741",
    "• International Association for Suicide Prevention: https://www.iasp.info/resources/Crisis_Centres/",
    "You matter, and there are people who want to help you through this."
  ]

  /** The reply table (RESPONSES): category name to its canned replies. */
  const Responses: map<string, seq<string>> := map[
    Greeting := GreetingReplies,
    Anxiety := AnxietyReplies,
    Depression := DepressionReplies,
    Stress := StressReplies,
    Positive := PositiveReplies,
    Support := SupportReplies,
    Crisis := CrisisReplies
  ]

  const CrisisKeywords: seq<string> :=
    ["suicide", "kill myself", "end it all", "want to die", "not worth living", "hurt myself"]
  const AnxietyKeywords: seq<string> :=
    ["anxious", "anxiety", "worried", "panic", "nervous", "stressed", "overwhelmed"]
  const DepressionKeywords: seq<string> :=
    ["depressed", "depression", "sad", "hopeless", "empty", "lonely", "worthless"]
  const StressKeywords: seq<string> :=
    ["stress", "pressure", "burden", "exhausted", "tired", "overworked"]
  const PositiveKeywords: seq<string> :=
    ["happy", "good", "great", "excited", "joy", "better", "wonderful", "amazing"]

  /** The keyword rules in the order the classifier tries them. */
  const KeywordRules: seq<(string, seq<string>)> := [
    (Crisis, CrisisKeywords),
    (Anxiety, AnxietyKeywords),
    (Depression, DepressionKeywords),
    (Stress, StressKeywords),
    (Positive, PositiveKeywords)
  ]

  /** Every category the classifier can return. */
  const ClassifierRange: set<string> := {Crisis, Anxiety, Depression, Stress, Positive, Support}

  /** Reference definition of "first match wins": the category of the first
      rule that has a keyword in `t`, or None when no rule matches. */
  function FirstMatch(t: string, rules: seq<(string, seq<string>)>): (r: Option<string>)
    ensures r.None? <==> forall k :: 0 <= k < |rules| ==> !ContainsAny(t, rules[k].1)
    ensures r.Some? ==> exists j :: 0 <= j < |rules| && rules[j].0 == r.value
                                   && ContainsAny(t, rules[j].1)
                                   && forall k :: 0 <= k < j ==> !ContainsAny(t, rules[k].1)
  {
    if rules == [] then None
    else if ContainsAny(t, rules[0].1) then Some(rules[0].0)
    else
      var r := FirstMatch(t, rules[1..]);
      assert forall k :: 1 <= k < |rules| ==> rules[k] == rules[1..][k - 1];
      r
  }

  /** The polarity bands used when no keyword matches: above 0.1 is positive,
      below -0.1 is depression, and the closed band in between is support. */
  function PolarityFallback(polarity: real): (category: string)
    ensures category == Positive <==> polarity > 0.1
    ensures category == Depression <==> polarity < -0.1
    ensures category == Support <==> -0.1 <= polarity <= 0.1
  {
    if polarity > 0.1 then Positive
    else if polarity < -0.1 then Depression
    else Support
  }

  /** `analyze_sentiment`. `polarity` is the polarity of the lower-cased text. */
  function Classify(text: string, polarity: real): (category: string)
    ensures category in ClassifierRange
    ensures category in Responses && category != Greeting
    ensures category == Crisis <==> ContainsAny(Lower(text), CrisisKeywords)
  {
    var t := Lower(text);
    if ContainsAny(t, CrisisKeywords) then Crisis
    else if ContainsAny(t, AnxietyKeywords) then Anxiety
    else if ContainsAny(t, DepressionKeywords) then Depression
    else if ContainsAny(t, StressKeywords) then Stress
    else if ContainsAny(t, PositiveKeywords) then Positive
    else PolarityFallback(polarity)
  }

  /** The classifier is "first matching keyword rule, in the order of
      KeywordRules, else the polarity band". */
  lemma ClassifyIsFirstMatch(text: string, polarity: real)
    ensures Classify(text, polarity) ==
            match FirstMatch(Lower(text), KeywordRules)
            case Some(c) => c
            case None => PolarityFallback(polarity)
  {
    var t := Lower(text);
    var rules := KeywordRules;
    FirstMatchStep(t, rules);
    FirstMatchStep(t, rules[1..]);
    FirstMatchStep(t, rules[1..][1..]);
    FirstMatchStep(t, rules[1..][1..][1..]);
    FirstMatchStep(t, rules[1..][1..][1..][1..]);
    assert rules[1..][1..][1..][1..][1..] == [];
  }

  /** One step of FirstMatch: the head rule decides, or the rest does. */
  lemma FirstMatchStep(t: string, rules: seq<(string, seq<string>)>)
    requires rules != []
    ensures FirstMatch(t, rules) ==
            if ContainsAny(t, rules[0].1) then Some(rules[0].0) else FirstMatch(t, rules[1..])
  {
  }

  /** Keyword matching ignores case: classifying the text or its lower-cased
      form gives the same category (the polarity is that of the lower-cased
      text in both cases). */
  lemma ClassifyCaseInsensitive(text: string, polarity: real)
    ensures Classify(Lower(text), polarity) == Classify(text, polarity)
  {
    LowerIdempotent(text);
  }

  /** "stressed" is an anxiety keyword that contains the stress keyword
      "stress"; since anxiety is tried first, such a text is anxiety. */
  lemma StressedIsAnxiety(text: string, polarity: real)
    requires Contains(Lower(text), "stressed")
    requires !ContainsAny(Lower(text), CrisisKeywords)
    ensures ContainsAny(Lower(text), StressKeywords)
    ensures Classify(text, polarity) == Anxiety
  {
    assert AnxietyKeywords[5] == "stressed";
    assert Contains("stressed", "stress");
    ContainsTransitive(Lower(text), "stressed", "stress");
    assert StressKeywords[0] == "stress";
  }

  /** The word "stressed" on its own is classified as anxiety, whatever
      the polarity. */
  lemma StressedWordIsAnxiety(polarity: real)
    ensures Classify("stressed", polarity) == Anxiety
  {
    LowerFixesLowerCase("stressed");
    forall k | 0 <= k < |CrisisKeywords| ensures !Contains("stressed", CrisisKeywords[k]) {
      if k == 0 {
        assert "stressed"[..7] != "suicide";
        assert "tressed"[..7] != "suicide";
      }
    }
    StressedIsAnxiety("stressed", polarity);
  }

  /** The list `get_response` draws from for a category: its own list, or
      the support list for a name that is not a key of the table. */
  function Candidates(category: string): (replies: seq<string>)
    ensures replies in Responses.Values && |replies| >= 3
    ensures category in Responses ==> replies == Responses[category]
    ensures category !in Responses ==> replies == SupportReplies
  {
    if category in Responses then Responses[category] else Responses[Support]
  }

  /** `get_response`: the reply at position `choice` of the category's list. */
  function GetResponse(category: string, choice: nat): (reply: string)
    requires choice < |Candidates(category)|
    ensures category in Responses ==> reply in Responses[category]
    ensures category !in Responses ==> reply in Responses[Support]
  {
    Candidates(category)[choice]
  }

  /** Every reply of a list can be drawn: each one is picked by some choice. */
  lemma GetResponseReachesAll(category: string, reply: string)
    requires reply in Candidates(category)
    ensures exists choice: nat :: choice < |Candidates(category)| && GetResponse(category, choice) == reply
  {
    var i :| 0 <= i < |Candidates(category)| && Candidates(category)[i] == reply;
    assert GetResponse(category, i) == reply;
  }

  /** For every category the classifier returns, the list has at least three
      replies (so `random.choice` never fails) and it is the category's own
      list: the support fallback of `get_response` is never taken. */
  lemma ClassifiedCategoryHasOwnReplies(text: string, polarity: real)
    ensures Classify(text, polarity) in Responses
    ensures Candidates(Classify(text, polarity)) == Responses[Classify(text, polarity)]
    ensures |Candidates(Classify(text, polarity))| >= 3
  {
  }

  const PainPrefix := "I can really hear the pain in your words. "
  const EnergyPrefix := "Your positive energy is wonderful to hear! "

  /** The prefixes `add_personalized_touch` may put in front of a reply. */
  const EmpathyPrefixes: set<string> := {"", PainPrefix, EnergyPrefix}

  /** `add_personalized_touch`. `polarity` is that of the user's text as typed. */
  function Personalize(response: string, polarity: real): (r: string)
    ensures |r| >= |response| && r[|r| - |response|..] == response
    ensures r[..|r| - |response|] in EmpathyPrefixes
    ensures polarity < -0.5 ==> r[..|r| - |response|] == PainPrefix
    ensures polarity > 0.5 ==> r[..|r| - |response|] == EnergyPrefix
    ensures -0.5 <= polarity <= 0.5 ==> r == response
  {
    if polarity < -0.5 then PainPrefix + response
    else if polarity > 0.5 then EnergyPrefix + response
    else response
  }

  /** Removes one empathy prefix, if the text starts with one. */
  function RemoveTouch(s: string): string {
    if StartsWith(s, PainPrefix) then s[|PainPrefix|..]
    else if StartsWith(s, EnergyPrefix) then s[|EnergyPrefix|..]
    else s
  }

  /** For a text that does not itself start with an empathy prefix,
      RemoveTouch undoes Personalize: exactly one prefix at most was added. */
  lemma RemoveTouchUndoesPersonalize(response: string, polarity: real)
    requires !StartsWith(response, PainPrefix) && !StartsWith(response, EnergyPrefix)
    ensures RemoveTouch(Personalize(response, polarity)) == response
  {
    var r := Personalize(response, polarity);
    if polarity < -0.5 {
      assert r[..|PainPrefix|] == PainPrefix;
      assert r[|PainPrefix|..] == response;
    } else if polarity > 0.5 {
      assert r[..|PainPrefix|] != PainPrefix by {
        assert r[1] == EnergyPrefix[1] == 'o';
        assert PainPrefix[1] == ' ';
      }
      assert r[..|EnergyPrefix|] == EnergyPrefix;
      assert r[|EnergyPrefix|..] == response;
    }
  }

  /** The reply the bot gives to `prompt` in one turn: classify, pick, personalise. */
  function Reply(prompt: string, lowerPolarity: real, rawPolarity: real, choice: nat): (reply: string)
    requires choice < |Candidates(Classify(prompt, lowerPolarity))|
    ensures exists i :: 0 <= i < |Responses[Classify(prompt, lowerPolarity)]|
                        && var c := Responses[Classify(prompt, lowerPolarity)][i];
                           |c| <= |reply| && reply[|reply| - |c|..] == c
    ensures 0 < |reply| < |FollowUp|
  {
    var category := Classify(prompt, lowerPolarity);
    var base := GetResponse(category, choice);
    ReplyBounded(category, choice);
    Personalize(base, rawPolarity)
  }

  /** The shape of a turn's reply: the canned reply at position `choice` of
      the classified category's list, behind the empathy prefix that the
      polarity of the text as typed selects. */
  lemma ReplyShape(prompt: string, lowerPolarity: real, rawPolarity: real, choice: nat)
    requires choice < |Candidates(Classify(prompt, lowerPolarity))|
    ensures var base := Responses[Classify(prompt, lowerPolarity)][choice];
            var r := Reply(prompt, lowerPolarity, rawPolarity, choice);
            && |base| <= |r| && r[|r| - |base|..] == base
            && r[..|r| - |base|] in EmpathyPrefixes
            && (rawPolarity < -0.5 ==> r == PainPrefix + base)
            && (rawPolarity > 0.5 ==> r == EnergyPrefix + base)
            && (-0.5 <= rawPolarity <= 0.5 ==> r == base)
  {
  }

  /** Every canned reply is non-empty and, with the longer prefix, shorter
      than the follow-up message. */
  lemma ReplyBounded(category: string, choice: nat)
    requires category in Responses && choice < |Responses[category]|
    ensures 0 < |Responses[category][choice]|
    ensures |EnergyPrefix| + |Responses[category][choice]| < |FollowUp|
  {
  }

  /** A crisis keyword anywhere in the text, in any letter case, makes the
      reply end with the crisis line that `choice` picks, whatever the other
      keywords or the polarities. */
  lemma CrisisReply(prompt: string, lowerPolarity: real, rawPolarity: real, choice: nat)
    requires ContainsAny(Lower(prompt), CrisisKeywords)
    requires choice < |CrisisReplies|
    ensures choice < |Candidates(Classify(prompt, lowerPolarity))|
    ensures var r := Reply(prompt, lowerPolarity, rawPolarity, choice);
            var line := CrisisReplies[choice];
            |line| <= |r| && r[|r| - |line|..] == line
  {
    assert Classify(prompt, lowerPolarity) == Crisis;
  }

  /** The follow-up the bot adds on every fifth turn. */
  const FollowUp := "I notice we've been talking for a while. Remember, while I'm here to support you, speaking with a mental health professional can provide additional help. Would you like me to share some resources for finding professional support?"
}
