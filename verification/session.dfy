/**
  The per-session chat state: the message history and the turn counter that
  the app keeps across reruns, and what one user turn does to them.
 */
module Session {
  import opened Chatbot

  datatype Role = User | Assistant

  /** One history entry, `{"role": ..., "content": ...}`. */
  datatype Message = Message(role: Role, content: string)

  /** The whole session state: history and `conversation_count`. */
  datatype Chat = Chat(messages: seq<Message>, conversationCount: nat)

  /** One user turn: the prompt, the polarity of its lower-cased form (used by
      the classifier), the polarity of the prompt as typed (used for the
      empathy prefix) and the index `random.choice` picks. */
  datatype Turn = Turn(prompt: string, lowerPolarity: real, rawPolarity: real, choice: nat)

  const Welcome := "Hello! I'm here to provide mental health support. How are you feeling today? 😊"

  /** A fresh session: the assistant's greeting and a count of zero. */
  const Initial := Chat([Message(Assistant, Welcome)], 0)

  /** A turn happens only for a non-empty prompt (an empty string is falsy,
      so the chat block is skipped), and the random pick is an index into
      the list it is drawn from. */
  predicate Admissible(t: Turn) {
    && t.prompt != ""
    && t.choice < |Candidates(Classify(t.prompt, t.lowerPolarity))|
  }

  /** The reply a turn produces. */
  function TurnReply(t: Turn): string
    requires Admissible(t)
  {
    Reply(t.prompt, t.lowerPolarity, t.rawPolarity, t.choice)
  }

  /** One turn: append the prompt, then the reply, count the turn, and on every
      fifth turn append the follow-up. */
  function Step(s: Chat, t: Turn): (s': Chat)
    requires Admissible(t)
    ensures s'.conversationCount == s.conversationCount + 1
    ensures |s'.messages| == |s.messages| + 2 + (if s'.conversationCount % 5 == 0 then 1 else 0)
    ensures s'.messages[..|s.messages|] == s.messages
    ensures s'.messages[|s.messages|] == Message(User, t.prompt)
    ensures s'.messages[|s.messages| + 1] == Message(Assistant, TurnReply(t))
    ensures s'.conversationCount % 5 == 0 ==> s'.messages[|s.messages| + 2] == Message(Assistant, FollowUp)
  {
    var count := s.conversationCount + 1;
    Chat(s.messages + TurnEntries(count, t.prompt, TurnReply(t)), count)
  }

  /** The entries one turn appends, given the new count: the prompt, the
      reply, and the follow-up when the count is a multiple of five. */
  function TurnEntries(count: nat, prompt: string, reply: string): seq<Message> {
    var turn := [Message(User, prompt), Message(Assistant, reply)];
    if count % 5 == 0 then turn + [Message(Assistant, FollowUp)] else turn
  }

  /** The number of user entries in a history. */
  function UserEntries(ms: seq<Message>): nat {
    if ms == [] then 0
    else UserEntries(ms[..|ms| - 1]) + (if ms[|ms| - 1].role == User then 1 else 0)
  }

  lemma {:induction false} UserEntriesAppend(a: seq<Message>, b: seq<Message>)
    ensures UserEntries(a + b) == UserEntries(a) + UserEntries(b)
    decreases |b|
  {
    if b != [] {
      assert (a + b)[..|a + b| - 1] == a + b[..|b| - 1];
      UserEntriesAppend(a, b[..|b| - 1]);
    } else {
      assert a + b == a;
    }
  }

  /** What every reachable session satisfies: it opens with the greeting; each
      counted turn left one user entry and a reply, and every fifth one a
      follow-up besides; the last entry is the follow-up exactly after a
      multiple of five turns. */
  ghost predicate WellFormed(s: Chat) {
    && |s.messages| == 1 + 2 * s.conversationCount + s.conversationCount / 5
    && s.messages[0] == Message(Assistant, Welcome)
    && UserEntries(s.messages) == s.conversationCount
    && (s.conversationCount > 0 ==>
          (s.messages[|s.messages| - 1] == Message(Assistant, FollowUp) <==> s.conversationCount % 5 == 0))
  }

  lemma InitialWellFormed()
    ensures WellFormed(Initial)
  {
    assert UserEntries(Initial.messages) == UserEntries([]) + 0;
  }

  /** One turn keeps a well-formed session well-formed. */
  lemma StepPreservesWellFormed(s: Chat, t: Turn)
    requires WellFormed(s) && Admissible(t)
    ensures WellFormed(Step(s, t))
  {
    var s' := Step(s, t);
    var n := |s.messages|;
    var c := s.conversationCount;
    FollowUpArithmetic(c);
    var tail := s'.messages[n..];
    assert s'.messages == s.messages + tail;
    UserEntriesAppend(s.messages, tail);
    TurnTailHasOneUserEntry(s, t);
    assert s'.messages[0] == s.messages[0];
    assert TurnReply(t) != FollowUp;
  }

  /** Entries per turn: the length formula advances by two, or by three on
      every fifth turn. */
  lemma FollowUpArithmetic(c: nat)
    ensures 1 + 2 * (c + 1) + (c + 1) / 5 ==
            1 + 2 * c + c / 5 + 2 + (if (c + 1) % 5 == 0 then 1 else 0)
  {
  }

  /** The entries a turn appends hold exactly one user entry. */
  lemma TurnTailHasOneUserEntry(s: Chat, t: Turn)
    requires Admissible(t)
    ensures UserEntries(Step(s, t).messages[|s.messages|..]) == 1
  {
    var tail := Step(s, t).messages[|s.messages|..];
    var reply := TurnReply(t);
    OneUserEntry(t.prompt, reply, FollowUp);
    if Step(s, t).conversationCount % 5 == 0 {
      assert tail == [Message(User, t.prompt), Message(Assistant, reply), Message(Assistant, FollowUp)];
    } else {
      assert tail == [Message(User, t.prompt), Message(Assistant, reply)];
    }
  }

  lemma OneUserEntry(prompt: string, reply: string, followUp: string)
    ensures UserEntries([Message(User, prompt), Message(Assistant, reply)]) == 1
    ensures UserEntries([Message(User, prompt), Message(Assistant, reply), Message(Assistant, followUp)]) == 1
  {
    var u, a, f := Message(User, prompt), Message(Assistant, reply), Message(Assistant, followUp);
    assert [u][..0] == [];
    assert UserEntries([u]) == 1;
    assert [u, a][..1] == [u];
    assert UserEntries([u, a]) == 1;
    assert [u, a, f][..2] == [u, a];
  }

  predicate AllAdmissible(turns: seq<Turn>) {
    forall i :: 0 <= i < |turns| ==> Admissible(turns[i])
  }

  /** The session after the given turns, one after another, from a fresh one. */
  function Run(turns: seq<Turn>): (s: Chat)
    requires AllAdmissible(turns)
    ensures s.conversationCount == |turns|
    ensures |s.messages| >= 1 + 2 * |turns|
  {
    if turns == [] then Initial
    else Step(Run(turns[..|turns| - 1]), turns[|turns| - 1])
  }

  /** Every session reached by a sequence of turns is well-formed: the
      history holds 1 + 2n + n/5 entries after n turns, n of them the user's. */
  lemma {:induction false} RunWellFormed(turns: seq<Turn>)
    requires AllAdmissible(turns)
    ensures WellFormed(Run(turns))
  {
    if turns == [] {
      InitialWellFormed();
    } else {
      RunWellFormed(turns[..|turns| - 1]);
      StepPreservesWellFormed(Run(turns[..|turns| - 1]), turns[|turns| - 1]);
    }
  }

  /** Later turns never change earlier history: the history after `xs` is a
      prefix of the history after `xs + ys`. */
  lemma {:induction false} RunExtends(xs: seq<Turn>, ys: seq<Turn>)
    requires AllAdmissible(xs + ys)
    ensures AllAdmissible(xs)
    ensures Run(xs).messages <= Run(xs + ys).messages
    decreases |ys|
  {
    assert forall i :: 0 <= i < |xs| ==> xs[i] == (xs + ys)[i];
    if ys != [] {
      var zs := xs + ys;
      assert zs[..|zs| - 1] == xs + ys[..|ys| - 1];
      RunExtends(xs, ys[..|ys| - 1]);
      var before := Run(zs[..|zs| - 1]).messages;
      assert before == Run(zs).messages[..|before|];
    } else {
      assert xs + ys == xs;
    }
  }

  /** The three in-place appends of a turn, done one after another, build
      the history `before + TurnEntries(count, prompt, reply)` that Step builds. */
  lemma AppendsMakeTurnEntries(before: seq<Message>, count: nat, prompt: string, reply: string)
    ensures var withReply := before + [Message(User, prompt)] + [Message(Assistant, reply)];
            before + TurnEntries(count, prompt, reply) ==
              if count % 5 == 0 then withReply + [Message(Assistant, FollowUp)] else withReply
  {
    var u, a, f := Message(User, prompt), Message(Assistant, reply), Message(Assistant, FollowUp);
    assert before + [u] + [a] == before + [u, a];
    assert before + [u] + [a] + [f] == before + ([u, a] + [f]);
  }

  /** The session object the app keeps (`st.session_state`). */
  class ChatSession {
    var messages: seq<Message>
    var conversationCount: nat

    function State(): Chat
      reads this
    {
      Chat(messages, conversationCount)
    }

    ghost predicate Valid()
      reads this
    {
      WellFormed(State())
    }

    /** The first run of the app: the greeting and a zero count. */
    constructor ()
      ensures Valid()
      ensures State() == Initial
    {
      messages := [Message(Assistant, Welcome)];
      conversationCount := 0;
      InitialWellFormed();
    }

    /** One submitted prompt, in the order the app performs the updates. */
    method SubmitPrompt(prompt: string, lowerPolarity: real, rawPolarity: real, choice: nat)
      requires Valid()
      requires prompt != ""
      requires choice < |Candidates(Classify(prompt, lowerPolarity))|
      modifies this
      ensures Valid()
      ensures State() == Step(old(State()), Turn(prompt, lowerPolarity, rawPolarity, choice))
    {
      ghost var before := State();
      ghost var turn := Turn(prompt, lowerPolarity, rawPolarity, choice);
      messages := messages + [Message(User, prompt)];
      var category := Classify(prompt, lowerPolarity);
      var baseResponse := GetResponse(category, choice);
      var personalized := Personalize(baseResponse, rawPolarity);
      messages := messages + [Message(Assistant, personalized)];
      conversationCount := conversationCount + 1;
      if conversationCount % 5 == 0 {
        messages := messages + [Message(Assistant, FollowUp)];
      }
      AppendsMakeTurnEntries(before.messages, conversationCount, prompt, personalized);
      StepPreservesWellFormed(before, turn);
    }
  }
}
