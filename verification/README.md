# Mental-health support chatbot: reply pipeline

This project models the rule-based core of a Streamlit mental-health support
chatbot (`chatbot.py`). On each turn the chatbot does the following:

1. It **classifies** the user's text (`analyze_sentiment`). The text is
   lower-cased and checked for substrings from five keyword lists in a fixed
   order: crisis, anxiety, depression, stress, positive. The first list with a
   match decides the category. When no keyword matches, the sentiment polarity
   decides it: above 0.1 is `positive`, below -0.1 is `depression`, and
   anything in between is `support`.
2. It **picks** a canned reply for that category from the `RESPONSES` table
   (`get_response`). A name that is not a table key falls back to `support`.
3. It **personalises** the reply (`add_personalized_touch`). When the polarity
   of the text as typed is below -0.5, it prepends a "pain" sentence. When it is
   above 0.5, it prepends a "positive energy" sentence.
4. It **records** the turn in the session state. The user message and then the
   reply are appended to the history, and `conversation_count` goes up by one.
   When the new count is a multiple of five, a fixed follow-up message is
   appended as well.

Modules:

- `Text` (text.dfy) holds ASCII `str.lower()` and Python's substring test
  `key in text`. The substring test is proved equal to "occurs at some index".
- `Chatbot` (chatbot.dfy) holds the reply table, the keyword lists, the
  classifier, reply selection and personalisation. These are pure functions
  with lemmas about them.
- `Session` (session.dfy) holds the session state. A pure `Step` and `Run`
  over turns come with their invariants. A `ChatSession` class has the two
  fields the app mutates, and its `SubmitPrompt` method is proved to perform
  exactly `Step`.

Two values come from outside the program and are parameters here:

- **Sentiment polarity** (TextBlob) is a `real`. The source computes it twice:
  once on `text.lower()` inside the classifier (`lowerPolarity`), and once on
  the text as typed inside the personalisation (`rawPolarity`). The model
  keeps these two apart.
- **`random.choice`** is a `choice` index. It must be a valid position in the
  list being drawn from.

The reply table `Responses` (one constant per category list) and the five
keyword lists are the constants of chatbot.py:26-70, reproduced string for
string, in the same order.

`code/backend module/server.js` is a separate, simpler chatbot: an HTTP
server whose fallback table has the categories `greetings`, `anxiety`,
`sadness`, `stress` and `default`, and which can call an external
text-generation API. It is not part of this model. This model covers
`chatbot.py`, whose categories are crisis, anxiety, depression, stress,
positive and support, with the polarity fallback. Its table also has a
`greeting` list, but the classifier never returns `greeting`.

## Model

| member | source | states |
|---|---|---|
| Text.Lower | chatbot.py:74-88 | `text.lower()`: the result has the length of the input and holds no ASCII capital. |
| Text.Contains | chatbot.py:78-88 | Python's `keyword in text`: it holds only when the keyword fits in the text, always for the empty keyword, and whenever the text starts with the keyword (`StartsWith`, the one prefix test that personalisation uses too). |
| Text.ContainsAny | chatbot.py:78-88 | `any(keyword in text for keyword in KEYWORDS)`: it holds exactly when some keyword of the list occurs at some index of the text. |
| Text.LowerChar | chatbot.py:78 | A lowered character is never an ASCII capital. Capitals move up by 32 and every other character is unchanged. |
| Text.LowerAt | chatbot.py:78 | `lower()` keeps the length and maps each character independently. |
| Text.LowerFixesLowerCase | chatbot.py:78 | Text with no capital letter is left unchanged by `lower()`. |
| Text.LowerIdempotent | chatbot.py:78-88 | Lower-casing twice gives the same result as lower-casing once. |
| Text.ContainsIffOccurs | chatbot.py:78 | Python's `keyword in text` holds exactly when the keyword occurs at some index of the text. |
| Text.ContainsTransitive | chatbot.py:67-69 | A substring of a substring is a substring. |
| Chatbot.FirstMatch | chatbot.py:77-89 | First-match-wins over an ordered rule list. The result is None exactly when no rule has a keyword in the text. Otherwise it is the category of a matching rule, and no earlier rule matches. |
| Chatbot.PolarityFallback | chatbot.py:91-97 | The three polarity bands are disjoint and exhaustive: `> 0.1` gives positive, `< -0.1` gives depression, and the closed band in between gives support. |
| Chatbot.Classify | chatbot.py:26-97 | The classifier is total and returns one of the six categories. Each result is a key of `RESPONSES` and is never `greeting`. The result is `crisis` exactly when the lowered text contains a crisis keyword, whatever other keywords or polarity are present. |
| Chatbot.ClassifyIsFirstMatch | chatbot.py:77-97 | The classifier equals "first matching rule in the order crisis, anxiety, depression, stress, positive, otherwise the polarity band". |
| Chatbot.ClassifyCaseInsensitive | chatbot.py:74-88 | Classifying a text and classifying its lower-cased form give the same category. |
| Chatbot.StressedIsAnxiety | chatbot.py:67-87 | A text containing "stressed" and no crisis keyword also contains the stress keyword "stress", yet it is classified as anxiety. |
| Chatbot.StressedWordIsAnxiety | chatbot.py:66-89 | The word "stressed" is classified as anxiety at every polarity. |
| Chatbot.Candidates | chatbot.py:101-104 | The list `get_response` draws from is the key's own list `RESPONSES[c]` when `c` is a key, and the support list for a name that is not a key. Either way it is a table list with at least three replies. |
| Chatbot.GetResponse | chatbot.py:99-104 | The reply is an element of `RESPONSES[c]` when `c` is a key, and an element of `RESPONSES["support"]` otherwise. |
| Chatbot.GetResponseReachesAll | chatbot.py:102-104 | Every reply in the list drawn from is returned for some choice. |
| Chatbot.ClassifiedCategoryHasOwnReplies | chatbot.py:26-104 | For every classifier result, `get_response` draws from that category's own list, which has at least three entries. The support fallback is never reached from the chat flow. |
| Chatbot.Personalize | chatbot.py:106-116 | The original response is always a suffix. What precedes it is empty, the pain prefix when polarity < -0.5, or the positive-energy prefix when polarity > 0.5. Within [-0.5, 0.5] the response is unchanged. |
| Chatbot.RemoveTouchUndoesPersonalize | chatbot.py:106-116 | Removing one empathy prefix recovers the original response, so at most one prefix was added. |
| Chatbot.Reply | chatbot.py:169-171 | The turn's reply ends with a reply from the table list of the classified category. It is non-empty and shorter than the follow-up message. `ReplyShape` gives the exact value. |
| Chatbot.ReplyShape | chatbot.py:169-171 | The reply is entry `choice` of the classified category's list behind an empathy prefix. The prefix is the pain prefix when the raw polarity is below -0.5, the positive-energy prefix above 0.5, and nothing within [-0.5, 0.5]. |
| Chatbot.ReplyBounded | chatbot.py:26-64 | Every canned reply is non-empty. Even with the longer prefix, it is shorter than the follow-up message. |
| Chatbot.CrisisReply | chatbot.py:57-79 | A crisis keyword in any letter case makes the reply end with the crisis line that the choice picks. |
| Session.Step | chatbot.py:162-194 | A turn happens only for a non-empty prompt. One turn raises the count by exactly 1 and leaves earlier entries unchanged. It appends the user message and then the assistant reply. It appends the follow-up as a third entry exactly when the new count is a multiple of 5. |
| Session.InitialWellFormed | chatbot.py:15-23 | The fresh session, one assistant greeting with count 0, satisfies the session invariant. |
| Session.StepPreservesWellFormed | chatbot.py:164-194 | One turn preserves the session invariant. The history holds 1 + 2n + n/5 entries, n of them from the user. It starts with the greeting, and its last entry is the follow-up exactly when n > 0 is a multiple of 5. |
| Session.Run | chatbot.py:162-194 | After n turns the count is n and the history holds at least 1 + 2n entries. |
| Session.RunWellFormed | chatbot.py:15-23 | Every session reached from the initial state by turns satisfies the session invariant. |
| Session.RunExtends | chatbot.py:164-194 | Later turns never change earlier history. The history after some turns is a prefix of the history after more turns. |
| Session.ChatSession.constructor | chatbot.py:15-23 | A new session holds only the greeting and a count of 0. |
| Session.ChatSession.SubmitPrompt | chatbot.py:162-194 | It is called only with a non-empty prompt, since an empty one is falsy and skips the block. It updates the history and counter in place in the app's order, and the new state is exactly `Step` of the old state. The session invariant is kept. |

## Left out

- Streamlit page setup, the sidebar and its buttons, message rendering and the footer (chatbot.py:7-12, 118-160, 198-208) are presentation only and are not modelled.
- The sidebar's random affirmation (chatbot.py:142-150) is presentation only and is not modelled.
- The typing effect (chatbot.py:177-186) is timing and display only: it splits the reply, sleeps and re-renders. It changes no state and is not modelled.
- TextBlob's polarity computation is a foreign NLP library. Its results are the parameters `lowerPolarity` and `rawPolarity`. Floating-point polarity is modelled as `real`, so rounding at the 0.1 and 0.5 thresholds is not captured.
- Text.LowerChar: Python's `str.lower()` lower-cases all of Unicode, but this lowers ASCII capitals only. Every keyword is lower-case ASCII, but a non-ASCII capital in user text that lowers to an ASCII letter is not captured. One example is KELVIN SIGN, which lowers to `k`.
- `random.choice` is modelled as an index the caller supplies, not as randomness. The uniform distribution is not captured.
- Chatbot.GetResponse: the source's unused `user_input` parameter is dropped.
- When `st.chat_input` yields nothing or an empty string (chatbot.py:162), the turn block is skipped and the state is untouched. The model expresses this by admitting only non-empty prompts to `Step` and `SubmitPrompt`, not by a separate no-op operation.
- Streamlit reruns the whole script per interaction. The model keeps the session state in one `ChatSession` object. Re-entering the initialisation guards of chatbot.py:15 and 22 on later runs is modelled by not calling the constructor again.
- `code/backend module/server.js` is not part of this model: its HTTP routing, static files, CORS, configuration loading and external API call.
