/** The synchronous parts of the assistant round trip: finding the API key,
    the context window sent with the request, the correlation id of the
    "thinking" placeholder, the text taken from the reply or the failure, and
    the filter that takes the placeholder out again. The HTTP exchange itself
    is an input (`Outcome`). */
module Bridge {
  import opened Wrappers
  import opened Text
  import opened Messages
  import opened Render

  /** How many earlier messages go into the context window. */
  const HistoryLimit: nat := 8

  const AdvisoryText: string := "AI is disabled — set your OpenAI key using 'Set OpenAI Key' in the top-right."
  const ThinkingText: string := "AI is thinking..."
  const FallbackReply: string := "Sorry — I couldn't generate a response."
  const TypingPrefix: string := "__typing_"
  const ErrorPrefix: string := "AI error: "

  // ---------------------------------------------------------------- key

  /** The session-scoped key if it is non-empty, else the durable one; an
      empty key counts as no key. */
  function ResolveKey(sessionKey: Option<string>, localKey: Option<string>): (key: Option<string>)
    ensures key.Some? ==> key.value != "" && (key == sessionKey || key == localKey)
    ensures key.None? <==> sessionKey in {None, Some("")} && localKey in {None, Some("")}
    ensures sessionKey.Some? && sessionKey.value != "" ==> key == sessionKey
  {
    if sessionKey.Some? && sessionKey.value != "" then sessionKey
    else if localKey.Some? && localKey.value != "" then localKey
    else None
  }

  // ---------------------------------------------------------------- context window

  datatype Role = User | Assistant

  /** One entry of the conversation sent to the completion endpoint. */
  datatype ChatEntry = ChatEntry(role: Role, content: string)

  /** A message as the assistant sees it: its own messages verbatim, everybody
      else's prefixed with the author's name. */
  function ToEntry(m: Message): (e: ChatEntry)
    ensures e.role == Assistant <==> m.author == Some(AiAuthor)
    ensures e.role == Assistant ==> e.content == m.text
    ensures e.role == User ==> e.content == AuthorText(m.author) + ": " + m.text
  {
    if m.author == Some(AiAuthor) then ChatEntry(Assistant, m.text)
    else ChatEntry(User, AuthorText(m.author) + ": " + m.text)
  }

  /** The entry added for the message that triggered the request: always a user entry. */
  function TriggerEntry(m: Message): ChatEntry {
    ChatEntry(User, AuthorText(m.author) + ": " + m.text)
  }

  /** `slice(-8)`: the last eight messages, or all of them when there are fewer. */
  function Recent(ms: seq<Message>): (r: seq<Message>)
    ensures |r| == if |ms| < HistoryLimit then |ms| else HistoryLimit
    ensures r == ms[|ms| - |r|..]
  {
    if |ms| <= HistoryLimit then ms else ms[|ms| - HistoryLimit..]
  }

  function Entries(ms: seq<Message>): (es: seq<ChatEntry>)
    ensures |es| == |ms|
    ensures forall i :: 0 <= i < |ms| ==> es[i] == ToEntry(ms[i])
  {
    if ms == [] then [] else Entries(ms[..|ms| - 1]) + [ToEntry(ms[|ms| - 1])]
  }

  /** The context window: at most eight recent messages, each mapped by role,
      followed by one user entry for the triggering message. */
  function HistoryWindow(ms: seq<Message>, trigger: Message): (h: seq<ChatEntry>)
    ensures |h| == (if |ms| < HistoryLimit then |ms| else HistoryLimit) + 1
    ensures h[|h| - 1] == TriggerEntry(trigger)
    ensures forall i :: 0 <= i < |h| - 1 ==> h[i] == ToEntry(ms[|ms| - (|h| - 1) + i])
  {
    Entries(Recent(ms)) + [TriggerEntry(trigger)]
  }

  /** The triggering message is already in the list when the window is taken,
      so a user's message reaches the assistant twice, back to back. */
  lemma TriggerAppearsTwice(ms: seq<Message>, trigger: Message)
    requires ms != [] && ms[|ms| - 1] == trigger
    requires trigger.author != Some(AiAuthor)
    ensures var h := HistoryWindow(ms, trigger);
            |h| >= 2 && h[|h| - 2] == h[|h| - 1] == TriggerEntry(trigger)
  {
  }

  /** Messages older than the last eight never reach the assistant. */
  lemma HistoryForgetsOlder(older: seq<Message>, recent: seq<Message>, trigger: Message)
    requires |recent| >= HistoryLimit
    ensures HistoryWindow(older + recent, trigger) == HistoryWindow(recent, trigger)
  {
  }

  /** On the viewer's screen, an entry sent with the assistant role is exactly
      a message styled "ai", unless the viewer is themself named "AI". */
  lemma StyleAgreesWithRole(m: Message, username: Option<string>)
    requires username != Some(AiAuthor)
    ensures StyleClass(m.author, username) == "ai" <==> ToEntry(m).role == Assistant
  {
  }

  // ---------------------------------------------------------------- placeholder

  /** The correlation id of a placeholder: a fixed prefix and the clock in milliseconds. */
  function TypingId(clock: nat): (id: string)
    ensures StartsWith(id, TypingPrefix)
  {
    TypingPrefix + Decimal(clock)
  }

  /** Two requests share a placeholder id exactly when they read the same millisecond. */
  lemma TypingIdCollides(a: nat, b: nat)
    ensures TypingId(a) == TypingId(b) <==> a == b
  {
    if TypingId(a) == TypingId(b) {
      assert Decimal(a) == TypingId(a)[|TypingPrefix|..];
      DecimalInjective(a, b);
    }
  }

  function Placeholder(typingId: string, ts: nat): (p: Message)
    ensures p.metaId == Some(typingId) && p.author == Some(AiAuthor) && Displayable(p)
  {
    Message(Some(AiAuthor), ThinkingText, ts, None, Some(typingId))
  }

  predicate Tagged(m: Message, typingId: string) {
    m.metaId == Some(typingId)
  }

  predicate NoneTagged(ms: seq<Message>, typingId: string) {
    forall i :: 0 <= i < |ms| ==> !Tagged(ms[i], typingId)
  }

  /** `filter(m => m.metaId !== typingId)`. */
  function RemoveTagged(ms: seq<Message>, typingId: string): (r: seq<Message>)
    ensures |r| <= |ms|
    ensures NoneTagged(r, typingId)
    ensures forall m :: m in r ==> m in ms
  {
    if ms == [] then []
    else if Tagged(ms[0], typingId) then RemoveTagged(ms[1..], typingId)
    else [ms[0]] + RemoveTagged(ms[1..], typingId)
  }

  /** Up to order, the filter drops every tagged message and keeps every other
      one as many times as it occurred. */
  lemma {:induction false} RemoveTaggedCounts(ms: seq<Message>, typingId: string, m: Message)
    ensures Tagged(m, typingId) ==> multiset(RemoveTagged(ms, typingId))[m] == 0
    ensures !Tagged(m, typingId) ==> multiset(RemoveTagged(ms, typingId))[m] == multiset(ms)[m]
  {
    if ms != [] {
      RemoveTaggedCounts(ms[1..], typingId, m);
      assert ms == [ms[0]] + ms[1..];
    }
  }

  /** The filter works piecewise, so the kept messages stay in their original order. */
  lemma {:induction false} RemoveTaggedAppend(a: seq<Message>, b: seq<Message>, typingId: string)
    ensures RemoveTagged(a + b, typingId) == RemoveTagged(a, typingId) + RemoveTagged(b, typingId)
  {
    if a == [] {
      assert a + b == b;
    } else {
      assert (a + b)[1..] == a[1..] + b;
      RemoveTaggedAppend(a[1..], b, typingId);
    }
  }

  /** A list without the id is left exactly as it is. */
  lemma {:induction false} RemoveTaggedUntouched(ms: seq<Message>, typingId: string)
    requires NoneTagged(ms, typingId)
    ensures RemoveTagged(ms, typingId) == ms
  {
    if ms != [] {
      RemoveTaggedUntouched(ms[1..], typingId);
    }
  }

  /** Messages sent while the request is in flight survive the swap, in order:
      only the placeholder goes. */
  lemma PlaceholderRemovedAlone(before: seq<Message>, p: Message, after: seq<Message>, typingId: string)
    requires NoneTagged(before, typingId) && NoneTagged(after, typingId)
    requires Tagged(p, typingId)
    ensures RemoveTagged(before + [p] + after, typingId) == before + after
  {
    RemoveTaggedAppend(before + [p], after, typingId);
    RemoveTaggedAppend(before, [p], typingId);
    RemoveTaggedUntouched(before, typingId);
    RemoveTaggedUntouched(after, typingId);
    assert RemoveTagged([p], typingId) == [];
  }

  /** The net effect of one undisturbed round trip: the user's message and
      the final assistant message, with no placeholder left behind. */
  lemma RoundTripNetEffect(ms: seq<Message>, sent: Message, p: Message, reply: Message, typingId: string)
    requires NoneTagged(ms, typingId) && !Tagged(sent, typingId)
    requires Tagged(p, typingId)
    ensures RemoveTagged(ms + [sent] + [p], typingId) + [reply] == ms + [sent, reply]
  {
    assert NoneTagged(ms + [sent], typingId);
    PlaceholderRemovedAlone(ms + [sent], p, [], typingId);
    assert ms + [sent] + [p] + [] == ms + [sent] + [p];
  }

  // ---------------------------------------------------------------- reply

  datatype CompletionMessage = CompletionMessage(content: Option<string>)
  datatype Choice = Choice(message: Option<CompletionMessage>)

  /** The decoded response body; every link of `choices[0].message.content` may be missing. */
  datatype Completion = Completion(choices: Option<seq<Choice>>)

  /** `choices[0].message.content`, when the whole chain is there. */
  function FirstContent(data: Completion): Option<string> {
    if data.choices.Some? && |data.choices.value| > 0 && data.choices.value[0].message.Some?
    then data.choices.value[0].message.value.content
    else None
  }

  /** The trimmed first completion when it is there and non-empty, otherwise the fixed apology. */
  function ExtractReply(data: Completion): (text: string)
    ensures FirstContent(data).Some? && FirstContent(data).value != "" ==> text == Trim(FirstContent(data).value)
    ensures FirstContent(data).None? || FirstContent(data) == Some("") ==> text == FallbackReply
  {
    match FirstContent(data)
    case Some(content) => if content != "" then Trim(content) else FallbackReply
    case None => FallbackReply
  }

  /** The reply shown never begins or ends with white space. */
  lemma ExtractReplyTrimmed(data: Completion)
    ensures Trim(ExtractReply(data)) == ExtractReply(data)
  {
    var text := ExtractReply(data);
    assert text == FallbackReply ==> text[0] == 'S' && text[|text| - 1] == '.';
    TrimKeepsTrimmed(text);
  }

  /** The reply is empty exactly when the content is present, non-empty and
      all white space: such a reply slips past the truthiness test and becomes
      an assistant message with no text. */
  lemma ExtractReplyEmptyIff(data: Completion)
    ensures ExtractReply(data) == "" <==>
            FirstContent(data).Some? && FirstContent(data).value != "" && AllSpace(FirstContent(data).value)
  {
  }

  // ---------------------------------------------------------------- outcome

  /** What the request comes back with. */
  datatype Outcome =
    | Replied(data: Completion)           // 2xx status, body decoded
    | Rejected(status: nat, body: string) // non-2xx status and its body text
    | Thrown(message: string)             // network failure or undecodable body

  /** The message of the error raised for a non-2xx status. */
  function RejectionMessage(status: nat, body: string): string {
    "OpenAI error: " + Decimal(status) + " " + body
  }

  /** The text of the assistant message that replaces the placeholder. */
  function FinalText(outcome: Outcome): (text: string)
    ensures outcome.Replied? ==> text == ExtractReply(outcome.data)
    ensures outcome.Rejected? ==> text == ErrorPrefix + RejectionMessage(outcome.status, outcome.body)
    ensures outcome.Thrown? ==> text == ErrorPrefix + outcome.message
    ensures !outcome.Replied? ==> StartsWith(text, ErrorPrefix)
  {
    match outcome
    case Replied(data) => ExtractReply(data)
    case Rejected(status, body) => ErrorPrefix + RejectionMessage(status, body)
    case Thrown(message) => ErrorPrefix + message
  }

  /** The final assistant message has text unless a blank completion came back. */
  lemma FinalTextDisplayable(outcome: Outcome, ts: nat)
    ensures Displayable(AiMessage(FinalText(outcome), ts)) <==>
            !(outcome.Replied? && ExtractReply(outcome.data) == "")
  {
  }

  /** What the first, synchronous half of a request leaves behind. */
  datatype Pending =
    | Disabled                                            // no key: the advisory was posted
    | Awaiting(typingId: string, history: seq<ChatEntry>) // placeholder posted, request sent
}
