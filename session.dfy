/** The tab-wide session state, the one object every handler updates: the
    display name and the ordered message list. Host inputs (the clock, the
    confirmation dialog, the stored keys, the HTTP outcome) are parameters.
    Persisting the state after each change is a no-op here. */
module Session {
  import opened Wrappers
  import opened Text
  import opened Messages
  import opened Bridge

  class ChatSession {
    var username: Option<string>
    var messages: seq<Message>

    /** The state before anything is loaded: no name, no messages. */
    constructor ()
      ensures username == None && messages == []
    {
      username := None;
      messages := [];
    }

    /** Appends one message at the end. */
    method AddMessage(msg: Message)
      modifies this
      ensures messages == old(messages) + [msg]
      ensures username == old(username)
    {
      messages := messages + [msg];
    }

    /** Signs in under the trimmed name; a blank name is refused and changes nothing. */
    method JoinChat(input: string) returns (joined: bool)
      modifies this
      ensures joined <==> !AllSpace(input)
      ensures username == if joined then Some(Trim(input)) else old(username)
      ensures messages == old(messages)
    {
      TrimEmptyIff(input);
      var name := Trim(input);
      if name == "" {
        return false;
      }
      username := Some(name);
      joined := true;
    }

    /** Forgets the name and keeps the messages. */
    method Logout()
      modifies this
      ensures username == None
      ensures messages == old(messages)
    {
      username := None;
    }

    /** Empties the list if the user confirms; the name is kept either way. */
    method ClearChat(confirmed: bool)
      modifies this
      ensures messages == if confirmed then [] else old(messages)
      ensures username == old(username)
    {
      if !confirmed {
        return;
      }
      messages := [];
    }

    /** The Send button: posts the composed message, if any, and returns it so
        that the caller can ask the assistant about it. */
    method SendMessage(input: string, file: Attachment, now: nat) returns (sent: Option<Message>)
      modifies this
      ensures sent == Compose(old(username), input, file, now)
      ensures messages == old(messages) + (if sent.Some? then [sent.value] else [])
      ensures username == old(username)
    {
      sent := Compose(username, input, file, now);
      if sent.Some? {
        AddMessage(sent.value);
      }
    }

    /** The "ask AI" button: like Send, but text only. */
    method AskAi(input: string, now: nat) returns (sent: Option<Message>)
      modifies this
      ensures sent == ComposeQuestion(old(username), input, now)
      ensures messages == old(messages) + (if sent.Some? then [sent.value] else [])
      ensures username == old(username)
    {
      sent := ComposeQuestion(username, input, now);
      if sent.Some? {
        AddMessage(sent.value);
      }
    }

    /** Everything the assistant request does before it goes on the network:
        with no key, posts the advisory and stops; otherwise takes the context
        window and posts a placeholder tagged with a correlation id made from the clock.
        `idClock` and `now` are two separate clock reads. */
    method BeginAiRespond(trigger: Message, sessionKey: Option<string>, localKey: Option<string>,
                          idClock: nat, now: nat)
      returns (pending: Pending)
      modifies this
      ensures ResolveKey(sessionKey, localKey).None? ==>
                pending == Disabled && messages == old(messages) + [AiMessage(AdvisoryText, now)]
      ensures ResolveKey(sessionKey, localKey).Some? ==>
                pending == Awaiting(TypingId(idClock), HistoryWindow(old(messages), trigger))
                && messages == old(messages) + [Placeholder(TypingId(idClock), now)]
      ensures username == old(username)
    {
      var key := ResolveKey(sessionKey, localKey);
      if key.None? {
        AddMessage(AiMessage(AdvisoryText, now));
        return Disabled;
      }
      var history := HistoryWindow(messages, trigger);
      var typingId := TypingId(idClock);
      AddMessage(Placeholder(typingId, now));
      pending := Awaiting(typingId, history);
    }

    /** The second half, on success and on failure alike: drop every message
        carrying the correlation id, then post the final assistant message. */
    method FinishAiRespond(typingId: string, outcome: Outcome, now: nat) returns (reply: Message)
      modifies this
      ensures reply == AiMessage(FinalText(outcome), now)
      ensures messages == RemoveTagged(old(messages), typingId) + [reply]
      ensures username == old(username)
    {
      messages := RemoveTagged(messages, typingId);
      reply := AiMessage(FinalText(outcome), now);
      AddMessage(reply);
    }

    /** One send followed by its assistant round trip, with nothing else in
        between: the list grows by the user's message and by exactly one
        assistant message, the advisory or the final reply; the placeholder
        is gone. This holds as long as no earlier message carries the same
        correlation id, that is, no request read the same millisecond. */
    method SendAndAwaitReply(input: string, file: Attachment, sentAt: nat,
                             sessionKey: Option<string>, localKey: Option<string>,
                             idClock: nat, shownAt: nat, outcome: Outcome, repliedAt: nat)
      modifies this
      ensures Compose(old(username), input, file, sentAt).None? ==> messages == old(messages)
      ensures Compose(old(username), input, file, sentAt).Some? && ResolveKey(sessionKey, localKey).None? ==>
                messages == old(messages) + [Compose(old(username), input, file, sentAt).value,
                                             AiMessage(AdvisoryText, shownAt)]
      ensures Compose(old(username), input, file, sentAt).Some? && ResolveKey(sessionKey, localKey).Some?
              && NoneTagged(old(messages), TypingId(idClock)) ==>
                messages == old(messages) + [Compose(old(username), input, file, sentAt).value,
                                             AiMessage(FinalText(outcome), repliedAt)]
      ensures username == old(username)
    {
      var sent := SendMessage(input, file, sentAt);
      if sent.None? {
        return;
      }
      var pending := BeginAiRespond(sent.value, sessionKey, localKey, idClock, shownAt);
      if pending.Disabled? {
        return;
      }
      var reply := FinishAiRespond(pending.typingId, outcome, repliedAt);
      if NoneTagged(old(messages), pending.typingId) {
        RoundTripNetEffect(old(messages), sent.value, Placeholder(pending.typingId, shownAt), reply, pending.typingId);
      }
    }
  }
}
