/** The records the chat keeps in its message list, and the two compose
    guards that decide whether a typed line becomes a message. */
module Messages {
  import opened Wrappers
  import opened Text

  /** The sentinel author of every assistant-generated message. */
  const AiAuthor: string := "AI"

  /** An attached file, already read into a data URL. */
  datatype Media = Media(name: string, mimeType: string, size: nat, data: string)

  /** One entry of the message list. `author` is the display name at the time
      of sending, `None` when no name was set; `metaId` is the correlation id
      that only the transient "thinking" placeholder carries. */
  datatype Message = Message(
    author: Option<string>,
    text: string,
    ts: nat,
    media: Option<Media>,
    metaId: Option<string>)

  /** How an author is printed inside a template literal: a missing name prints as "null". */
  function AuthorText(author: Option<string>): (s: string)
    ensures author.Some? ==> s == author.value
  {
    match author
    case Some(name) => name
    case None => "null"
  }

  /** A message with something to show: text or an attachment. */
  predicate Displayable(m: Message) {
    m.text != "" || m.media.Some?
  }

  /** An assistant message with no attachment and no correlation id. */
  function AiMessage(text: string, ts: nat): Message {
    Message(Some(AiAuthor), text, ts, None, None)
  }

  /** The state of the file picker when Send is pressed. */
  datatype Attachment =
    | NoFile
    | Loaded(media: Media)   // the file was read into a data URL
    | Unreadable             // the file reader failed: the pending send is abandoned

  /** The compose step of sending: nothing is sent for a blank line with no
      file, or when the chosen file cannot be read; otherwise the message
      carries the trimmed text, the current name, the clock and the media. */
  function Compose(username: Option<string>, input: string, file: Attachment, now: nat): (r: Option<Message>)
    ensures r.None? <==> (AllSpace(input) && file.NoFile?) || file.Unreadable?
    ensures r.Some? ==> r.value.author == username && r.value.text == Trim(input)
                        && r.value.ts == now && r.value.metaId.None?
    ensures r.Some? ==> (r.value.media.Some? <==> file.Loaded?)
    ensures r.Some? && file.Loaded? ==> r.value.media == Some(file.media)
    ensures r.Some? ==> Displayable(r.value)
  {
    TrimEmptyIff(input);
    var text := Trim(input);
    if text == "" && file.NoFile? then None
    else if file.Unreadable? then None
    else Some(Message(username, text, now, if file.Loaded? then Some(file.media) else None, None))
  }

  /** The compose step of the "ask AI" button: a blank line is refused, otherwise
      the trimmed text is sent under the current name, with no attachment. */
  function ComposeQuestion(username: Option<string>, input: string, now: nat): (r: Option<Message>)
    ensures r.None? <==> AllSpace(input)
    ensures r.Some? ==> r.value == Message(username, Trim(input), now, None, None)
    ensures r.Some? ==> Displayable(r.value)
  {
    TrimEmptyIff(input);
    var text := Trim(input);
    if text == "" then None else Some(Message(username, text, now, None, None))
  }
}
