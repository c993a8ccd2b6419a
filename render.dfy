/** The choices the renderer makes for each message: its style class, how
    its attachment is shown, and the order in which messages appear. The DOM
    nodes themselves, the timestamp formatting and the scrolling are not modelled. */
module Render {
  import opened Wrappers
  import opened Text
  import opened Messages

  /** The style class of a message: the viewer's own messages first, then the
      assistant's, then everyone else's. */
  function StyleClass(author: Option<string>, username: Option<string>): (c: string)
    ensures c == "me" || c == "ai" || c == "other"
    ensures c == "me" <==> author == username
    ensures c == "ai" <==> author != username && author == Some(AiAuthor)
  {
    if author == username then "me" else if author == Some(AiAuthor) then "ai" else "other"
  }

  /** How an attachment is shown. */
  datatype MediaView =
    | Image(src: string, alt: string)
    | Video(src: string)
    | Link(href: string, caption: string, fileName: string)

  /** Dispatch on the MIME type prefix; a missing file name falls back to a fixed caption. */
  function ViewMedia(m: Media): (v: MediaView)
    ensures v.Image? <==> StartsWith(m.mimeType, "image/")
    ensures v.Video? <==> StartsWith(m.mimeType, "video/")
    ensures v.Link? <==> !StartsWith(m.mimeType, "image/") && !StartsWith(m.mimeType, "video/")
    ensures v.Image? ==> v.src == m.data && v.alt == OrElse(m.name, "image")
    ensures v.Video? ==> v.src == m.data
    ensures v.Link? ==> v.href == m.data && v.caption == OrElse(m.name, "download")
                        && v.fileName == OrElse(m.name, "file")
  {
    MediaPrefixesExclusive(m.mimeType);
    if StartsWith(m.mimeType, "image/") then Image(m.data, OrElse(m.name, "image"))
    else if StartsWith(m.mimeType, "video/") then Video(m.data)
    else Link(m.data, OrElse(m.name, "download"), OrElse(m.name, "file"))
  }

  /** No MIME type is both an image and a video type, so the order of the two tests does not matter. */
  lemma MediaPrefixesExclusive(t: string)
    ensures !(StartsWith(t, "image/") && StartsWith(t, "video/"))
  {
  }

  /** What is shown for one message. */
  datatype MessageView = MessageView(className: string, author: string, text: string, media: Option<MediaView>)

  function ViewMessage(m: Message, username: Option<string>): MessageView {
    MessageView("msg " + StyleClass(m.author, username), AuthorText(m.author), m.text,
                if m.media.Some? then Some(ViewMedia(m.media.value)) else None)
  }

  /** The whole list, re-rendered from scratch, front to back. */
  function RenderMessages(ms: seq<Message>, username: Option<string>): (vs: seq<MessageView>)
  {
    if ms == [] then [] else [ViewMessage(ms[0], username)] + RenderMessages(ms[1..], username)
  }

  /** The i-th view shows the i-th message: the rendered order is the list order. */
  lemma {:induction false} RenderInOrder(ms: seq<Message>, username: Option<string>)
    ensures |RenderMessages(ms, username)| == |ms|
    ensures forall i :: 0 <= i < |ms| ==> RenderMessages(ms, username)[i] == ViewMessage(ms[i], username)
  {
    if ms != [] {
      RenderInOrder(ms[1..], username);
    }
  }

  /** Appending a message appends exactly its view. */
  lemma {:induction false} RenderAppend(ms: seq<Message>, m: Message, username: Option<string>)
    ensures RenderMessages(ms + [m], username) == RenderMessages(ms, username) + [ViewMessage(m, username)]
  {
    if ms == [] {
      assert ms + [m] == [m];
    } else {
      assert (ms + [m])[1..] == ms[1..] + [m];
      RenderAppend(ms[1..], m, username);
    }
  }
}
