/**
 * The values the chat page exchanges with its server: the message record it
 * keeps in its log, the inbound realtime event as parsed from JSON, the
 * typing signals it sends over the socket and the body of the message POST.
 */
module ChatEvents {

  datatype Option<+T> = None | Some(value: T) {
    /** The value, if any, as a sequence of length at most one. */
    function ToSeq(): seq<T>
    {
      match this
      case None => []
      case Some(v) => [v]
    }
  }

  /** A chat message as the page stores it in its log. The wire timestamp is
      kept as the raw string the server sent (see the README for the Date
      conversion). */
  datatype Message = Message(id: int, text: string, sender: string, timestamp: string)

  /** One parsed inbound frame. Each field is `None` when the JSON object has
      no such property, which is how a JavaScript comparison against an
      absent property behaves (`undefined` equals no string). */
  datatype InEvent = InEvent(kind: Option<string>, sender: Option<string>, message: Option<Message>)

  /** The two signals the page sends over the socket. */
  datatype Signal = Typing | NotTyping

  /** An outbound socket frame `{type, sender}`. */
  datatype OutEvent = OutEvent(signal: Signal, sender: string)

  /** The JSON body `{text, sender}` of a message POST. */
  datatype Submission = Submission(text: string, sender: string)

  /** The wire tag of an outbound signal. */
  function SignalTag(s: Signal): (tag: string)
    ensures tag == "typing" || tag == "not_typing"
    ensures (tag == "typing") == s.Typing?
  {
    match s
    case Typing => "typing"
    case NotTyping => "not_typing"
  }

  /** True when an inbound frame claims a sender other than this client.
      A frame without a sender counts as coming from someone else. */
  predicate FromOther(e: InEvent, userID: string)
  {
    e.sender != Some(userID)
  }

  /** Constructors for the frames the server is expected to send; convenient
      in lemmas and scenarios. */
  function MessageEvent(m: Message): InEvent
  {
    InEvent(Some("message"), None, Some(m))
  }

  function SignalEvent(s: Signal, sender: string): InEvent
  {
    InEvent(Some(SignalTag(s)), Some(sender), None)
  }
}
