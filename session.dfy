/**
 * The chat page's component state and its handlers. React state becomes the
 * fields of a `Session`; the socket and the HTTP client become two logs of
 * what was sent (`outbox` for socket frames, `posts` for message POST bodies).
 */
module ChatSession {
  import opened ChatEvents
  import opened Whitespace
  import opened InboundFold
  import opened Outbound

  /** How the awaited message POST settles: the server answered (with an ok
      status or not), or the request itself failed and the await throws. */
  datatype PostOutcome = Responded(ok: bool) | NetworkFailure

  class Session {
    /** The id this page generated for itself when it was mounted. */
    const userID: string
    var messages: seq<Message>
    var otherUserTyping: bool
    var inputValue: string
    /** Frames sent over the socket, oldest first. */
    var outbox: seq<OutEvent>
    /** Bodies of the message POSTs issued, oldest first. */
    var posts: seq<Submission>

    /** Everything this client sends is signed with its own id, and no blank
        text is ever posted. */
    ghost predicate Valid()
      reads this
    {
      (forall o :: o in outbox ==> o.sender == userID) &&
      (forall p :: p in posts ==> p.sender == userID && !AllWhitespace(p.text))
    }

    /** The part of the state that inbound frames update. */
    function CurrentView(): View
      reads this
    {
      View(messages, otherUserTyping)
    }

    /** A freshly mounted page: empty log, nobody typing, empty input, nothing
        sent yet. */
    constructor (userID: string)
      ensures Valid() && this.userID == userID
      ensures CurrentView() == Initial
      ensures inputValue == "" && outbox == [] && posts == []
    {
      this.userID := userID;
      messages, otherUserTyping := [], false;
      inputValue, outbox, posts := "", [], [];
    }

    /** `ws.onmessage` for one parsed frame. Only the log and the typing flag
        can change. */
    method OnMessage(e: InEvent)
      requires Valid()
      modifies this`messages, this`otherUserTyping
      ensures Valid()
      ensures CurrentView() == Receive(old(CurrentView()), userID, e)
    {
      if e.kind == Some("message") && e.message.Some? {
        messages := messages + [e.message.value];
        otherUserTyping := false;
      } else if e.kind == Some("typing") && e.sender != Some(userID) {
        otherUserTyping := true;
      } else if e.kind == Some("not_typing") && e.sender != Some(userID) {
        otherUserTyping := false;
      }
    }

    /** `handleInputChange`: the input always takes the new text; while the
        socket is open one typing signal is sent on every change. */
    method HandleInputChange(newValue: string, socketOpen: bool)
      requires Valid()
      modifies this`inputValue, this`outbox
      ensures Valid()
      ensures inputValue == newValue
      ensures outbox == old(outbox) + TypingSignal(newValue, socketOpen, userID)
    {
      inputValue := newValue;
      if |newValue| > 0 && socketOpen {
        outbox := outbox + [OutEvent(Typing, userID)];
      } else if |newValue| == 0 && socketOpen {
        outbox := outbox + [OutEvent(NotTyping, userID)];
      }
    }

    /** `handleSendMessage`: a blank input is left alone and nothing is
        posted; otherwise the input is posted as typed, and cleared once the
        server has answered, whether or not the answer is ok. A failed request
        throws before the input is cleared. The log is not touched: the
        message appears only when the server relays it back. */
    method HandleSendMessage(outcome: PostOutcome)
      requires Valid()
      modifies this`inputValue, this`posts
      ensures Valid()
      ensures posts == old(posts) + SubmissionFor(old(inputValue), userID).ToSeq()
      ensures inputValue ==
        if SubmissionFor(old(inputValue), userID).Some? && outcome.Responded? then ""
        else old(inputValue)
    {
      if IsBlank(inputValue) {
        return;
      }
      posts := posts + [Submission(inputValue, userID)];
      if outcome.Responded? {
        inputValue := "";
      }
    }

    /** `handleKeyDown`: Enter on a non-blank input sends it; every other
        key press changes nothing. */
    method HandleKeyDown(key: string, outcome: PostOutcome)
      requires Valid()
      modifies this`inputValue, this`posts
      ensures Valid()
      ensures !KeyTriggersSend(key, old(inputValue)) ==>
        posts == old(posts) && inputValue == old(inputValue)
      ensures KeyTriggersSend(key, old(inputValue)) ==>
        posts == old(posts) + SubmissionFor(old(inputValue), userID).ToSeq() &&
        inputValue == (if outcome.Responded? then "" else old(inputValue))
    {
      if key == "Enter" && !IsBlank(inputValue) {
        HandleSendMessage(outcome);
      }
    }
  }

  /** Every body this page has posted is signed with its id, so when the
      server relays it back as a message, whatever id and timestamp it
      assigns, the page draws it as its own. */
  lemma PostedEchoIsMine(s: Session, i: nat, id: int, timestamp: string, v: View)
    requires s.Valid() && i < |s.posts|
    ensures var p := s.posts[i];
      var r := Receive(v, s.userID, MessageEvent(Message(id, p.text, p.sender, timestamp)));
      |r.messages| == |v.messages| + 1 && Alignment(r.messages[|v.messages|], s.userID) == Mine
  {
    assert s.posts[i] in s.posts;
  }

  /** Typing "hi" sends two typing frames; sending posts the text as typed
      and clears the input; the log is untouched until the server relays the
      message back. */
  method SendingScenario()
  {
    var s := new Session("me");
    s.HandleInputChange("h", true);
    s.HandleInputChange("hi", true);
    assert s.outbox == [OutEvent(Typing, "me"), OutEvent(Typing, "me")];
    assert !IsWhitespace("hi"[0]);
    assert SubmissionFor("hi", "me") == Some(Submission("hi", "me"));
    s.HandleSendMessage(Responded(false));
    assert s.posts == [Submission("hi", "me")] && s.inputValue == "" && s.messages == [];
  }

  /** The indicator follows the other participant's frames but not this
      page's own, and a relayed message is logged and hides the indicator. */
  method ReceivingScenario()
  {
    var s := new Session("me");
    s.OnMessage(SignalEvent(Typing, "you"));
    assert s.otherUserTyping;
    s.OnMessage(SignalEvent(NotTyping, "me"));
    assert s.otherUserTyping;
    var m := Message(1, "hi", "me", "2024-01-01T00:00:00Z");
    s.OnMessage(MessageEvent(m));
    assert s.messages == [m] && !s.otherUserTyping;
  }
}
