/**
 * The page's `ws.onmessage` handler as a pure fold: each inbound frame takes
 * the client view (the message log and the "other user is typing" flag) to a
 * new view.
 */
module InboundFold {
  import opened ChatEvents

  /** The part of the page state that inbound frames update. */
  datatype View = View(messages: seq<Message>, otherUserTyping: bool)

  /** The state of a freshly mounted page: empty log, nobody typing. */
  const Initial := View([], false)

  /** A frame of type "message" that carries a message payload; only these
      reach the log. */
  predicate IsAcceptedMessage(e: InEvent)
  {
    e.kind == Some("message") && e.message.Some?
  }

  /** One inbound frame, in the order the handler tests its cases: an accepted
      message is appended and clears the flag; "typing" from someone else sets
      the flag; "not_typing" from someone else clears it; anything else
      changes nothing. */
  function Receive(v: View, userID: string, e: InEvent): (r: View)
    ensures IsAcceptedMessage(e) ==>
      r.messages == v.messages + [e.message.value] && !r.otherUserTyping
    ensures !IsAcceptedMessage(e) ==> r.messages == v.messages
    ensures e.kind == Some("typing") ==>
      r.otherUserTyping == (FromOther(e, userID) || v.otherUserTyping)
    ensures e.kind == Some("not_typing") ==>
      r.otherUserTyping == (!FromOther(e, userID) && v.otherUserTyping)
    ensures e.kind !in {Some("message"), Some("typing"), Some("not_typing")} ==> r == v
    ensures e.kind == Some("message") && e.message.None? ==> r == v
  {
    if IsAcceptedMessage(e) then
      View(v.messages + [e.message.value], false)
    else if e.kind == Some("typing") && FromOther(e, userID) then
      v.(otherUserTyping := true)
    else if e.kind == Some("not_typing") && FromOther(e, userID) then
      v.(otherUserTyping := false)
    else
      v
  }

  /** The frames received in order, folded from `v`. */
  function ReceiveAll(v: View, userID: string, es: seq<InEvent>): View
    decreases |es|
  {
    if es == [] then v
    else Receive(ReceiveAll(v, userID, es[..|es| - 1]), userID, es[|es| - 1])
  }

  /** The payloads of the accepted message frames among `es`, in arrival
      order and with repetitions. */
  function Accepted(es: seq<InEvent>): seq<Message>
    decreases |es|
  {
    if es == [] then []
    else
      var e := es[|es| - 1];
      Accepted(es[..|es| - 1]) + if IsAcceptedMessage(e) then [e.message.value] else []
  }

  /** Receiving `es1` and then `es2` is receiving `es1 + es2`. */
  lemma {:induction false} ReceiveAllConcat(v: View, userID: string, es1: seq<InEvent>, es2: seq<InEvent>)
    ensures ReceiveAll(v, userID, es1 + es2) == ReceiveAll(ReceiveAll(v, userID, es1), userID, es2)
    decreases |es2|
  {
    if es2 != [] {
      var es := es1 + es2;
      assert es[..|es| - 1] == es1 + es2[..|es2| - 1];
      assert es[|es| - 1] == es2[|es2| - 1];
      ReceiveAllConcat(v, userID, es1, es2[..|es2| - 1]);
    } else {
      assert es1 + es2 == es1;
    }
  }

  /** The log is append-only and not deduplicated: after any frames it is the
      old log followed by every accepted payload, one entry per accepted
      frame, even when ids repeat. */
  lemma {:induction false} ReceiveAllLog(v: View, userID: string, es: seq<InEvent>)
    ensures ReceiveAll(v, userID, es).messages == v.messages + Accepted(es)
    decreases |es|
  {
    if es != [] {
      ReceiveAllLog(v, userID, es[..|es| - 1]);
    }
  }

  /** The same message delivered twice is logged twice. */
  lemma NoDeduplication(v: View, userID: string, m: Message)
    ensures ReceiveAll(v, userID, [MessageEvent(m), MessageEvent(m)]).messages == v.messages + [m, m]
  {
    var es := [MessageEvent(m), MessageEvent(m)];
    assert es[..1] == [MessageEvent(m)] && es[..1][..0] == [];
    assert Accepted(es[..1]) == Accepted([]) + [m] == [m];
    assert Accepted(es) == [m, m];
    ReceiveAllLog(v, userID, es);
  }

  /** What a frame does to the typing flag: set it, clear it, or leave it. */
  function FlagEffect(e: InEvent, userID: string): Option<bool>
  {
    if IsAcceptedMessage(e) then Some(false)
    else if e.kind == Some("typing") && FromOther(e, userID) then Some(true)
    else if e.kind == Some("not_typing") && FromOther(e, userID) then Some(false)
    else None
  }

  /** A frame with no effect on the flag changes nothing at all; one with an
      effect decides the flag whatever it was. */
  lemma ReceiveByFlagEffect(v: View, userID: string, e: InEvent)
    ensures FlagEffect(e, userID).None? ==> Receive(v, userID, e) == v
    ensures FlagEffect(e, userID).Some? ==>
      Receive(v, userID, e).otherUserTyping == FlagEffect(e, userID).value
  {
  }

  /** Frames none of which has an effect on the flag leave the whole view as
      it was. */
  lemma {:induction false} ReceiveAllWithoutEffect(v: View, userID: string, es: seq<InEvent>)
    requires forall j :: 0 <= j < |es| ==> FlagEffect(es[j], userID).None?
    ensures ReceiveAll(v, userID, es) == v
    decreases |es|
  {
    if es != [] {
      ReceiveAllWithoutEffect(v, userID, es[..|es| - 1]);
      ReceiveByFlagEffect(v, userID, es[|es| - 1]);
    }
  }

  /** After a sequence of frames the flag is what the last frame that has an
      effect on it made it: the typing indicator shows the latest signal. */
  lemma {:induction false} FlagFollowsLastEffect(v: View, userID: string, es: seq<InEvent>, i: nat)
    requires i < |es| && FlagEffect(es[i], userID).Some?
    requires forall j :: i < j < |es| ==> FlagEffect(es[j], userID).None?
    ensures ReceiveAll(v, userID, es).otherUserTyping == FlagEffect(es[i], userID).value
  {
    var pre, post := es[..i + 1], es[i + 1..];
    assert es == pre + post;
    ReceiveAllConcat(v, userID, pre, post);
    ReceiveAllWithoutEffect(ReceiveAll(v, userID, pre), userID, post);
    assert pre[..|pre| - 1] == es[..i];
    ReceiveByFlagEffect(ReceiveAll(v, userID, es[..i]), userID, es[i]);
  }

  /** Which side of the conversation a logged message is drawn on. */
  datatype Side = Mine | Theirs

  /** `isMe`: a message is drawn as this client's own exactly when its sender
      is this client's id. */
  function Alignment(m: Message, userID: string): (side: Side)
    ensures side == Mine <==> m.sender == userID
  {
    if m.sender == userID then Mine else Theirs
  }

  /** A relayed message lands as the new last entry, is drawn as this
      client's own exactly when this client sent it, and hides the typing
      indicator whoever sent it. */
  lemma RelayedMessageSide(v: View, userID: string, e: InEvent)
    requires IsAcceptedMessage(e)
    ensures var r := Receive(v, userID, e);
      |r.messages| == |v.messages| + 1 && r.messages[|v.messages|] == e.message.value &&
      (Alignment(r.messages[|v.messages|], userID) == Mine <==> e.message.value.sender == userID) &&
      !r.otherUserTyping
  {
  }
}
