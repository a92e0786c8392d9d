/**
 * What the page sends: the typing signal chosen on every input change
 * (`handleInputChange`) and the message submission allowed by the blank-input
 * guard (`handleSendMessage`, `handleKeyDown`).
 */
module Outbound {
  import opened ChatEvents
  import opened Whitespace
  import opened InboundFold

  /** The frames one input change sends: none while the socket is not open,
      otherwise exactly one, "typing" for a non-empty text and "not_typing"
      for the empty text, always signed with this client's id. */
  function TypingSignal(text: string, socketOpen: bool, userID: string): (sent: seq<OutEvent>)
    ensures |sent| == if socketOpen then 1 else 0
    ensures forall o :: o in sent ==> o.sender == userID && (o.signal == Typing <==> |text| > 0)
  {
    if |text| > 0 && socketOpen then [OutEvent(Typing, userID)]
    else if |text| == 0 && socketOpen then [OutEvent(NotTyping, userID)]
    else []
  }

  /** The frames sent for a run of input changes, each change on its own. */
  function TypingSignals(texts: seq<string>, socketOpen: bool, userID: string): seq<OutEvent>
    decreases |texts|
  {
    if texts == [] then []
    else TypingSignals(texts[..|texts| - 1], socketOpen, userID)
         + TypingSignal(texts[|texts| - 1], socketOpen, userID)
  }

  /** Signals are sent per change, not per empty/non-empty transition: with
      the socket open, every change sends one frame, and the i-th frame says
      whether the i-th text is non-empty. */
  lemma {:induction false} SignalPerChange(texts: seq<string>, socketOpen: bool, userID: string)
    ensures var sent := TypingSignals(texts, socketOpen, userID);
      |sent| == (if socketOpen then |texts| else 0) &&
      (socketOpen ==> forall i :: 0 <= i < |texts| ==>
        sent[i] == OutEvent(if |texts[i]| > 0 then Typing else NotTyping, userID))
    decreases |texts|
  {
    if texts != [] {
      SignalPerChange(texts[..|texts| - 1], socketOpen, userID);
    }
  }

  /** Typing "h", then "hi", then clearing the field sends three frames,
      two of them "typing". */
  lemma TypeAndClear(userID: string)
    ensures TypingSignals(["h", "hi", ""], true, userID)
      == [OutEvent(Typing, userID), OutEvent(Typing, userID), OutEvent(NotTyping, userID)]
  {
    SignalPerChange(["h", "hi", ""], true, userID);
  }

  /** The body a send would POST: none for a blank input, otherwise the
      input exactly as typed (untrimmed) signed with this client's id. */
  function SubmissionFor(input: string, userID: string): (r: Option<Submission>)
    ensures r.None? <==> AllWhitespace(input)
    ensures r.Some? ==> r.value.text == input && r.value.sender == userID && |input| > 0
  {
    if IsBlank(input) then None else Some(Submission(input, userID))
  }

  /** A key press sends exactly when it is Enter and the input is not blank. */
  function KeyTriggersSend(key: string, input: string): (b: bool)
    ensures b <==> key == "Enter" && !AllWhitespace(input)
  {
    key == "Enter" && !IsBlank(input)
  }

  /** A whitespace-only input still announces typing but can never be sent. */
  lemma WhitespaceTypesButIsNotSent(text: string, userID: string)
    requires |text| > 0 && AllWhitespace(text)
    ensures TypingSignal(text, true, userID) == [OutEvent(Typing, userID)]
    ensures SubmissionFor(text, userID).None?
    ensures !KeyTriggersSend("Enter", text)
  {
  }

  /** An outbound frame as another page receives it once the server relays
      it unchanged. */
  function Relay(o: OutEvent): InEvent
  {
    SignalEvent(o.signal, o.sender)
  }

  function RelayAll(os: seq<OutEvent>): (es: seq<InEvent>)
    ensures |es| == |os| && forall i :: 0 <= i < |os| ==> es[i] == Relay(os[i])
  {
    seq(|os|, i requires 0 <= i < |os| => Relay(os[i]))
  }

  /** A relayed typing signal from another page shows or hides the indicator
      as its tag says and leaves the log alone; this page's own signal,
      relayed back, changes nothing. */
  lemma RelaySignal(v: View, me: string, o: OutEvent)
    ensures o.sender != me ==> Receive(v, me, Relay(o)) == v.(otherUserTyping := o.signal.Typing?)
    ensures o.sender == me ==> Receive(v, me, Relay(o)) == v
  {
  }

  /** End to end: when another page's input changes are relayed to this page
      in order, the indicator ends up showing whether that page's latest text
      is non-empty, whatever it showed before. */
  lemma RelayedTypingFollowsLatestText(v: View, me: string, other: string, texts: seq<string>)
    requires other != me && |texts| > 0
    ensures ReceiveAll(v, me, RelayAll(TypingSignals(texts, true, other))).otherUserTyping
      == (|texts[|texts| - 1]| > 0)
  {
    var sent := TypingSignals(texts, true, other);
    SignalPerChange(texts, true, other);
    var es := RelayAll(sent);
    var last := |es| - 1;
    RelaySignal(v, me, sent[last]);
    FlagFollowsLastEffect(v, me, es, last);
  }
}
