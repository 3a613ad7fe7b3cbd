/** models/messages.py: the message descriptors exchanged with the clients.
    An outgoing message checks, on construction, that every receiver it
    may be sent to is one of the three delivery options. */
module Messages {
  import opened Errors
  import opened Json

  const ToPlayer: string := "to_player"
  const ToGame: string := "to_game"
  const ToSender: string := "to_sender"

  /** `TO_OPTIONS`, and `TO_ANY`, which is the same list. */
  const ToOptions: seq<string> := [ToPlayer, ToGame, ToSender]
  const ToAny: seq<string> := ToOptions

  /** The validation loop from receiver `i` on: `assert receiver in
      TO_OPTIONS` for each receiver in turn. */
  function CheckedFrom(receivers: seq<string>, i: nat): (r: Result<()>)
    requires i <= |receivers|
    decreases |receivers| - i
  {
    if i == |receivers| then Ok(())
    else if receivers[i] !in ToOptions then Err(AssertionError)
    else CheckedFrom(receivers, i + 1)
  }

  /** The whole validation: iterating over `None` raises TypeError. */
  function Checked(canSendTo: Option<seq<string>>): (r: Result<()>)
  {
    if canSendTo.None? then Err(TypeError) else CheckedFrom(canSendTo.value, 0)
  }

  /** The loop passes exactly when every receiver from `i` on is an
      option, and otherwise fails with AssertionError. */
  lemma {:induction false} CheckedFromIff(receivers: seq<string>, i: nat)
    requires i <= |receivers|
    ensures CheckedFrom(receivers, i) == Ok(()) <==> forall j :: i <= j < |receivers| ==> receivers[j] in ToOptions
    ensures CheckedFrom(receivers, i).Err? ==> CheckedFrom(receivers, i).error == AssertionError
    decreases |receivers| - i
  {
    if i < |receivers| && receivers[i] in ToOptions {
      CheckedFromIff(receivers, i + 1);
    }
  }

  /** Construction succeeds exactly when there is a receiver list and each
      receiver is `to_player`, `to_game` or `to_sender`; the default `None`
      fails with TypeError and a stray receiver with AssertionError. */
  lemma CheckedIff(canSendTo: Option<seq<string>>)
    ensures Checked(canSendTo) == Ok(()) <==>
              canSendTo.Some? && forall r :: r in canSendTo.value ==> r in ToOptions
    ensures canSendTo.None? ==> Checked(canSendTo) == Err(TypeError)
    ensures canSendTo.Some? && Checked(canSendTo).Err? ==> Checked(canSendTo).error == AssertionError
  {
    if canSendTo.Some? {
      CheckedFromIff(canSendTo.value, 0);
    }
  }

  /** A sub-list of the options validates, so `TO_ANY` and every receiver
      list the module declares do. */
  lemma DeclaredListsValid()
    ensures ToAny == [ToPlayer, ToGame, ToSender]
    ensures Checked(Some(ToAny)) == Ok(())
    ensures Checked(Some([ToPlayer])) == Ok(())
    ensures Checked(Some([ToGame])) == Ok(())
    ensures Checked(Some([ToSender])) == Ok(())
    ensures Checked(Some([ToSender, ToPlayer])) == Ok(())
  {
    CheckedIff(Some(ToAny));
    CheckedIff(Some([ToPlayer]));
    CheckedIff(Some([ToGame]));
    CheckedIff(Some([ToSender]));
    CheckedIff(Some([ToSender, ToPlayer]));
  }

  /** The validation loop over a receiver list. */
  method CheckReceivers(canSendTo: Option<seq<string>>) returns (r: Result<()>)
    ensures r == Checked(canSendTo)
  {
    if canSendTo.None? {
      return Err(TypeError);
    }
    var receivers := canSendTo.value;
    var i := 0;
    while i < |receivers|
      invariant 0 <= i <= |receivers|
      invariant CheckedFrom(receivers, 0) == CheckedFrom(receivers, i)
    {
      if receivers[i] !in ToOptions {
        return Err(AssertionError);
      }
      i := i + 1;
    }
    r := Ok(());
  }

  class OutgoingMessage {
    var name: Option<string>
    var template: Option<Value>
    var canSendTo: seq<string>

    /** The fields are stored as given, once the receivers have passed. */
    constructor (name: Option<string>, template: Option<Value>, canSendTo: seq<string>)
      requires Checked(Some(canSendTo)).Ok?
      ensures this.name == name && this.template == template && this.canSendTo == canSendTo
    {
      this.name := name;
      this.template := template;
      this.canSendTo := canSendTo;
    }
  }

  /** `OutgoingMessage(name, message_template, can_send_to)`: the
      validation loop, then the fields, stored unchanged. */
  method NewOutgoing(name: Option<string>, template: Option<Value>, canSendTo: Option<seq<string>>)
    returns (r: Result<OutgoingMessage>)
    ensures r.Ok? <==> Checked(canSendTo).Ok?
    ensures r.Err? ==> Checked(canSendTo) == Err(r.error)
    ensures r.Ok? ==> fresh(r.value) && r.value.name == name && r.value.template == template &&
                      Some(r.value.canSendTo) == canSendTo
  {
    var checked := CheckReceivers(canSendTo);
    if checked.Err? {
      return Err(checked.error);
    }
    var m := new OutgoingMessage(name, template, canSendTo.value);
    r := Ok(m);
  }

  class IncomingMessage {
    var name: string
    var template: Value
    var reply: Option<seq<OutgoingMessage>>

    /** `IncomingMessage(name, message_template, reply)`: `reply` is the list
        of messages the server may answer the event with. */
    constructor (name: string, template: Value, reply: Option<seq<OutgoingMessage>>)
      ensures this.name == name && this.template == template && this.reply == reply
    {
      this.name := name;
      this.template := template;
      this.reply := reply;
    }

    /** `IncomingMessage(name, message_template)`: `reply` defaults to
        None. */
    constructor WithoutReply(name: string, template: Value)
      ensures this.name == name && this.template == template && this.reply == None
    {
      this.name := name;
      this.template := template;
      this.reply := None;
    }
  }
}
