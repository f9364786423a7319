/**
 * The chat input box: its `input` state, the submit handler that sends
 * the trimmed text once and clears the box, and the Enter-key rule.
 *
 * `onSendMessage` is recorded: `sent` lists the strings passed to it, in
 * order. `isLoading` is the parent's prop and comes in as a parameter.
 * Scrolling and focusing are left out.
 */
module ChatInterface {
  import opened Text

  const EnterKey: string := "Enter"

  /** The send button's `disabled` expression. */
  predicate SendDisabled(input: string, isLoading: bool)
    ensures SendDisabled(input, isLoading) <==> isLoading || Blank(input)
  {
    TrimEmptyIffBlank(input);
    Trim(input) == "" || isLoading
  }

  /** Enter without Shift submits; Shift+Enter and every other key type into the box. */
  predicate SubmitsOnKey(key: string, shiftKey: bool)
    ensures shiftKey ==> !SubmitsOnKey(key, shiftKey)
    ensures key != EnterKey ==> !SubmitsOnKey(key, shiftKey)
  {
    key == EnterKey && !shiftKey
  }

  /** Every message of the log is non-blank and already trimmed. */
  predicate AllTrimmed(sent: seq<string>)
  {
    forall m <- sent :: m != "" && Trim(m) == m
  }

  /** Sending one more such message keeps the log that way. */
  lemma SendKeepsTrimmed(sent: seq<string>, message: string)
    requires AllTrimmed(sent) && message != "" && Trim(message) == message
    ensures AllTrimmed(sent + [message])
  {
    assert forall m <- sent + [message] :: m in sent || m == message;
  }

  class ChatBox {
    var input: string
    /** The arguments of the `onSendMessage` calls so far. */
    var sent: seq<string>

    /** Every sent message is non-blank and already trimmed. */
    predicate Valid()
      reads this
    {
      AllTrimmed(sent)
    }

    constructor ()
      ensures Valid() && input == "" && sent == []
    {
      input := "";
      sent := [];
    }

    /** The text area's `onChange`. */
    method SetInput(value: string)
      requires Valid()
      modifies this`input
      ensures Valid() && input == value
    {
      input := value;
    }

    /** `handleSubmit`: send the trimmed input unless it is blank or a reply is pending. */
    method HandleSubmit(isLoading: bool)
      requires Valid()
      modifies this
      ensures Valid()
      ensures SendDisabled(old(input), isLoading) ==> input == old(input) && sent == old(sent)
      ensures !SendDisabled(old(input), isLoading) ==> input == "" && sent == old(sent) + [Trim(old(input))]
    {
      if Trim(input) == "" || isLoading {
        return;
      }
      var message := Trim(input);
      TrimIdempotent(input);
      SendKeepsTrimmed(sent, message);
      sent := sent + [message];
      input := "";
    }

    /** `handleKeyDown`: `prevented` says whether the default newline was suppressed. */
    method HandleKeyDown(key: string, shiftKey: bool, isLoading: bool) returns (prevented: bool)
      requires Valid()
      modifies this
      ensures Valid() && prevented == SubmitsOnKey(key, shiftKey)
      ensures !SubmitsOnKey(key, shiftKey) ==> input == old(input) && sent == old(sent)
      ensures SubmitsOnKey(key, shiftKey) && SendDisabled(old(input), isLoading) ==>
        input == old(input) && sent == old(sent)
      ensures SubmitsOnKey(key, shiftKey) && !SendDisabled(old(input), isLoading) ==>
        input == "" && sent == old(sent) + [Trim(old(input))]
    {
      prevented := false;
      if key == EnterKey && !shiftKey {
        prevented := true;
        HandleSubmit(isLoading);
      }
    }
  }
}
