/** The chat input box (components/ChatInterface.tsx): its submit guard and its disabled flags. */
module ChatInterface {
  import opened Wrappers
  import opened Text

  /** The send button's `disabled`: `!input.trim() || isLoading`. */
  function SendDisabled(input: string, isLoading: bool): (r: bool)
    ensures r <==> IsBlank(input) || isLoading
  {
    Trim(input) == "" || isLoading
  }

  /** The text field's `disabled`: it follows the loading flag. */
  function InputDisabled(isLoading: bool): (r: bool)
    ensures r <==> isLoading
  {
    isLoading
  }

  /** While a reply is awaited, both the field and the button are disabled, whatever was typed. */
  lemma LockedWhileLoading(input: string)
    ensures InputDisabled(true) && SendDisabled(input, true)
    ensures !InputDisabled(false)
  {
  }

  /** The text typed so far. */
  class ChatBox {
    var input: string

    constructor ()
      ensures input == ""
    {
      input := "";
    }

    /** The field's `onChange`. */
    method Edit(text: string)
      modifies this
      ensures input == text
    {
      input := text;
    }

    /**
     * `handleSubmit`: ignored while loading or when only white space was typed;
     * otherwise clears the field and sends what was typed, untrimmed. `sent` is the
     * text handed to `onSendMessage`, or `None` when it is not called.
     */
    method HandleSubmit(isLoading: bool) returns (sent: Option<string>)
      modifies this
      ensures sent.Some? <==> !SendDisabled(old(input), isLoading)
      ensures sent.Some? <==> !IsBlank(old(input)) && !isLoading
      ensures sent.Some? ==> sent.value == old(input) && input == ""
      ensures sent.None? ==> input == old(input)
    {
      if Trim(input) == "" || isLoading {
        sent := None;
        return;
      }
      var text := input;
      input := "";
      sent := Some(text);
    }
  }
}
