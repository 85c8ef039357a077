/** The chat box: a text input that sends its trimmed, non-blank content. */
module RoomChat {
  import opened Base

  /** The send button is disabled while the input is blank: `!inputValue.trim()`. */
  function SendDisabled(input: string): (r: bool)
    ensures r <==> Trim(input) == ""
  {
    BlankIffTrimEmpty(input);
    IsBlank(input)
  }

  class ChatBox {
    var inputValue: string
    /** Every text handed to `onSendMessage`, oldest first. */
    var sent: seq<string>

    constructor ()
      ensures inputValue == "" && sent == []
    {
      inputValue := "";
      sent := [];
    }

    method SetInput(v: string)
      modifies this`inputValue
      ensures inputValue == v
    {
      inputValue := v;
    }

    /** Send the trimmed input and clear it; a blank input changes nothing. */
    method HandleSubmit()
      modifies this
      ensures IsBlank(old(inputValue)) ==> inputValue == old(inputValue) && sent == old(sent)
      ensures !IsBlank(old(inputValue)) ==> inputValue == "" && sent == old(sent) + [Trim(old(inputValue))]
    {
      if IsBlank(inputValue) {
        return;
      }
      sent := sent + [Trim(inputValue)];
      inputValue := "";
    }

    /** Enter without Shift submits; Shift+Enter and other keys do nothing. */
    method HandleKeyDown(key: string, shiftKey: bool)
      modifies this
      ensures key == "Enter" && !shiftKey && !IsBlank(old(inputValue)) ==>
        inputValue == "" && sent == old(sent) + [Trim(old(inputValue))]
      ensures key != "Enter" || shiftKey || IsBlank(old(inputValue)) ==>
        inputValue == old(inputValue) && sent == old(sent)
    {
      if key != "Enter" {
        return;
      }
      if shiftKey {
        return;
      }
      HandleSubmit();
    }
  }

  /** What is sent is never blank and carries no surrounding whitespace. */
  lemma SentTextIsClean(input: string)
    requires !SendDisabled(input)
    ensures Trim(input) != "" && !IsSpace(Trim(input)[0]) && !IsSpace(Trim(input)[|Trim(input)| - 1])
  {
  }

  /** The button is enabled exactly when submitting sends something. */
  method ButtonMatchesSubmit(c: ChatBox)
    modifies c
    ensures |c.sent| == |old(c.sent)| + (if SendDisabled(old(c.inputValue)) then 0 else 1)
  {
    c.HandleSubmit();
  }
}
