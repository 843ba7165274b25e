/**
  * The typed-message box (src/components/TextInput.tsx): a text field whose
  * trimmed content is handed to `onSubmit` unless it is blank or a message
  * is still being processed.
  */
module TextInput {
  import opened Wrappers
  import opened JsString

  /** The handler's condition, `text.trim() && !isProcessing` (line 16). */
  predicate CanSubmit(text: string, isProcessing: bool) {
    Trim(text) != [] && !isProcessing
  }

  /** The send button's `disabled` expression, `!text.trim() || isProcessing` (line 33). */
  predicate SubmitDisabled(text: string, isProcessing: bool) {
    Trim(text) == [] || isProcessing
  }

  /** The button is disabled in exactly the states in which the handler would refuse. */
  lemma DisabledExactlyWhenGated(text: string, isProcessing: bool)
    ensures SubmitDisabled(text, isProcessing) <==> !CanSubmit(text, isProcessing)
  {
  }

  class TextInputBox {
    /** The `text` state of the field. */
    var text: string

    constructor()
      ensures text == ""
    {
      text := "";
    }

    /** The field's `onChange`. */
    method Edit(value: string)
      modifies this
      ensures text == value
    {
      text := value;
    }

    /**
      * `handleSubmit`: `submitted` is the value passed to `onSubmit`, if it
      * was called. A submitted message is trimmed and non-empty, and the
      * field is cleared; otherwise nothing is sent and the field keeps what
      * was typed.
      */
    method HandleSubmit(isProcessing: bool) returns (submitted: Option<string>)
      modifies this
      ensures submitted.Some? <==> CanSubmit(old(text), isProcessing)
      ensures submitted.Some? ==> submitted.value == Trim(old(text)) && text == ""
      ensures submitted.Some? ==> submitted.value != [] && Trim(submitted.value) == submitted.value
      ensures submitted.None? ==> text == old(text)
    {
      if Trim(text) != [] && !isProcessing {
        submitted := Some(Trim(text));
        TrimIdempotent(text);
        text := "";
      } else {
        submitted := None;
      }
    }
  }
}
