/**
 * The chat input bar (components/InputBar.tsx): its one text field, the
 * submit guard, and when the field and the send button are disabled.
 */
module InputBar {
  import opened Wrappers
  import opened Text
  import App

  /** The send button's `disabled`: busy, or nothing but whitespace typed. */
  predicate SendDisabled(isLoading: bool, text: string)
  {
    isLoading || Trim(text) == ""
  }

  /** The text field's `disabled`. */
  predicate InputDisabled(isLoading: bool)
  {
    isLoading
  }

  /** The send button is enabled exactly when the bar is idle and some typed character is not whitespace. */
  lemma SendEnabledIff(isLoading: bool, text: string)
    ensures !SendDisabled(isLoading, text) <==>
      !isLoading && exists i :: 0 <= i < |text| && !IsWhitespace(text[i])
  {
    TrimEmptyIffBlank(text);
  }

  /**
   * What the button lets through, the controller's guard lets through too,
   * unless there is no chat session: the two trims agree.
   */
  lemma EnabledSendPassesGuard(isLoading: bool, text: string, session: Option<App.Session>)
    requires !SendDisabled(isLoading, text)
    ensures App.Blocked(isLoading, text, session) <==> session.None?
  {
  }

  /** The bar's state: the text typed so far. */
  class InputBar {
    var text: string

    constructor()
      ensures text == ""
    {
      text := "";
    }

    /** The field's `onChange`. */
    method Change(t: string)
      modifies this
      ensures text == t
    {
      text := t;
    }

    /**
     * `handleSubmit`: the typed text, untrimmed, is handed to `onSendMessage`
     * once (the out-parameter) and the field cleared; text that trims to
     * empty sends nothing and stays.
     */
    method Submit() returns (sent: Option<string>)
      modifies this
      ensures IsBlank(old(text)) ==> sent == None && text == old(text)
      ensures !IsBlank(old(text)) ==> sent == Some(old(text)) && text == ""
    {
      TrimEmptyIffBlank(text);
      if Trim(text) != "" {
        sent := Some(text);
        text := "";
      } else {
        sent := None;
      }
    }
  }
}
