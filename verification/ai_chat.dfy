/**
 The support chat page (src/pages/AIChat.tsx): the input box, the guard
 that refuses blank messages, the Enter-to-send rule and the send button's
 enablement. Sending goes through the application state's `sendMessage`.
 */
module AIChat {
  import opened Types
  import Text
  import Ctx = AppContext

  /** The page's own state (the input box) next to the application state. */
  datatype Chat = Chat(input: string, app: Ctx.AppState)

  /** The send button is enabled exactly when the input is not blank. */
  function SendEnabled(input: string): (b: bool)
    ensures b <==> !Text.Blank(input)
  {
    Text.Trim(input) != ""
  }

  /** `handleSendMessage`: a blank input changes nothing; otherwise the
      trimmed text is appended as the user's message under `id` and the
      input is cleared. */
  function HandleSendMessage(c: Chat, id: string): (r: Chat)
    ensures Text.Blank(c.input) ==> r == c
    ensures !Text.Blank(c.input) ==>
              && r.input == ""
              && r.app == Ctx.SendMessage(c.app, Text.Trim(c.input), id)
  {
    if Text.Trim(c.input) != "" then Chat("", Ctx.SendMessage(c.app, Text.Trim(c.input), id))
    else c
  }

  /** Every message the page sends is non-empty, starts and ends with a
      visible character, and is the input's trimmed core. */
  lemma SentTextIsTrimmed(c: Chat, id: string)
    requires !Text.Blank(c.input)
    ensures var m := HandleSendMessage(c, id).app.chatMessages;
            && |m| == |c.app.chatMessages| + 1
            && m[|m| - 1].sender == User && m[|m| - 1].id == id
            && var t := m[|m| - 1].text;
               t != "" && !Text.IsWhitespace(t[0]) && !Text.IsWhitespace(t[|t| - 1])
               && Text.Trim(t) == t
  {
    Text.TrimIdempotent(c.input);
  }

  datatype Key = Enter | OtherKey

  /** `handleKeyDown`: Enter without Shift sends; anything else leaves the
      page to the text box. */
  function HandleKeyDown(c: Chat, key: Key, shift: bool, id: string): (r: Chat)
    ensures key == Enter && !shift ==> r == HandleSendMessage(c, id)
    ensures key != Enter || shift ==> r == c
  {
    if key == Enter && !shift then HandleSendMessage(c, id) else c
  }

  /** Pressing Enter and clicking the enabled button are the same action;
      when the button is disabled, Enter does nothing either. */
  lemma EnterMatchesButton(c: Chat, id: string)
    ensures SendEnabled(c.input) ==> HandleKeyDown(c, Enter, false, id) == HandleSendMessage(c, id)
    ensures !SendEnabled(c.input) ==> HandleKeyDown(c, Enter, false, id) == c
  {
  }
}
