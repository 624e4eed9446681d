/**
 * The assistant conversation view: the input box, the "typing" indicator
 * while a reply is awaited, and the two messages one send records. The
 * assistant's reply is a parameter (the assistant bridge always produces some
 * text), and so are the clock-derived ids and timestamps of the messages.
 */
module Chat {
  import opened Types
  import opened Text
  import Provider

  datatype ChatUi = ChatUi(input: string, isTyping: bool)

  datatype ChatStep = ChatStep(ui: ChatUi, app: Provider.State)

  /** Whether `trim` leaves nothing. */
  function IsBlankText(s: string): (b: bool)
    ensures b <==> IsBlank(s)
  {
    TrimEmptyIffBlank(s);
    Trim(s) == []
  }

  /** The send button is enabled when the input is not blank and no reply is pending. */
  function SendEnabled(ui: ChatUi): (enabled: bool)
    ensures enabled <==> !IsBlank(ui.input) && !ui.isTyping
  {
    !IsBlankText(ui.input) && !ui.isTyping
  }

  /**
   * The part of `handleSend` before the reply arrives. A blank input changes
   * nothing; otherwise the input clears, the user's message is recorded with
   * its text exactly as typed, and the typing indicator goes on.
   */
  function SendStart(ui: ChatUi, app: Provider.State, id: string, timestamp: int): (r: ChatStep)
    ensures IsBlank(ui.input) ==> r == ChatStep(ui, app)
    ensures !IsBlank(ui.input) ==>
      && r.ui == ChatUi("", true)
      && r.app.chatHistory == app.chatHistory + [ChatMessage(id, ui.input, User, timestamp)]
      && r.app.(chatHistory := app.chatHistory) == app
  {
    if IsBlankText(ui.input) then ChatStep(ui, app)
    else ChatStep(ChatUi("", true), Provider.AddToChat(app, ui.input, User, id, timestamp))
  }

  /** The part of `handleSend` after the reply arrives: the indicator goes off and the reply is recorded. */
  function SendFinish(ui: ChatUi, app: Provider.State, reply: string, id: string, timestamp: int): (r: ChatStep)
    ensures !r.ui.isTyping && r.ui.input == ui.input
    ensures r.app.chatHistory == app.chatHistory + [ChatMessage(id, reply, Ai, timestamp)]
    ensures r.app.(chatHistory := app.chatHistory) == app
  {
    ChatStep(ui.(isTyping := false), Provider.AddToChat(app, reply, Ai, id, timestamp))
  }

  /** A whole send: a blank input does nothing; otherwise the user's message and then the reply are appended. */
  function HandleSend(ui: ChatUi, app: Provider.State, reply: string,
                      userId: string, userTime: int, aiId: string, aiTime: int): (r: ChatStep)
  {
    if IsBlankText(ui.input) then ChatStep(ui, app)
    else
      var sent := SendStart(ui, app, userId, userTime);
      SendFinish(sent.ui, sent.app, reply, aiId, aiTime)
  }

  /**
   * A completed send of a non-blank input leaves the input empty, the
   * indicator off, and the history extended by exactly the user's message,
   * verbatim, followed by the reply.
   */
  lemma HandleSendRecordsExchange(ui: ChatUi, app: Provider.State, reply: string,
                                  userId: string, userTime: int, aiId: string, aiTime: int)
    requires !IsBlank(ui.input)
    ensures var r := HandleSend(ui, app, reply, userId, userTime, aiId, aiTime);
      && r.ui == ChatUi("", false)
      && r.app.chatHistory == app.chatHistory
           + [ChatMessage(userId, ui.input, User, userTime), ChatMessage(aiId, reply, Ai, aiTime)]
      && r.app.(chatHistory := app.chatHistory) == app
  {
    var sent := SendStart(ui, app, userId, userTime);
    assert sent.ui.isTyping;
  }

  /** A blank input sends nothing: input, history and indicator stay as they were. */
  lemma BlankSendIsNoOp(ui: ChatUi, app: Provider.State, reply: string,
                        userId: string, userTime: int, aiId: string, aiTime: int)
    requires IsBlank(ui.input)
    ensures HandleSend(ui, app, reply, userId, userTime, aiId, aiTime) == ChatStep(ui, app)
  {
  }

  /** A click on the send button, which does nothing while the button is disabled. */
  function ClickSend(ui: ChatUi, app: Provider.State, id: string, timestamp: int): (r: ChatStep)
    ensures ui.isTyping ==> r == ChatStep(ui, app)
    ensures !ui.isTyping ==> r == SendStart(ui, app, id, timestamp)
  {
    if SendEnabled(ui) then SendStart(ui, app, id, timestamp) else ChatStep(ui, app)
  }

  /**
   * The Enter key calls the send step without looking at the indicator: while
   * a reply is pending the button does nothing, yet Enter still records a
   * new user message.
   */
  lemma EnterBypassesTypingGuard(ui: ChatUi, app: Provider.State, id: string, timestamp: int)
    requires ui.isTyping && !IsBlank(ui.input)
    ensures ClickSend(ui, app, id, timestamp) == ChatStep(ui, app)
    ensures SendStart(ui, app, id, timestamp).app.chatHistory ==
      app.chatHistory + [ChatMessage(id, ui.input, User, timestamp)]
  {
  }
}
