/** The message-event entry of app/message_handlers.go: a type switch on the message and a
    switch on the menu state a text decodes to, each delegating to a handler. Nothing here
    writes the session itself. */
module MessageHandlers {
  import opened Wrappers
  import T = Types
  import S = Sessions
  import U = Users
  import LB = LineBot
  import A = AppState
  import E = ErrorHandlers
  import PH = PostbackHandlers
  import RM = RichMenuHandlers

  /** Where a message goes. */
  datatype MessageRoute = Upload | Ignore | Menu(state: T.UserState) | StateMachine

  /** handleMessageEvent, handleNonTextMessage and handleTextMessage as a decision: a video
      is uploaded whatever the session state, other non-text messages are dropped, a menu
      label goes to the rich-menu dispatch and any other text to the state machine. */
  function RouteMessage(menuStates: map<string, T.UserState>, m: A.Message): (r: MessageRoute)
    ensures r == Upload <==> m.VideoMessage?
    ensures r == Ignore <==> m.OtherMessage?
    ensures r.Menu? <==> m.TextMessage? && m.text in menuStates
    ensures r.Menu? ==> r.state == menuStates[m.text]
    ensures r == StateMachine <==> m.TextMessage? && m.text !in menuStates
  {
    match m
    case TextMessage(text) => if text in menuStates then Menu(menuStates[text]) else StateMachine
    case VideoMessage(_) => Upload
    case OtherMessage => Ignore
  }

  /** What handleRichMenuMessage does, from the world `w0` it starts in to the world `w1` it leaves: it writes no user and no object. */
  ghost predicate RichMenuEffect(app: A.App, w0: A.World, w1: A.World, incoming: T.UserState, user: U.UserData, userState: T.UserState,
                          token: string)
  {
    (incoming == T.ReadingInstruction ==>
      w1.sessions == A.Reset(w0.sessions, app.sessions.unavailable, user.id)) &&
    (RM.IsFeatureEntry(incoming) ==>
      w1.sessions == A.Put(w0.sessions, app.sessions.unavailable, user.id, RM.MenuSession(incoming)) &&
      w1.trace == w0.trace +
        RM.PromptReplies(app.bot.rejected, LB.Reply(token, LB.SkillPrompt(userState, RM.MenuPrompt(incoming))), token)) &&
    (incoming != T.ReadingInstruction && !RM.IsFeatureEntry(incoming) ==>
      w1.sessions == w0.sessions &&
      w1.trace == w0.trace + [LB.Reply(token, LB.Text(LB.DefaultText))]) &&
    w1.users == w0.users && w1.objects == w0.objects
  }

  /** handleRichMenuMessage: the instruction entry, the five feature entries, and the default
      "請點選選單的項目" reply for any other decoded state, which touches no session. */
  method HandleRichMenuMessage(app: A.App, incoming: T.UserState, user: U.UserData, userState: T.UserState,
                               token: string)
    modifies app.sessions, app.bot
    ensures RichMenuEffect(app, old(A.WorldOf(app)), A.WorldOf(app), incoming, user, userState, token)
  {
    if incoming == T.ReadingInstruction {
      RM.ProcessReadingInstruction(app, user, token);
    } else if RM.IsFeatureEntry(incoming) {
      RM.ProcessMenuEntry(app, user, userState, token, incoming);
    } else {
      var _ := app.bot.SendDefaultReply(token);
    }
  }

  /** What handleMessageEvent does, from the world `w0` it starts in to the world `w1` it
      leaves: a dropped message changes nothing; otherwise the upload handler, the rich-menu
      dispatch or the state machine has its effect. A missing user or session record panics
      where it is first used: the upload reads the user's ID to fetch the content and the
      session's skill to analyse it, so without a session only missing content is answered
      (with one default error); the menu dispatch reads the session's state, and without the
      user only a label that is no menu entry gets its default reply; the state machine is
      MissingRecordEffect. */
  ghost predicate MessageEffect(app: A.App, w0: A.World, w1: A.World, ev: A.Event, user: Option<U.UserData>,
                          session: Option<S.UserSession>, panicked: bool)
  {
    ev.kind.MessageEvent? &&
    var route := RouteMessage(app.menuStates, ev.kind.message);
    if route == Ignore then !panicked && w1 == w0
    else if user.None? || session.None? then
      match route
      case Upload =>
        if user.Some? && ev.kind.message.id !in app.bot.videoContents then
          !panicked && w1 == w0.(trace := w0.trace + [A.DefaultErrorReply(ev.replyToken)])
        else panicked && w1 == w0
      case Menu(state) =>
        if session.Some? && state != T.ReadingInstruction && !RM.IsFeatureEntry(state) then
          !panicked && w1 == w0.(trace := w0.trace + [LB.Reply(ev.replyToken, LB.Text(LB.DefaultText))])
        else panicked && w1 == w0
      case StateMachine => PH.MissingRecordEffect(app, w0, w1, ev, user, session, ev.replyToken, panicked)
    else match route
      case Upload =>
        PH.UploadEffect(app, w0, w1, ev, session.value, user.value, ev.replyToken, panicked, false) ||
        PH.UploadEffect(app, w0, w1, ev, session.value, user.value, ev.replyToken, panicked, true)
      case Menu(state) =>
        !panicked && RichMenuEffect(app, w0, w1, state, user.value, session.value.userState, ev.replyToken)
      case StateMachine =>
        PH.UserStateEffect(app, w0, w1, ev, user.value, session.value, ev.replyToken, panicked,
                           PH.Classify(A.Json(app, A.PostbackData(ev))))
  }

  /** handleMessageEvent. */
  method HandleMessageEvent(app: A.App, ev: A.Event, user: Option<U.UserData>, session: Option<S.UserSession>)
    returns (panicked: bool)
    requires ev.kind.MessageEvent?
    modifies app.sessions, app.users, app.bot, app.storage
    ensures MessageEffect(app, old(A.WorldOf(app)), A.WorldOf(app), ev, user, session, panicked)
  {
    var route := RouteMessage(app.menuStates, ev.kind.message);
    if route == Ignore {
      return false;
    }
    if user.None? || session.None? {
      if route == Upload {
        if user.None? {
          return true;
        }
        var content := app.bot.GetVideoContent(ev.kind.message.id);
        if content.Err? {
          E.HandleLineError(app, true, ev.replyToken);
          return false;
        }
        return true;
      } else if route.Menu? {
        if session.None? || route.state == T.ReadingInstruction || RM.IsFeatureEntry(route.state) {
          return true;
        }
        var _ := app.bot.SendDefaultReply(ev.replyToken);
        return false;
      }
      panicked := PH.HandleUserStateWithMissingRecord(app, ev, user, session, ev.replyToken);
      return;
    }
    if route == Upload {
      var uploaded;
      panicked, uploaded := PH.HandleUploadingVideo(app, ev, session.value, user.value, ev.replyToken);
    } else if route.Menu? {
      HandleRichMenuMessage(app, route.state, user.value, session.value.userState, ev.replyToken);
      panicked := false;
    } else {
      var stateRoute;
      panicked, stateRoute := PH.HandleUserState(app, ev, user.value, session.value, ev.replyToken);
    }
  }
}
