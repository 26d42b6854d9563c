/** The rich-menu entries of app/richmenu_handlers.go. Each entry resets the session first;
    the five feature entries then set the chosen state at its SelectingSkill step and prompt
    for a skill. */
module RichMenuHandlers {
  import opened Wrappers
  import T = Types
  import S = Sessions
  import U = Users
  import LB = LineBot
  import A = AppState
  import E = ErrorHandlers

  /** The five states a feature entry of the menu starts. */
  predicate IsFeatureEntry(state: T.UserState) {
    state == T.ViewingPortfolio || state == T.ViewingExpertVideos || state == T.AnalyzingVideo ||
    state == T.WritingNotes || state == T.ChattingWithGPT
  }

  /** The skill prompt each feature entry sends. */
  function MenuPrompt(state: T.UserState): string
    requires IsFeatureEntry(state)
  {
    if state == T.ViewingPortfolio then "請選擇要查看的動作"
    else if state == T.ViewingExpertVideos then "請選擇要觀看的動作"
    else if state == T.AnalyzingVideo then "請選擇要分析的動作"
    else if state == T.WritingNotes then "請選擇要記錄的動作"
    else "請選擇要對談的動作"
  }

  /** The session a feature entry leaves: the reset default with the state and step set. */
  function MenuSession(state: T.UserState): (s: S.UserSession)
    ensures s.userState == state && s.actionStep == T.SelectingSkill
    ensures s.skill == "" && s.handedness == "" && s.updatedDate == ""
  {
    S.DefaultSession.(userState := state, actionStep := T.SelectingSkill)
  }

  /** The replies a prompt leaves: the prompt, then a default error when LINE refuses it. */
  function PromptReplies(rejected: set<LB.Reply>, prompt: LB.Reply, token: string): seq<LB.Reply> {
    [prompt] + if prompt in rejected then [A.DefaultErrorReply(token)] else []
  }

  /** processReadingInstruction: reset, then the instructions. */
  method ProcessReadingInstruction(app: A.App, user: U.UserData, token: string)
    modifies app.sessions, app.bot
    ensures app.sessions.docs == A.Reset(old(app.sessions.docs), app.sessions.unavailable, user.id)
    ensures app.bot.trace ==
      old(app.bot.trace) + PromptReplies(app.bot.rejected, LB.Reply(token, LB.Text(LB.InstructionText)), token)
  {
    var _ := app.sessions.ResetSession(user.id);
    var failed := app.bot.SendInstruction(token);
    E.HandleLineError(app, failed, token);
  }

  /** processViewingPortfolio, processViewingExpertVideos, processAnalyzingVideo,
      processWritingNotes and processChattingWithGPT, which differ only in the state and the
      prompt: reset, set (state, SelectingSkill), then prompt with the state the user was in.
      The state write's error is overwritten by the prompt's, so only a refused prompt is
      answered with the default error. */
  method ProcessMenuEntry(app: A.App, user: U.UserData, userState: T.UserState, token: string, state: T.UserState)
    requires IsFeatureEntry(state)
    modifies app.sessions, app.bot
    ensures app.sessions.docs == A.Put(old(app.sessions.docs), app.sessions.unavailable, user.id, MenuSession(state))
    ensures app.bot.trace ==
      old(app.bot.trace) + PromptReplies(app.bot.rejected, LB.Reply(token, LB.SkillPrompt(userState, MenuPrompt(state))), token)
  {
    var _ := app.sessions.ResetSession(user.id);
    var err := app.sessions.UpdateSessionUserState(user.id, state, T.SelectingSkill);
    var failed := app.bot.PromptSkillSelection(token, userState, MenuPrompt(state));
    E.HandleLineError(app, failed, token);
  }
}
