/** The postback side of the session state machine (linebot/app/postback_handlers.go).

    The session is the in-memory record handleEvents fetched for this event: the handlers copy
    it, change fields of the copy and write the copy to the store at the points the code does.
    The user record is threaded the same way. */
module PostbackHandlers {
  import opened Wrappers
  import T = Types
  import C = Commons
  import P = Postback
  import S = Sessions
  import U = Users
  import St = Storage
  import LB = LineBot
  import A = AppState
  import E = ErrorHandlers
  import UU = UserUtils
  import V = VideoUtils
  import UI = UI

  const StopChattingText := "已結束對話"
  const ChattingModeText := "已進入和GPT對話模式"
  const SelectPortfolioText := "請選擇您要更新的學習歷程："
  const PortfolioText := "以下為您的學習歷程："
  const UploadedText := "影片已成功上傳！"
  const NoAdviceText := "無法取得建議，請再試一次"
  const AINoteFailedText := "無法更新AI筆記，請再試一次"
  const NoDetailsText := "無法取得動作資料，請再試一次"

  /** isMenuSwitchEvent. */
  predicate IsMenuSwitchEvent(data: string) {
    data == "switch-to-main" || data == "switch-to-secondary"
  }

  /** The Handle*PostbackData wrappers: the raw text decoded as one payload kind. */
  method DecodePostback(app: A.App, k: P.Kind, raw: string) returns (r: Result<P.Payload, P.DecodeError>)
    ensures r == P.Decode(k, A.Json(app, raw))
    ensures r.Ok? ==> P.KindOf(r.value, k)
  {
    r := P.HandlePostbackData(k, A.Json(app, raw));
    P.DecodeAcceptsExactly(k, A.Json(app, raw));
  }

  /** Where handleUserState sends a postback: the first of stop, note-edit, play-video and
      ask-AI whose payload decodes, or else the session state. */
  datatype Route = StopChat | EditNote(note: P.Payload) | WatchVideo(video: P.Payload)
                 | AskAI(request: P.Payload) | ByState

  function Classify(doc: P.JsonDoc): (r: Route)
    ensures r == StopChat <==> P.Decode(P.StopGPT, doc).Ok?
    ensures r.EditNote? <==> P.Decode(P.WritingNote, doc).Ok?
    ensures r.WatchVideo? <==> P.Decode(P.Video, doc).Ok?
    ensures r.AskAI? <==> P.Decode(P.AnalyzingWithGPT, doc).Ok?
    ensures r.EditNote? ==> r.note == P.Decode(P.WritingNote, doc).value && r.note.WritingNotePostback?
    ensures r.WatchVideo? ==> r.video == P.Decode(P.Video, doc).value && r.video.VideoPostback?
    ensures r.AskAI? ==> r.request == P.Decode(P.AnalyzingWithGPT, doc).value && r.request.AnalyzingWithGPTPostback?
  {
    var stop := P.Decode(P.StopGPT, doc);
    var note := P.Decode(P.WritingNote, doc);
    var video := P.Decode(P.Video, doc);
    var ask := P.Decode(P.AnalyzingWithGPT, doc);
    ClassifyExclusive(doc);
    if stop.Ok? && (P.StopPayloadIsTrue(doc); stop.value.stop) then StopChat
    else if note.Ok? then EditNote(note.value)
    else if video.Ok? then WatchVideo(video.value)
    else if ask.Ok? then AskAI(ask.value)
    else ByState
  }

  /** At most one of the four intercepted kinds decodes, so the order of the tests only fixes
      which handler runs, never hides a payload; each decoded payload has its own shape. */
  lemma ClassifyExclusive(doc: P.JsonDoc)
    ensures P.Decode(P.StopGPT, doc).Ok? ==>
              P.Decode(P.WritingNote, doc).Err? && P.Decode(P.Video, doc).Err? && P.Decode(P.AnalyzingWithGPT, doc).Err?
    ensures P.Decode(P.WritingNote, doc).Ok? ==> P.Decode(P.Video, doc).Err? && P.Decode(P.AnalyzingWithGPT, doc).Err?
    ensures P.Decode(P.Video, doc).Ok? ==> P.Decode(P.AnalyzingWithGPT, doc).Err?
    ensures forall k :: P.Decode(k, doc).Ok? ==> P.KindOf(P.Decode(k, doc).value, k)
  {
    forall k1, k2 | k1 != k2 && P.Decode(k1, doc).Ok?
      ensures P.Decode(k2, doc).Err?
    {
      if P.Decode(k2, doc).Ok? {
        P.AtMostOneKind(doc, k1, k2);
      }
    }
    forall k | P.Decode(k, doc).Ok?
      ensures P.KindOf(P.Decode(k, doc).value, k)
    {
      P.DecodeAcceptsExactly(k, doc);
    }
  }

  /** handleInvalidActionStep: reset, then one default error reply. */
  method HandleInvalidActionStep(app: A.App, userId: string, token: string)
    modifies app.sessions, app.bot
    ensures app.sessions.docs == A.Reset(old(app.sessions.docs), app.sessions.unavailable, userId)
    ensures app.bot.trace == old(app.bot.trace) + [A.DefaultErrorReply(token)]
  {
    var _ := app.sessions.ResetSession(userId);
    var _ := app.bot.SendDefaultErrorReply(token);
  }

  /** handleInvalidActionStep as a change of the world `w0` into `w1`. */
  ghost predicate InvalidStepEffect(app: A.App, w0: A.World, w1: A.World, userId: string, token: string) {
    w1 == w0.(sessions := A.Reset(w0.sessions, app.sessions.unavailable, userId),
              trace := w0.trace + [A.DefaultErrorReply(token)])
  }

  /** handleSendPortfolioError's answer to the NoPortfolioError of a known skill. */
  function NoPortfolioReply(token: string, skill: string): LB.Reply
    requires skill in T.SkillLabels
  {
    LB.Reply(token, LB.Text(LB.NoPortfolioText(T.SkillChnString(T.SkillStrToEnum(skill)).value)))
  }

  /** The replies SendPortfolio and then handleSendPortfolioError add to `t0` for a known skill
      whose works are `works`: the no-portfolio text when there are none, otherwise the
      carousel reply, a refused one followed by two default errors (SendPortfolio's own and
      the handler's). */
  ghost predicate PortfolioAnswered(app: A.App, t0: seq<LB.Reply>, t1: seq<LB.Reply>, works: map<string, U.Work>,
                                    skill: string, handedness: string, text: string, showBtns: bool, token: string)
  {
    skill in T.SkillLabels &&
    if works == map[] then t1 == t0 + [NoPortfolioReply(token, skill)]
    else
      exists cs :: UI.PortfolioCarousels(app.bot.bucketName, works, skill, handedness, showBtns, cs) &&
        var r := LB.Reply(token, LB.PortfolioMessage(text, cs));
        t1 == t0 + [r] + if r in app.bot.rejected then [A.DefaultErrorReply(token), A.DefaultErrorReply(token)] else []
  }

  /** The replies of a SendPortfolio whose error nobody looks at, for works that are there:
      the carousel reply, a refused one followed by SendPortfolio's default error. */
  ghost predicate PortfolioSent(app: A.App, t0: seq<LB.Reply>, t1: seq<LB.Reply>, works: map<string, U.Work>,
                                skill: string, handedness: string, text: string, showBtns: bool, token: string)
  {
    exists cs :: UI.PortfolioCarousels(app.bot.bucketName, works, skill, handedness, showBtns, cs) &&
      var r := LB.Reply(token, LB.PortfolioMessage(text, cs));
      t1 == t0 + [r] + if r in app.bot.rejected then [A.DefaultErrorReply(token)] else []
  }

  /** resetSessionWithErrorHandling: reset; a failed reset is answered with one default error. */
  method ResetSessionWithErrorHandling(app: A.App, userId: string, token: string)
    modifies app.sessions, app.bot
    ensures app.sessions.docs == A.Reset(old(app.sessions.docs), app.sessions.unavailable, userId)
    ensures app.bot.trace ==
      old(app.bot.trace) + if userId in app.sessions.unavailable then [A.DefaultErrorReply(token)] else []
  {
    var err := app.sessions.ResetSession(userId);
    E.HandleLineError(app, err.Some?, token);
  }

  /** generateUpdateNoteMessage; ChnString of an unknown skill is out of bounds (None). */
  function GenerateUpdateNoteMessage(workDate: string, skill: string, step: T.ActionStep): (r: Option<string>)
    ensures r.None? <==> skill !in T.SkillLabels
    ensures r.Some? ==>
      r.value == "請輸入【" + workDate + "】的【" + T.SkillChnString(T.SkillStrToEnum(skill)).value + "】的" +
                 (if step == T.WritingPreviewNote then "課前檢視要點" else "學習反思")
  {
    var chn := T.SkillChnString(T.SkillStrToEnum(skill));
    if chn.None? then None
    else Some("請輸入【" + workDate + "】的【" + chn.value + "】的" +
              (if step == T.WritingPreviewNote then "課前檢視要點" else "學習反思"))
  }

  /** forceStateToWritingNotes as a change of the world `w0` into `w1`: an unknown step
      string resets the session with no reply; otherwise the session moves to WritingNotes at
      that step, date and skill (keeping its handedness) and is written; a failed write is
      answered with one default error, an unknown skill panics on its Chinese name, and
      anything else gets the note prompt. Users and bucket are untouched. */
  ghost predicate ForceNoteEffect(app: A.App, w0: A.World, w1: A.World, user: U.UserData, session: S.UserSession,
                                  note: P.Payload, token: string, panicked: bool)
  {
    note.WritingNotePostback? &&
    if note.actionStep !in app.actionSteps then
      !panicked && w1 == w0.(sessions := A.Reset(w0.sessions, app.sessions.unavailable, user.id))
    else
      var s := session.(actionStep := app.actionSteps[note.actionStep], updatedDate := note.workDate,
                        userState := T.WritingNotes, skill := note.skill);
      var written := w0.(sessions := A.Put(w0.sessions, app.sessions.unavailable, user.id, s));
      if user.id in app.sessions.unavailable then !panicked && w1 == written.(trace := w0.trace + [A.DefaultErrorReply(token)])
      else if note.skill !in T.SkillLabels then panicked && w1 == written
      else
        !panicked &&
        w1 == written.(trace := w0.trace +
                [LB.Reply(token, LB.Text(GenerateUpdateNoteMessage(note.workDate, note.skill, s.actionStep).value))])
  }

  /** forceStateToWritingNotes. */
  method ForceStateToWritingNotes(app: A.App, user: U.UserData, session: S.UserSession, note: P.Payload, token: string)
    returns (panicked: bool)
    requires note.WritingNotePostback?
    modifies app.sessions, app.bot
    ensures ForceNoteEffect(app, old(A.WorldOf(app)), A.WorldOf(app), user, session, note, token, panicked)
  {
    if note.actionStep !in app.actionSteps {
      var _ := app.sessions.ResetSession(user.id);
      return false;
    }
    var step := app.actionSteps[note.actionStep];
    var s := session.(actionStep := step, updatedDate := note.workDate, userState := T.WritingNotes, skill := note.skill);
    var err := app.sessions.UpdateUserSession(user.id, s);
    if err.Some? {
      E.HandleLineError(app, true, token);
      return false;
    }
    var msg := GenerateUpdateNoteMessage(note.workDate, note.skill, step);
    if msg.None? {
      return true;
    }
    panicked := false;
    var _ := app.bot.SendReply(token, msg.value);
  }

  /** handleSelectingPortfolio as a change of the world: the work date and note step of the
      chosen entry are written to the session; an undecodable payload or an unknown step is
      answered with one default error and no write, a failed write with one default error. */
  ghost predicate SelectingPortfolioEffect(app: A.App, w0: A.World, w1: A.World, raw: string, user: U.UserData,
                                           session: S.UserSession, token: string)
  {
    var d := P.Decode(P.WritingNote, A.Json(app, raw));
    if d.Err? || d.value.actionStep !in app.actionSteps then w1 == w0.(trace := w0.trace + [A.DefaultErrorReply(token)])
    else
      var s := session.(actionStep := app.actionSteps[d.value.actionStep], updatedDate := d.value.workDate);
      w1 == w0.(sessions := A.Put(w0.sessions, app.sessions.unavailable, user.id, s),
                trace := w0.trace + if user.id in app.sessions.unavailable then [A.DefaultErrorReply(token)] else [])
  }

  /** handleSelectingPortfolio. */
  method HandleSelectingPortfolio(app: A.App, raw: string, user: U.UserData, session: S.UserSession, token: string)
    modifies app.sessions, app.bot
    ensures SelectingPortfolioEffect(app, old(A.WorldOf(app)), A.WorldOf(app), raw, user, session, token)
  {
    var d := DecodePostback(app, P.WritingNote, raw);
    if d.Err? || d.value.actionStep !in app.actionSteps {
      E.HandleLineError(app, true, token);
      return;
    }
    var s := session.(actionStep := app.actionSteps[d.value.actionStep], updatedDate := d.value.workDate);
    var err := app.sessions.UpdateUserSession(user.id, s);
    E.HandleLineError(app, err.Some?, token);
  }

  /** handleSelectingSkill with the handedness prompt as its next step (the one both callers
      pass), as a change of the world: the skill reaches the store only after the payload
      decodes and the prompt is accepted; either failure is answered with one default error
      and no write, and so is a failed write. */
  ghost predicate SelectingSkillEffect(app: A.App, w0: A.World, w1: A.World, ev: A.Event, session: S.UserSession,
                                       raw: string, token: string)
  {
    var d := P.Decode(P.SelectingSkill, A.Json(app, raw));
    var prompt := LB.Reply(token, LB.HandednessPrompt);
    if d.Err? then w1 == w0.(trace := w0.trace + [A.DefaultErrorReply(token)])
    else if prompt in app.bot.rejected then w1 == w0.(trace := w0.trace + [prompt, A.DefaultErrorReply(token)])
    else
      w1 == w0.(sessions := A.Put(w0.sessions, app.sessions.unavailable, ev.userId, session.(skill := d.value.skill)),
                trace := w0.trace + [prompt] + if ev.userId in app.sessions.unavailable then [A.DefaultErrorReply(token)] else [])
  }

  /** handleSelectingSkill. */
  method HandleSelectingSkill(app: A.App, ev: A.Event, session: S.UserSession, raw: string, token: string)
    modifies app.sessions, app.bot
    ensures SelectingSkillEffect(app, old(A.WorldOf(app)), A.WorldOf(app), ev, session, raw, token)
  {
    var d := DecodePostback(app, P.SelectingSkill, raw);
    if d.Err? {
      E.HandleLineError(app, true, token);
      return;
    }
    var failed := app.bot.PromptHandednessSelection(token);
    if failed {
      E.HandleLineError(app, true, token);
      return;
    }
    var err := app.sessions.UpdateUserSession(ev.userId, session.(skill := d.value.skill));
    E.HandleLineError(app, err.Some?, token);
  }

  /** The replies handleSendingExpertVideos adds to `t0`: the handedness is read from the
      event's own postback (a nil dereference for any other event); an undecodable payload or
      handedness gets one default error, an unknown skill panics on its Chinese name, and
      otherwise the expert clips of that handedness and the session's skill are sent. */
  ghost predicate ClipsEffect(app: A.App, t0: seq<LB.Reply>, t1: seq<LB.Reply>, ev: A.Event, session: S.UserSession,
                              token: string, panicked: bool)
  {
    if !ev.kind.PostbackEvent? then panicked && t1 == t0
    else
      var d := P.Decode(P.SelectingHandedness, A.Json(app, ev.kind.data));
      if d.Err? || T.HandednessStrToEnum(d.value.handedness).Err? then !panicked && t1 == t0 + [A.DefaultErrorReply(token)]
      else if session.skill !in T.SkillLabels then panicked && t1 == t0
      else
        var hand := T.HandednessStrToEnum(d.value.handedness).value;
        var skill := T.SkillStrToEnum(session.skill);
        T.HandednessChnString(hand).Some? && T.SkillChnString(skill).Some? &&
        var r := app.bot.ExpertVideosReply(hand, skill, token);
        !panicked && t1 == t0 + [r] + if r in app.bot.rejected then [A.DefaultErrorReply(token)] else []
  }

  /** handleSendingExpertVideos. */
  method HandleSendingExpertVideos(app: A.App, ev: A.Event, session: S.UserSession, token: string)
    returns (panicked: bool)
    modifies app.bot
    ensures ClipsEffect(app, old(app.bot.trace), app.bot.trace, ev, session, token, panicked)
  {
    if !ev.kind.PostbackEvent? {
      return true;
    }
    var d := DecodePostback(app, P.SelectingHandedness, ev.kind.data);
    if d.Err? {
      E.HandleLineError(app, true, token);
      return false;
    }
    var hand := T.HandednessStrToEnum(d.value.handedness);
    if hand.Err? {
      E.HandleLineError(app, true, token);
      return false;
    }
    var skill := T.SkillStrToEnum(session.skill);
    T.HandednessRoundTrip(hand.value);
    if skill == -1 {
      T.UnknownSkillHasNoLabel(session.skill);
    } else {
      T.SkillRoundTrip(skill);
    }
    var failed;
    panicked, failed := app.bot.SendExpertVideos(hand.value, skill, token);
    if panicked {
      return;
    }
    E.HandleLineError(app, failed, token);
  }

  /** The action steps each routed state handles; any other step, and every state outside the
      five, goes to handleInvalidActionStep. ViewingPortfolio does not look at the step. */
  predicate Accepts(state: T.UserState, step: T.ActionStep) {
    if state == T.WritingNotes then
      step == T.SelectingSkill || step == T.SelectingPortfolio || step == T.WritingPreviewNote ||
      step == T.WritingReflection
    else if state == T.ChattingWithGPT then step == T.SelectingSkill || step == T.Chatting
    else if state == T.ViewingExpertVideos then step == T.SelectingSkill || step == T.SelectingHandedness
    else if state == T.ViewingPortfolio then true
    else if state == T.AnalyzingVideo then
      step == T.SelectingSkill || step == T.SelectingHandedness || step == T.UploadingVideo
    else false
  }

  /** handleUpdatingNote: the message text becomes the preview note or the reflection of the
      work at the session's date, through the handle of the session's skill (a nil-map write
      for an unknown skill), and the portfolio is shown again. Non-text input only resets. */
  method HandleUpdatingNote(app: A.App, ev: A.Event, user: U.UserData, session: S.UserSession)
    returns (panicked: bool)
    modifies app.sessions, app.users, app.bot
    ensures session.actionStep != T.WritingPreviewNote && session.actionStep != T.WritingReflection ==>
      !panicked && app.users.docs == old(app.users.docs) &&
      app.sessions.docs == A.Reset(old(app.sessions.docs), app.sessions.unavailable, user.id) &&
      app.bot.trace == old(app.bot.trace) + [A.DefaultErrorReply(ev.replyToken)]
    ensures (session.actionStep == T.WritingPreviewNote || session.actionStep == T.WritingReflection) &&
            A.TextOf(ev).None? ==>
      !panicked && app.users.docs == old(app.users.docs) && app.bot.trace == old(app.bot.trace) &&
      app.sessions.docs == A.Reset(old(app.sessions.docs), app.sessions.unavailable, user.id)
    ensures (session.actionStep == T.WritingPreviewNote || session.actionStep == T.WritingReflection) &&
            A.TextOf(ev).Some? ==>
      app.sessions.docs == old(app.sessions.docs) &&
      (panicked <==> session.skill !in T.SkillLabels) &&
      (panicked ==> app.users.docs == old(app.users.docs) && app.bot.trace == old(app.bot.trace)) &&
      (!panicked ==>
        var ref := U.RefOf(session.skill);
        var work := U.Lookup(U.Read(user.portfolio, ref), session.updatedDate);
        var text := A.TextOf(ev).value;
        var user' := U.Store(user, ref, session.updatedDate,
                             if session.actionStep == T.WritingPreviewNote then work.(previewNote := text)
                             else work.(reflection := text));
        (app.users.docs == if user.id in app.users.unavailable then old(app.users.docs)
                           else old(app.users.docs)[user.id := user']) &&
        PortfolioSent(app, old(app.bot.trace), app.bot.trace, U.Read(user'.portfolio, ref), session.skill,
                      session.handedness, PortfolioText, false, ev.replyToken))
  {
    if session.actionStep != T.WritingPreviewNote && session.actionStep != T.WritingReflection {
      HandleInvalidActionStep(app, user.id, ev.replyToken);
      return false;
    }
    var note := A.TextOf(ev);
    if note.None? {
      var _ := app.sessions.ResetSession(user.id);
      return false;
    }
    var ref := U.RefOf(session.skill);
    var user', err;
    if session.actionStep == T.WritingPreviewNote {
      panicked, user', err := app.users.UpdateUserPortfolioPreviewNote(user, ref, session.updatedDate, note.value);
    } else {
      panicked, user', err := app.users.UpdateUserPortfolioReflection(user, ref, session.updatedDate, note.value);
    }
    if panicked {
      return;
    }
    T.SkillRoundTrip(T.SkillStrToEnum(session.skill));
    ghost var carousels;
    var shown, shownErr;
    shown, shownErr, carousels := app.bot.SendPortfolio(ev.replyToken, user', T.SkillStrToEnum(session.skill),
                                             session.handedness, PortfolioText, false);
    assert UI.PortfolioCarousels(app.bot.bucketName, U.Read(user'.portfolio, ref), session.skill,
                                 session.handedness, false, carousels);
  }

  /** handleWritingNotes as a change of the world `w0` into `w1`. The skill step writes
      SelectingPortfolio with the chosen skill and shows that skill's portfolio with buttons;
      the portfolio step is handleSelectingPortfolio; a note step stores the text as the
      work's note (through the message's own reply token), shows the portfolio again and
      resets, a non-text message only resetting. */
  ghost predicate WritingNotesEffect(app: A.App, w0: A.World, w1: A.World, ev: A.Event, raw: string, user: U.UserData,
                                     session: S.UserSession, token: string, panicked: bool)
  {
    if !Accepts(session.userState, session.actionStep) then !panicked && InvalidStepEffect(app, w0, w1, user.id, token)
    else if session.actionStep == T.SelectingSkill then
      var d := P.Decode(P.SelectingSkill, A.Json(app, raw));
      if d.Err? then !panicked && w1 == w0.(trace := w0.trace + [A.DefaultErrorReply(token)])
      else
        var written := w0.(sessions := A.Put(w0.sessions, app.sessions.unavailable, user.id,
                                             session.(actionStep := T.SelectingPortfolio, skill := d.value.skill)));
        if user.id in app.sessions.unavailable then !panicked && w1 == written.(trace := w0.trace + [A.DefaultErrorReply(token)])
        else if d.value.skill !in T.SkillLabels then panicked && w1 == written
        else
          !panicked && w1 == written.(trace := w1.trace) &&
          PortfolioAnswered(app, w0.trace, w1.trace, U.Read(user.portfolio, U.RefOf(d.value.skill)), d.value.skill,
                            session.handedness, SelectPortfolioText, true, token)
    else if session.actionStep == T.SelectingPortfolio then
      !panicked && SelectingPortfolioEffect(app, w0, w1, raw, user, session, token)
    else
      var text := A.TextOf(ev);
      var reset := A.Reset(w0.sessions, app.sessions.unavailable, user.id);
      if text.None? then !panicked && w1 == w0.(sessions := reset)
      else if session.skill !in T.SkillLabels then panicked && w1 == w0
      else
        var ref := U.RefOf(session.skill);
        var work := U.Lookup(U.Read(user.portfolio, ref), session.updatedDate);
        var user' := U.Store(user, ref, session.updatedDate,
                             if session.actionStep == T.WritingPreviewNote then work.(previewNote := text.value)
                             else work.(reflection := text.value));
        !panicked &&
        w1 == w0.(sessions := reset, trace := w1.trace,
                  users := if user.id in app.users.unavailable then w0.users else w0.users[user.id := user']) &&
        PortfolioSent(app, w0.trace, w1.trace, U.Read(user'.portfolio, ref), session.skill, session.handedness,
                      PortfolioText, false, ev.replyToken)
  }

  /** handleWritingNotes. */
  method HandleWritingNotes(app: A.App, ev: A.Event, raw: string, user: U.UserData, session: S.UserSession,
                            token: string)
    returns (panicked: bool)
    requires session.userState == T.WritingNotes
    modifies app.sessions, app.users, app.bot
    ensures WritingNotesEffect(app, old(A.WorldOf(app)), A.WorldOf(app), ev, raw, user, session, token, panicked)
  {
    if session.actionStep == T.SelectingSkill {
      var s := session.(actionStep := T.SelectingPortfolio);
      var d := DecodePostback(app, P.SelectingSkill, raw);
      if d.Err? {
        E.HandleLineError(app, true, token);
        return false;
      }
      s := s.(skill := d.value.skill);
      var err := app.sessions.UpdateUserSession(user.id, s);
      if err.Some? {
        E.HandleLineError(app, true, token);
        return false;
      }
      var skill := T.SkillStrToEnum(d.value.skill);
      if skill == -1 {
        T.UnknownSkillHasNoLabel(d.value.skill);
      }
      var sent;
      ghost var carousels;
      panicked, sent, carousels := app.bot.SendPortfolio(token, user, skill, s.handedness, SelectPortfolioText, true);
      if panicked {
        return;
      }
      panicked := E.HandleSendPortfolioError(app, sent, token);
    } else if session.actionStep == T.SelectingPortfolio {
      HandleSelectingPortfolio(app, raw, user, session, token);
      panicked := false;
    } else if session.actionStep == T.WritingPreviewNote || session.actionStep == T.WritingReflection {
      panicked := HandleUpdatingNote(app, ev, user, session);
      if panicked {
        return;
      }
      var _ := app.sessions.ResetSession(user.id);
      A.ResetIdempotent(old(app.sessions.docs), app.sessions.unavailable, user.id);
    } else {
      HandleInvalidActionStep(app, user.id, token);
      panicked := false;
    }
  }

  /** The text handed to GPT: the message text, or "" when the event carries none. */
  function ChatText(ev: A.Event): (msg: string)
    ensures A.TextOf(ev).Some? ==> msg == A.TextOf(ev).value
    ensures A.TextOf(ev).None? ==> msg == ""
  {
    if A.TextOf(ev).Some? then A.TextOf(ev).value else ""
  }

  /** handleChattingWithGPT as a change of the world: choosing a skill enters chat mode (the
      session write's error is ignored and the confirmation is sent regardless); in chat mode
      each text goes to the skill's GPT conversation and the answer is sent back, a GPT
      failure being answered with one default error. Users and bucket are untouched. */
  ghost predicate ChattingEffect(app: A.App, w0: A.World, w1: A.World, ev: A.Event, raw: string, user: U.UserData,
                                 session: S.UserSession, token: string)
  {
    if !Accepts(session.userState, session.actionStep) then InvalidStepEffect(app, w0, w1, user.id, token)
    else if session.actionStep == T.SelectingSkill then
      var d := P.Decode(P.SelectingSkill, A.Json(app, raw));
      if d.Err? then w1 == w0.(trace := w0.trace + [A.DefaultErrorReply(token)])
      else
        w1 == w0.(sessions := A.Put(w0.sessions, app.sessions.unavailable, user.id,
                                    session.(actionStep := T.Chatting, skill := d.value.skill)),
                  trace := w0.trace + [LB.Reply(token, LB.GPTChat(ChattingModeText))])
    else
      var answer := app.gpt(UU.GetUserGPTConversation(user, session.skill), ChatText(ev));
      w1 == w0.(trace := w0.trace + [if answer.None? then A.DefaultErrorReply(token) else LB.Reply(token, LB.GPTChat(answer.value))])
  }

  /** handleChattingWithGPT. */
  method HandleChattingWithGPT(app: A.App, ev: A.Event, raw: string, user: U.UserData, session: S.UserSession,
                               token: string)
    requires session.userState == T.ChattingWithGPT
    modifies app.sessions, app.bot
    ensures ChattingEffect(app, old(A.WorldOf(app)), A.WorldOf(app), ev, raw, user, session, token)
  {
    if session.actionStep == T.SelectingSkill {
      var s := session.(actionStep := T.Chatting);
      var d := DecodePostback(app, P.SelectingSkill, raw);
      if d.Err? {
        E.HandleLineError(app, true, token);
        return;
      }
      s := s.(skill := d.value.skill);
      var _ := app.sessions.UpdateUserSession(user.id, s);
      var _ := app.bot.SendGPTChattingModeReply(token, ChattingModeText);
    } else if session.actionStep == T.Chatting {
      var msg := ChatText(ev);
      var conversationId := UU.GetUserGPTConversation(user, session.skill);
      var answer := app.gpt(conversationId, msg);
      if answer.None? {
        E.HandleLineError(app, true, token);
        return;
      }
      var _ := app.bot.SendGPTChattingModeReply(token, answer.value);
    } else {
      HandleInvalidActionStep(app, user.id, token);
    }
  }

  /** handleViewingExpertVideos as a change of the world: a skill choice is handleSelectingSkill
      towards the handedness step; the handedness choice sends the clips of that handedness
      and the session's skill, and then resets whether or not the clips went out (a reset
      that fails adding one default error). Reading the handedness of anything but a postback
      panics, and so does an unknown skill. */
  ghost predicate ExpertVideosEffect(app: A.App, w0: A.World, w1: A.World, ev: A.Event, raw: string, user: U.UserData,
                                     session: S.UserSession, token: string, panicked: bool)
  {
    if !Accepts(session.userState, session.actionStep) then !panicked && InvalidStepEffect(app, w0, w1, user.id, token)
    else if session.actionStep == T.SelectingSkill then
      !panicked && SelectingSkillEffect(app, w0, w1, ev, session.(actionStep := T.SelectingHandedness), raw, token)
    else if !ev.kind.PostbackEvent? then panicked && w1 == w0
    else
      var d := P.Decode(P.SelectingHandedness, A.Json(app, ev.kind.data));
      var reset := A.Reset(w0.sessions, app.sessions.unavailable, user.id);
      var resetFailed := if user.id in app.sessions.unavailable then [A.DefaultErrorReply(token)] else [];
      if d.Err? || T.HandednessStrToEnum(d.value.handedness).Err? then
        !panicked && w1 == w0.(sessions := reset, trace := w0.trace + [A.DefaultErrorReply(token)] + resetFailed)
      else if session.skill !in T.SkillLabels then panicked && w1 == w0
      else
        var hand := T.HandednessStrToEnum(d.value.handedness).value;
        var skill := T.SkillStrToEnum(session.skill);
        T.HandednessChnString(hand).Some? && T.SkillChnString(skill).Some? &&
        var r := app.bot.ExpertVideosReply(hand, skill, token);
        !panicked &&
        w1 == w0.(sessions := reset,
                  trace := w0.trace + [r] + (if r in app.bot.rejected then [A.DefaultErrorReply(token)] else []) + resetFailed)
  }

  /** handleViewingExpertVideos. */
  method HandleViewingExpertVideos(app: A.App, ev: A.Event, raw: string, user: U.UserData, session: S.UserSession,
                                   token: string)
    returns (panicked: bool)
    requires session.userState == T.ViewingExpertVideos
    modifies app.sessions, app.bot
    ensures ExpertVideosEffect(app, old(A.WorldOf(app)), A.WorldOf(app), ev, raw, user, session, token, panicked)
  {
    if session.actionStep == T.SelectingSkill {
      HandleSelectingSkill(app, ev, session.(actionStep := T.SelectingHandedness), raw, token);
      panicked := false;
    } else if session.actionStep == T.SelectingHandedness {
      panicked := HandleSendingExpertVideos(app, ev, session, token);
      if panicked {
        return;
      }
      ResetSessionWithErrorHandling(app, user.id, token);
    } else {
      HandleInvalidActionStep(app, user.id, token);
      panicked := false;
    }
  }

  /** The end of handleViewingPortfolio, from SendPortfolio on, as a change of the world: an
      unknown skill panics and changes nothing; an empty portfolio gets the no-portfolio text;
      otherwise the carousels go out and, when the reply is accepted, the session is reset
      (`viewed`); a refused reply gets two default errors and no reset. */
  ghost predicate ShowPortfolioEffect(app: A.App, w0: A.World, w1: A.World, skill: string, user: U.UserData,
                                      session: S.UserSession, token: string, panicked: bool, viewed: bool)
  {
    (panicked <==> skill !in T.SkillLabels) &&
    if panicked then !viewed && w1 == w0
    else
      var works := U.Read(user.portfolio, U.RefOf(skill));
      if works == map[] then !viewed && w1 == w0.(trace := w0.trace + [NoPortfolioReply(token, skill)])
      else
        exists cs :: UI.PortfolioCarousels(app.bot.bucketName, works, skill, session.handedness, false, cs) &&
          var r := LB.Reply(token, LB.PortfolioMessage(PortfolioText, cs));
          (viewed <==> r !in app.bot.rejected) &&
          if viewed then
            w1 == w0.(sessions := A.Reset(w0.sessions, app.sessions.unavailable, user.id),
                      trace := w0.trace + [r] + if user.id in app.sessions.unavailable then [A.DefaultErrorReply(token)] else [])
          else w1 == w0.(trace := w0.trace + [r, A.DefaultErrorReply(token), A.DefaultErrorReply(token)])
  }

  /** handleViewingPortfolio as a change of the world: a payload that does not decode gets one
      default error; otherwise the chosen skill's portfolio is shown. */
  ghost predicate ViewingPortfolioEffect(app: A.App, w0: A.World, w1: A.World, raw: string, user: U.UserData,
                                         session: S.UserSession, token: string, panicked: bool, viewed: bool)
  {
    var d := P.Decode(P.SelectingSkill, A.Json(app, raw));
    if d.Err? then !panicked && !viewed && w1 == w0.(trace := w0.trace + [A.DefaultErrorReply(token)])
    else ShowPortfolioEffect(app, w0, w1, d.value.skill, user, session, token, panicked, viewed)
  }

  /** handleViewingPortfolio. */
  method HandleViewingPortfolio(app: A.App, ev: A.Event, raw: string, user: U.UserData, session: S.UserSession,
                                token: string)
    returns (panicked: bool, viewed: bool)
    modifies app.sessions, app.bot
    ensures ViewingPortfolioEffect(app, old(A.WorldOf(app)), A.WorldOf(app), raw, user, session, token, panicked, viewed)
  {
    var d := DecodePostback(app, P.SelectingSkill, raw);
    if d.Err? {
      E.HandleLineError(app, true, token);
      return false, false;
    }
    panicked, viewed := ShowPortfolio(app, d.value.skill, user, session, token);
  }

  /** The skill's portfolio carousels, then the session reset. */
  method ShowPortfolio(app: A.App, skillText: string, user: U.UserData, session: S.UserSession, token: string)
    returns (panicked: bool, viewed: bool)
    modifies app.sessions, app.bot
    ensures ShowPortfolioEffect(app, old(A.WorldOf(app)), A.WorldOf(app), skillText, user, session, token, panicked, viewed)
  {
    var skill := T.SkillStrToEnum(skillText);
    if skill == -1 {
      T.UnknownSkillHasNoLabel(skillText);
    }
    var err;
    ghost var carousels;
    panicked, err, carousels := app.bot.SendPortfolio(token, user, skill, session.handedness, PortfolioText, false);
    if panicked {
      return true, false;
    }
    if err.Some? {
      panicked := E.HandleSendPortfolioError(app, err, token);
      return panicked, false;
    }
    viewed := true;
    ResetSessionWithErrorHandling(app, user.id, token);
  }

  /** The bucket files uploadVideoToBucket returns for a work stamped `date`. */
  function VideoFile(user: U.UserData, session: S.UserSession, date: string): St.UploadedFile {
    var path := V.VideoPath(V.GetVideoFolder(user, session.skill), date);
    St.UploadedFile(path, path)
  }

  function ThumbnailFile(user: U.UserData, date: string): St.UploadedFile {
    var path := V.ThumbnailPath(user.folderPaths.thumbnail, date);
    St.UploadedFile(path, path)
  }

  /** uploadVideoContent as a change of the world: the stitched video and its thumbnail go to
      the bucket under the current minute's stamp, the work is added to the portfolio (the
      in-memory session being written first), the portfolio is shown behind the upload text,
      and only then is the session reset (`uploaded`). A missing stitched file, a refused
      upload, a failed session or user write and a refused reply are each answered with one
      default error and end the upload; what was already stored stays. An unknown skill
      panics on the nil portfolio after both uploads. */
  ghost predicate UploadContentEffect(app: A.App, w0: A.World, w1: A.World, user: U.UserData, session: S.UserSession,
                                      grade: C.GradingOutcome, stitchedPath: string, thumbnailPath: string, token: string,
                                      panicked: bool, uploaded: bool)
  {
    var failed := w0.(trace := w0.trace + [A.DefaultErrorReply(token)]);
    var video := V.VideoPath(V.GetVideoFolder(user, session.skill), app.now);
    var thumb := V.ThumbnailPath(user.folderPaths.thumbnail, app.now);
    if stitchedPath !in app.localFiles || video in app.storage.rejected then !panicked && !uploaded && w1 == failed
    else
      var afterVideo := w0.objects[video := St.StoredObject(app.localFiles[stitchedPath], "video/mp4")];
      if thumbnailPath !in app.localFiles || thumb in app.storage.rejected then
        !panicked && !uploaded && w1 == failed.(objects := afterVideo)
      else
        var objects := afterVideo[thumb := St.StoredObject(app.localFiles[thumbnailPath], "image/jpeg")];
        if session.skill !in T.SkillLabels then panicked && !uploaded && w1 == w0.(objects := objects)
        else
          var written := A.Put(w0.sessions, app.sessions.unavailable, user.id, session);
          !panicked &&
          if user.id in app.sessions.unavailable || user.id in app.users.unavailable then
            !uploaded && w1 == failed.(objects := objects, sessions := written)
          else
            var ref := U.RefOf(session.skill);
            var user' := U.Store(user, ref, app.now, V.UploadedWork(app, app.now, grade, VideoFile(user, session, app.now),
                                                                   ThumbnailFile(user, app.now)));
            exists cs :: UI.PortfolioCarousels(app.bot.bucketName, U.Read(user'.portfolio, ref), session.skill,
                                               session.handedness, true, cs) &&
              var r := LB.Reply(token, LB.PortfolioMessage(V.UploadedText, cs));
              (uploaded <==> r !in app.bot.rejected) &&
              if uploaded then
                w1 == w0.(objects := objects, users := w0.users[user.id := user'],
                          sessions := A.Reset(w0.sessions, app.sessions.unavailable, user.id), trace := w0.trace + [r])
              else
                w1 == w0.(objects := objects, users := w0.users[user.id := user'], sessions := written,
                          trace := w0.trace + [r, A.DefaultErrorReply(token), A.DefaultErrorReply(token)])
  }

  /** uploadVideoContent. */
  method UploadVideoContent(app: A.App, user: U.UserData, session: S.UserSession, grade: C.GradingOutcome,
                            stitchedPath: string, thumbnailPath: string, token: string)
    returns (panicked: bool, uploaded: bool)
    modifies app.sessions, app.users, app.bot, app.storage
    ensures UploadContentEffect(app, old(A.WorldOf(app)), A.WorldOf(app), user, session, grade, stitchedPath,
                                thumbnailPath, token, panicked, uploaded)
  {
    var timestamp := app.now;
    if stitchedPath !in app.localFiles {
      E.HandleLineError(app, true, token);
      return false, false;
    }
    var videoData := app.localFiles[stitchedPath];
    var files := V.UploadVideoToBucket(app, user, session, videoData, thumbnailPath, timestamp);
    if files.Err? {
      E.HandleLineError(app, true, token);
      return false, false;
    }
    var user', err;
    panicked, user', err := V.UpdateUserPortfolioVideo(app, user, session, timestamp, grade, files.value.0, files.value.1);
    if panicked {
      return true, false;
    }
    if err.Some? {
      E.HandleLineError(app, true, token);
      return false, false;
    }
    var replyErr;
    ghost var carousels;
    panicked, replyErr, carousels := V.SendVideoUploadedReply(app, token, session, user');
    assert timestamp in U.Read(user'.portfolio, U.RefOf(session.skill));
    assert UI.PortfolioCarousels(app.bot.bucketName, U.Read(user'.portfolio, U.RefOf(session.skill)), session.skill,
                                 session.handedness, true, carousels);
    if replyErr.Some? {
      E.HandleLineError(app, true, token);
      return false, false;
    }
    ghost var written := app.sessions.docs;
    var _ := app.sessions.ResetSession(user.id);
    assert app.sessions.docs == A.Reset(old(app.sessions.docs), app.sessions.unavailable, user.id) by {
      if user.id !in app.sessions.unavailable {
        assert written == old(app.sessions.docs)[user.id := session];
      }
    }
    uploaded := true;
  }

  /** handleUploadingVideo as a change of the world: a message that is not a video resets the
      session and gets one default error; missing content, an analysis that fails on every
      attempt and a thumbnail ffmpeg cannot extract each get one default error; otherwise the
      first successful analysis is stitched, given its thumbnail and uploaded. */
  ghost predicate UploadEffect(app: A.App, w0: A.World, w1: A.World, ev: A.Event, session: S.UserSession, user: U.UserData,
                               token: string, panicked: bool, uploaded: bool)
  {
    var failed := w0.(trace := w0.trace + [A.DefaultErrorReply(token)]);
    if !(ev.kind.MessageEvent? && ev.kind.message.VideoMessage?) then
      !panicked && !uploaded && w1 == failed.(sessions := A.Reset(w0.sessions, app.sessions.unavailable, user.id))
    else if ev.kind.message.id !in app.bot.videoContents || V.FirstSuccess(app.pose, 0, V.MaxRetries) == V.MaxRetries then
      !panicked && !uploaded && w1 == failed
    else
      var resp := app.pose(V.FirstSuccess(app.pose, 0, V.MaxRetries)).value;
      var stitched := V.Stitch(app, user, resp.processedVideo, session.skill, session.handedness).0;
      if stitched in app.thumbnailFailures then !panicked && !uploaded && w1 == failed
      else UploadContentEffect(app, w0, w1, user, session, resp.grade, stitched, A.TmpFolder + user.id + ".jpeg", token,
                               panicked, uploaded)
  }

  /** handleUploadingVideo: the video message's content is analysed, stitched against the
      expert clip, given a thumbnail and uploaded; each failure is answered with one default
      error. A message that is not a video resets the session first. */
  method HandleUploadingVideo(app: A.App, ev: A.Event, session: S.UserSession, user: U.UserData, token: string)
    returns (panicked: bool, uploaded: bool)
    modifies app.sessions, app.users, app.bot, app.storage
    ensures UploadEffect(app, old(A.WorldOf(app)), A.WorldOf(app), ev, session, user, token, panicked, uploaded)
  {
    if !(ev.kind.MessageEvent? && ev.kind.message.VideoMessage?) {
      var _ := app.sessions.ResetSession(user.id);
      E.HandleLineError(app, true, token);
      return false, false;
    }
    var content := app.bot.GetVideoContent(ev.kind.message.id);
    if content.Err? {
      E.HandleLineError(app, true, token);
      return false, false;
    }
    var resp, attempts, sleeps := V.AnalyzeVideo(app, content.value, session.skill, session.handedness);
    if resp.Err? {
      E.HandleLineError(app, true, token);
      return false, false;
    }
    var stitched := V.Stitch(app, user, resp.value.processedVideo, session.skill, session.handedness).0;
    var thumbnail := V.CreateVideoThumbnail(app, user, stitched);
    if thumbnail.Err? {
      E.HandleLineError(app, true, token);
      return false, false;
    }
    panicked, uploaded := UploadVideoContent(app, user, session, resp.value.grade, stitched, thumbnail.value, token);
  }

  /** handleAnalyzingVideoActions as a change of the world: skill, then handedness, then the
      upload. At the handedness step only Handedness reaches the store, by a
      read-modify-write of the stored session (nothing is written when that read fails), and
      the upload prompt is sent; the in-memory move to UploadingVideo is not written. */
  ghost predicate AnalyzingVideoEffect(app: A.App, w0: A.World, w1: A.World, ev: A.Event, raw: string, user: U.UserData,
                                       session: S.UserSession, token: string, panicked: bool, uploaded: bool)
  {
    if !Accepts(session.userState, session.actionStep) then
      !panicked && !uploaded && InvalidStepEffect(app, w0, w1, user.id, token)
    else if session.actionStep == T.SelectingSkill then
      !panicked && !uploaded &&
      SelectingSkillEffect(app, w0, w1, ev, session.(actionStep := T.SelectingHandedness), raw, token)
    else if session.actionStep == T.SelectingHandedness then
      var d := P.Decode(P.SelectingHandedness, A.Json(app, raw));
      !panicked && !uploaded &&
      if d.Err? then w1 == w0.(trace := w0.trace + [A.DefaultErrorReply(token)])
      else
        w1 == w0.(sessions := if user.id in w0.sessions && user.id !in app.sessions.unavailable
                              then w0.sessions[user.id := w0.sessions[user.id].(handedness := d.value.handedness)]
                              else w0.sessions,
                  trace := w0.trace + [LB.Reply(token, LB.UploadPrompt)])
    else UploadEffect(app, w0, w1, ev, session, user, token, panicked, uploaded)
  }

  /** handleAnalyzingVideoActions. */
  method HandleAnalyzingVideoActions(app: A.App, ev: A.Event, raw: string, user: U.UserData,
                                     session: S.UserSession, token: string)
    returns (panicked: bool, uploaded: bool)
    requires session.userState == T.AnalyzingVideo
    modifies app.sessions, app.users, app.bot, app.storage
    ensures AnalyzingVideoEffect(app, old(A.WorldOf(app)), A.WorldOf(app), ev, raw, user, session, token, panicked, uploaded)
  {
    if session.actionStep == T.SelectingSkill {
      HandleSelectingSkill(app, ev, session.(actionStep := T.SelectingHandedness), raw, token);
      return false, false;
    } else if session.actionStep == T.SelectingHandedness {
      var d := DecodePostback(app, P.SelectingHandedness, raw);
      if d.Err? {
        E.HandleLineError(app, true, token);
        return false, false;
      }
      var _ := app.sessions.UpdateSessionHandedness(user.id, d.value.handedness);
      var _ := app.bot.PromptUploadVideo(token);
      return false, false;
    } else if session.actionStep == T.UploadingVideo {
      panicked, uploaded := HandleUploadingVideo(app, ev, session, user, token);
    } else {
      HandleInvalidActionStep(app, user.id, token);
      return false, false;
    }
  }

  /** The request analyzeWithGPT sends: handedness, skill and the marshalled grading details. */
  function AdvicePrompt(request: P.Payload, details: string): string
    requires request.AnalyzingWithGPTPostback?
  {
    "以下為我此次動作的資料，請分析並給出改善建議：\n慣用手：" + request.handedness + "\n動作技能：" + request.skill +
    "\n動作評分細節：" + details
  }

  /** analyzeWithGPT: GPT's answer, or the fixed fallback text when GPT fails. */
  function AnalyzeWithGPT(app: A.App, request: P.Payload, details: string, conversationId: string): (advice: string)
    requires request.AnalyzingWithGPTPostback?
    ensures app.gpt(conversationId, AdvicePrompt(request, details)).None? ==> advice == NoAdviceText
    ensures app.gpt(conversationId, AdvicePrompt(request, details)).Some? ==>
      advice == app.gpt(conversationId, AdvicePrompt(request, details)).value
  {
    var answer := app.gpt(conversationId, AdvicePrompt(request, details));
    if answer.None? then NoAdviceText else answer.value
  }

  /** The grading details of the requested work (of the zero Work when the date is absent). */
  function DetailsOf(user: U.UserData, request: P.Payload): seq<C.GradingDetail>
    requires request.AnalyzingWithGPTPostback?
  {
    U.Lookup(U.Read(user.portfolio, UU.GetUserPortfolio(user, request.skill)), request.workDate).gradingOutcome.gradingDetails
  }

  /** The advice handleAnalyzePortfolioWithGPT stores for the requested work. */
  function AdviceFor(app: A.App, user: U.UserData, request: P.Payload): string
    requires request.AnalyzingWithGPTPostback? && app.marshalDetails(DetailsOf(user, request)).Some?
  {
    AnalyzeWithGPT(app, request, app.marshalDetails(DetailsOf(user, request)).value,
                   UU.GetUserGPTConversation(user, request.skill))
  }

  /** The user record once the advice is the requested work's AI note. */
  function AINoted(app: A.App, user: U.UserData, request: P.Payload): (user': U.UserData)
    requires request.AnalyzingWithGPTPostback? && request.skill in T.SkillLabels
    requires app.marshalDetails(DetailsOf(user, request)).Some?
  {
    var ref := U.RefOf(request.skill);
    U.Store(user, ref, request.workDate,
            U.Lookup(U.Read(user.portfolio, ref), request.workDate).(aiNote := AdviceFor(app, user, request)))
  }

  /** What handleAnalyzePortfolioWithGPT does to the world `w0`. Details that do not marshal
      get their own text; otherwise GPT is asked, and an unknown skill then panics on the
      AI-note write into the nil map; a refused write gets its own text; otherwise the work's
      AI note is the advice and the skill's updated portfolio is shown, a refused portfolio
      reply being followed by two default errors (one from SendPortfolio, one from
      handleSendPortfolioError). Without a session record the call that shows the portfolio
      panics on reading the session's state, after the note has been written. */
  ghost predicate AnalyzeEffect(app: A.App, w0: A.World, w1: A.World, user: U.UserData, request: P.Payload,
                                hasSession: bool, token: string, panicked: bool)
  {
    request.AnalyzingWithGPTPostback? &&
    w1.sessions == w0.sessions && w1.objects == w0.objects &&
    if app.marshalDetails(DetailsOf(user, request)).None? then
      !panicked && w1 == w0.(trace := w0.trace + [LB.Reply(token, LB.Text(NoDetailsText))])
    else if request.skill !in T.SkillLabels then panicked && w1 == w0
    else if user.id in app.users.unavailable then
      !panicked && w1 == w0.(trace := w0.trace + [LB.Reply(token, LB.Text(AINoteFailedText))])
    else
      var user' := AINoted(app, user, request);
      if !hasSession then panicked && w1 == w0.(users := w0.users[user.id := user'])
      else
      !panicked && w1.users == w0.users[user.id := user'] &&
      PortfolioAnswered(app, w0.trace, w1.trace, U.Read(user'.portfolio, U.RefOf(request.skill)), request.skill,
                        request.handedness, PortfolioText, false, token)
  }

  /** handleAnalyzePortfolioWithGPT: the work's grading details go to the skill's GPT
      conversation and the advice (the fallback text when GPT fails) becomes the work's AI
      note through the skill's handle; the updated portfolio is then shown. */
  method HandleAnalyzePortfolioWithGPT(app: A.App, ev: A.Event, user: U.UserData, request: P.Payload,
                                       session: Option<S.UserSession>, token: string)
    returns (panicked: bool)
    requires request.AnalyzingWithGPTPostback?
    modifies app.users, app.bot
    ensures AnalyzeEffect(app, old(A.WorldOf(app)), A.WorldOf(app), user, request, session.Some?, token, panicked)
  {
    // for an unknown skill the handle is the nil map: the read gives the zero Work, and the
    // AI-note write panics
    var ref := UU.GetUserPortfolio(user, request.skill);
    var details := U.Lookup(U.Read(user.portfolio, ref), request.workDate).gradingOutcome.gradingDetails;
    var marshalled := app.marshalDetails(details);
    if marshalled.None? {
      var _ := app.bot.SendReply(token, NoDetailsText);
      return false;
    }
    var conversationId := UU.GetUserGPTConversation(user, request.skill);
    var advice := AnalyzeWithGPT(app, request, marshalled.value, conversationId);
    var user', err;
    panicked, user', err := app.users.UpdateUserPortfolioAINote(user, ref, request.workDate, advice);
    if panicked {
      return;
    }
    if err.Some? {
      var _ := app.bot.SendReply(token, AINoteFailedText);
      return;
    }
    if session.None? {
      return true;
    }
    var skill := T.SkillStrToEnum(request.skill);
    var sent;
    ghost var carousels;
    panicked, sent, carousels := app.bot.SendPortfolio(token, user', skill, request.handedness, PortfolioText, false);
    panicked := E.HandleSendPortfolioError(app, sent, token);
    assert UI.PortfolioCarousels(app.bot.bucketName, U.Read(user'.portfolio, ref), request.skill,
                                 request.handedness, false, carousels);
  }

  /** The state switch at the end of handleUserState as a change of the world: each of the
      five routed states has its handler's effect, and any other state is an invalid step. */
  ghost predicate ByStateEffect(app: A.App, w0: A.World, w1: A.World, ev: A.Event, raw: string, user: U.UserData,
                                session: S.UserSession, token: string, panicked: bool)
  {
    var state := session.userState;
    if state == T.WritingNotes then WritingNotesEffect(app, w0, w1, ev, raw, user, session, token, panicked)
    else if state == T.ChattingWithGPT then !panicked && ChattingEffect(app, w0, w1, ev, raw, user, session, token)
    else if state == T.ViewingExpertVideos then ExpertVideosEffect(app, w0, w1, ev, raw, user, session, token, panicked)
    else if state == T.ViewingPortfolio then
      exists viewed :: ViewingPortfolioEffect(app, w0, w1, raw, user, session, token, panicked, viewed)
    else if state == T.AnalyzingVideo then
      exists uploaded :: AnalyzingVideoEffect(app, w0, w1, ev, raw, user, session, token, panicked, uploaded)
    else !panicked && InvalidStepEffect(app, w0, w1, user.id, token)
  }

  /** The state switch at the end of handleUserState. */
  method RouteByState(app: A.App, ev: A.Event, raw: string, user: U.UserData, session: S.UserSession, token: string)
    returns (panicked: bool)
    modifies app.sessions, app.users, app.bot, app.storage
    ensures ByStateEffect(app, old(A.WorldOf(app)), A.WorldOf(app), ev, raw, user, session, token, panicked)
  {
    var state := session.userState;
    if state == T.WritingNotes {
      panicked := HandleWritingNotes(app, ev, raw, user, session, token);
    } else if state == T.ChattingWithGPT {
      HandleChattingWithGPT(app, ev, raw, user, session, token);
      panicked := false;
    } else if state == T.ViewingExpertVideos {
      panicked := HandleViewingExpertVideos(app, ev, raw, user, session, token);
    } else if state == T.ViewingPortfolio {
      var viewed;
      panicked, viewed := HandleViewingPortfolio(app, ev, raw, user, session, token);
    } else if state == T.AnalyzingVideo {
      var uploaded;
      panicked, uploaded := HandleAnalyzingVideoActions(app, ev, raw, user, session, token);
    } else {
      HandleInvalidActionStep(app, user.id, token);
      panicked := false;
    }
  }

  /** What the four intercepted payloads of handleUserState do to the world `w0`: the stop
      payload resets and says the chat has ended, the note-edit payload is
      forceStateToWritingNotes, the play-video payload sends that video, the ask-AI payload is
      the portfolio analysis; a postback that is none of them changes nothing. */
  ghost predicate InterceptEffect(app: A.App, w0: A.World, w1: A.World, user: U.UserData, session: S.UserSession,
                                  token: string, panicked: bool, route: Route)
  {
    match route
    case StopChat =>
      !panicked &&
      w1 == w0.(sessions := A.Reset(w0.sessions, app.sessions.unavailable, user.id),
                trace := w0.trace + [LB.Reply(token, LB.Text(StopChattingText))])
    case EditNote(note) => ForceNoteEffect(app, w0, w1, user, session, note, token, panicked)
    case WatchVideo(video) =>
      video.VideoPostback? && !panicked &&
      w1 == w0.(trace := w0.trace + [LB.Reply(token, LB.DriveVideoMessage(video.videoId, video.thumbnailId))])
    case AskAI(request) => AnalyzeEffect(app, w0, w1, user, request, true, token, panicked)
    case ByState => !panicked && w1 == w0
  }

  /** The first half of handleUserState: the stop, note-edit, play-video and ask-AI payloads,
      tried in that order. */
  method HandleInterceptedPostback(app: A.App, raw: string, ev: A.Event, user: U.UserData, session: S.UserSession, token: string)
    returns (panicked: bool, route: Route)
    modifies app.sessions, app.users, app.bot
    ensures route == Classify(A.Json(app, raw))
    ensures InterceptEffect(app, old(A.WorldOf(app)), A.WorldOf(app), user, session, token, panicked, route)
  {
    route := Classify(A.Json(app, raw));
    var stopped := InterceptStop(app, raw, user, token);
    if stopped {
      return false, route;
    }
    panicked := InterceptNote(app, raw, ev, user, session, token, route);
  }

  /** The stop payload: the session is reset and the user told that the chat has ended. */
  method InterceptStop(app: A.App, raw: string, user: U.UserData, token: string) returns (stopped: bool)
    modifies app.sessions, app.bot
    ensures stopped <==> Classify(A.Json(app, raw)) == StopChat
    ensures stopped ==>
      app.sessions.docs == A.Reset(old(app.sessions.docs), app.sessions.unavailable, user.id) &&
      app.bot.trace == old(app.bot.trace) + [LB.Reply(token, LB.Text(StopChattingText))]
    ensures !stopped ==> app.sessions.docs == old(app.sessions.docs) && app.bot.trace == old(app.bot.trace)
  {
    var stop := DecodePostback(app, P.StopGPT, raw);
    stopped := false;
    if stop.Ok? {
      P.StopPayloadIsTrue(A.Json(app, raw));
      if stop.value.stop {
        var _ := app.sessions.ResetSession(user.id);
        var _ := app.bot.SendReply(token, StopChattingText);
        stopped := true;
      }
    }
  }

  /** The note-edit payload, then the rest. */
  method InterceptNote(app: A.App, raw: string, ev: A.Event, user: U.UserData, session: S.UserSession, token: string,
                       route: Route)
    returns (panicked: bool)
    requires route == Classify(A.Json(app, raw)) && route != StopChat
    modifies app.sessions, app.users, app.bot
    ensures InterceptEffect(app, old(A.WorldOf(app)), A.WorldOf(app), user, session, token, panicked, route)
  {
    var note := DecodePostback(app, P.WritingNote, raw);
    if note.Ok? {
      panicked := ForceStateToWritingNotes(app, user, session, note.value, token);
      return;
    }
    panicked := InterceptVideoOrAsk(app, raw, ev, user, session, token, route);
  }

  /** The play-video payload, then the ask-AI one. */
  method InterceptVideoOrAsk(app: A.App, raw: string, ev: A.Event, user: U.UserData, session: S.UserSession, token: string,
                             route: Route)
    returns (panicked: bool)
    requires route == Classify(A.Json(app, raw)) && route != StopChat && !route.EditNote?
    modifies app.users, app.bot
    ensures InterceptEffect(app, old(A.WorldOf(app)), A.WorldOf(app), user, session, token, panicked, route)
  {
    var video := DecodePostback(app, P.Video, raw);
    if video.Ok? {
      var _ := app.bot.SendVideoMessage(token, video.value.videoId, video.value.thumbnailId);
      return false;
    }
    panicked := InterceptAsk(app, raw, ev, user, session, token, route);
  }

  /** The ask-AI payload; anything else is left to the state switch. */
  method InterceptAsk(app: A.App, raw: string, ev: A.Event, user: U.UserData, session: S.UserSession, token: string,
                      route: Route)
    returns (panicked: bool)
    requires route == Classify(A.Json(app, raw)) && (route.AskAI? || route == ByState)
    modifies app.users, app.bot
    ensures InterceptEffect(app, old(A.WorldOf(app)), A.WorldOf(app), user, session, token, panicked, route)
  {
    var ask := DecodePostback(app, P.AnalyzingWithGPT, raw);
    if ask.Ok? {
      panicked := HandleAnalyzePortfolioWithGPT(app, ev, user, ask.value, Some(session), token);
      return;
    }
    panicked := false;
  }

  /** handleUserState as a change of the world: the intercepted payloads have their effects,
      and a postback that is none of them goes through the state switch. */
  ghost predicate UserStateEffect(app: A.App, w0: A.World, w1: A.World, ev: A.Event, user: U.UserData, session: S.UserSession,
                                  token: string, panicked: bool, route: Route)
  {
    route == Classify(A.Json(app, A.PostbackData(ev))) &&
    if route == ByState then ByStateEffect(app, w0, w1, ev, A.PostbackData(ev), user, session, token, panicked)
    else InterceptEffect(app, w0, w1, user, session, token, panicked, route)
  }

  /** handleUserState: the four intercepted payloads first, then the session's state. */
  method HandleUserState(app: A.App, ev: A.Event, user: U.UserData, session: S.UserSession, token: string)
    returns (panicked: bool, route: Route)
    modifies app.sessions, app.users, app.bot, app.storage
    ensures UserStateEffect(app, old(A.WorldOf(app)), A.WorldOf(app), ev, user, session, token, panicked, route)
  {
    var raw := A.PostbackData(ev);
    panicked, route := HandleInterceptedPostback(app, raw, ev, user, session, token);
    if route == ByState {
      panicked := RouteByState(app, ev, raw, user, session, token);
    }
  }

  /** The state switch of handleUserState for a session whose user record is nil: each step
      runs as far as its first use of the user record, which panics. An undecodable payload
      gets its one default error before that use. A skill choice in the expert-video and
      video-analysis states is handleSelectingSkill, which writes the session under the
      event's own user ID, so it runs whole; the expert videos' handedness step sends the
      clips and panics at the reset; chat with a skill outside the three reads no conversation
      ID and asks GPT on the empty one. */
  ghost predicate WithoutUserEffect(app: A.App, w0: A.World, w1: A.World, ev: A.Event, raw: string, session: S.UserSession,
                                    token: string, panicked: bool)
  {
    var state := session.userState;
    var step := session.actionStep;
    var errorReply := w0.(trace := w0.trace + [A.DefaultErrorReply(token)]);
    if !Accepts(state, step) then panicked && w1 == w0
    else if (state == T.WritingNotes || state == T.ChattingWithGPT) && step == T.SelectingSkill then
      if P.Decode(P.SelectingSkill, A.Json(app, raw)).Err? then !panicked && w1 == errorReply else panicked && w1 == w0
    else if state == T.WritingNotes && step == T.SelectingPortfolio then
      var d := P.Decode(P.WritingNote, A.Json(app, raw));
      if d.Err? || d.value.actionStep !in app.actionSteps then !panicked && w1 == errorReply else panicked && w1 == w0
    else if state == T.ChattingWithGPT && step == T.Chatting then
      if session.skill in T.SkillLabels then panicked && w1 == w0
      else
        var answer := app.gpt("", ChatText(ev));
        !panicked &&
        w1 == w0.(trace := w0.trace + [if answer.None? then A.DefaultErrorReply(token) else LB.Reply(token, LB.GPTChat(answer.value))])
    else if (state == T.ViewingExpertVideos || state == T.AnalyzingVideo) && step == T.SelectingSkill then
      !panicked && SelectingSkillEffect(app, w0, w1, ev, session.(actionStep := T.SelectingHandedness), raw, token)
    else if state == T.ViewingExpertVideos && step == T.SelectingHandedness then
      panicked && w1 == w0.(trace := w1.trace) &&
      (ClipsEffect(app, w0.trace, w1.trace, ev, session, token, true) ||
       ClipsEffect(app, w0.trace, w1.trace, ev, session, token, false))
    else if state == T.ViewingPortfolio then
      if P.Decode(P.SelectingSkill, A.Json(app, raw)).Err? then !panicked && w1 == errorReply else panicked && w1 == w0
    else if state == T.AnalyzingVideo && step == T.SelectingHandedness then
      if P.Decode(P.SelectingHandedness, A.Json(app, raw)).Err? then !panicked && w1 == errorReply else panicked && w1 == w0
    else panicked && w1 == w0
  }

  /** The state switch of handleUserState with a nil user record. */
  method RouteByStateWithoutUser(app: A.App, ev: A.Event, raw: string, session: S.UserSession, token: string)
    returns (panicked: bool)
    modifies app.sessions, app.bot
    ensures WithoutUserEffect(app, old(A.WorldOf(app)), A.WorldOf(app), ev, raw, session, token, panicked)
  {
    var state, step := session.userState, session.actionStep;
    if !Accepts(state, step) {
      return true;
    }
    if (state == T.WritingNotes || state == T.ChattingWithGPT) && step == T.SelectingSkill {
      var d := DecodePostback(app, P.SelectingSkill, raw);
      if d.Err? {
        E.HandleLineError(app, true, token);
        return false;
      }
    } else if state == T.WritingNotes && step == T.SelectingPortfolio {
      var d := DecodePostback(app, P.WritingNote, raw);
      if d.Err? || d.value.actionStep !in app.actionSteps {
        E.HandleLineError(app, true, token);
        return false;
      }
    } else if state == T.ChattingWithGPT && step == T.Chatting {
      if session.skill in T.SkillLabels {
        return true;
      }
      var answer := app.gpt("", ChatText(ev));
      if answer.None? {
        E.HandleLineError(app, true, token);
        return false;
      }
      var _ := app.bot.SendGPTChattingModeReply(token, answer.value);
      return false;
    } else if (state == T.ViewingExpertVideos || state == T.AnalyzingVideo) && step == T.SelectingSkill {
      HandleSelectingSkill(app, ev, session.(actionStep := T.SelectingHandedness), raw, token);
      return false;
    } else if state == T.ViewingExpertVideos && step == T.SelectingHandedness {
      var _ := HandleSendingExpertVideos(app, ev, session, token);
    } else if state == T.ViewingPortfolio {
      var d := DecodePostback(app, P.SelectingSkill, raw);
      if d.Err? {
        E.HandleLineError(app, true, token);
        return false;
      }
    } else if state == T.AnalyzingVideo && step == T.SelectingHandedness {
      var d := DecodePostback(app, P.SelectingHandedness, raw);
      if d.Err? {
        E.HandleLineError(app, true, token);
        return false;
      }
    }
    panicked := true;
  }

  /** The ask-AI request without a user record: for one of the three skills getUserPortfolio
      reads the nil record and panics; for any other it hands back the nil map without reading
      the record, so the zero Work's details are marshalled (a failure gets its own text) and
      the AI-note write into the nil map panics. */
  ghost predicate AnalyzeWithoutUserEffect(app: A.App, w0: A.World, w1: A.World, request: P.Payload, token: string,
                                           panicked: bool)
  {
    request.AnalyzingWithGPTPostback? &&
    if request.skill !in T.SkillLabels && app.marshalDetails([]).None? then
      !panicked && w1 == w0.(trace := w0.trace + [LB.Reply(token, LB.Text(NoDetailsText))])
    else panicked && w1 == w0
  }

  /** handleAnalyzePortfolioWithGPT with a nil user record. */
  method AnalyzeWithoutUser(app: A.App, request: P.Payload, token: string) returns (panicked: bool)
    requires request.AnalyzingWithGPTPostback?
    modifies app.bot
    ensures AnalyzeWithoutUserEffect(app, old(A.WorldOf(app)), A.WorldOf(app), request, token, panicked)
  {
    if request.skill in T.SkillLabels {
      return true;
    }
    var marshalled := app.marshalDetails(U.Lookup(map[], request.workDate).gradingOutcome.gradingDetails);
    if marshalled.None? {
      var _ := app.bot.SendReply(token, NoDetailsText);
      return false;
    }
    return true;
  }

  /** handleUserState entered with a nil user or session record (a user document that could
      not be created, a session that could not be read or written): each path runs as far as
      its first use of a nil record, which panics. The play-video payload uses neither record;
      the stop payload and the reset after an unknown note step use only the user; the
      ask-AI request is AnalyzeEffect without a session, or AnalyzeWithoutUserEffect; the
      state switch reads the session's state and, with the session there, is
      WithoutUserEffect. */
  ghost predicate MissingRecordEffect(app: A.App, w0: A.World, w1: A.World, ev: A.Event, user: Option<U.UserData>,
                                      session: Option<S.UserSession>, token: string, panicked: bool)
  {
    (user.None? || session.None?) &&
    match Classify(A.Json(app, A.PostbackData(ev)))
    case StopChat =>
      if user.None? then panicked && w1 == w0
      else
        !panicked &&
        w1 == w0.(sessions := A.Reset(w0.sessions, app.sessions.unavailable, user.value.id),
                  trace := w0.trace + [LB.Reply(token, LB.Text(StopChattingText))])
    case EditNote(note) =>
      note.WritingNotePostback? &&
      if user.Some? && note.actionStep !in app.actionSteps then
        !panicked && w1 == w0.(sessions := A.Reset(w0.sessions, app.sessions.unavailable, user.value.id))
      else panicked && w1 == w0
    case WatchVideo(video) =>
      video.VideoPostback? && !panicked &&
      w1 == w0.(trace := w0.trace + [LB.Reply(token, LB.DriveVideoMessage(video.videoId, video.thumbnailId))])
    case AskAI(request) =>
      if user.None? then AnalyzeWithoutUserEffect(app, w0, w1, request, token, panicked)
      else AnalyzeEffect(app, w0, w1, user.value, request, false, token, panicked)
    case ByState =>
      if session.None? then panicked && w1 == w0
      else WithoutUserEffect(app, w0, w1, ev, A.PostbackData(ev), session.value, token, panicked)
  }

  /** handleUserState with a nil user or session record. */
  method HandleUserStateWithMissingRecord(app: A.App, ev: A.Event, user: Option<U.UserData>,
                                          session: Option<S.UserSession>, token: string)
    returns (panicked: bool)
    requires user.None? || session.None?
    modifies app.sessions, app.users, app.bot
    ensures MissingRecordEffect(app, old(A.WorldOf(app)), A.WorldOf(app), ev, user, session, token, panicked)
  {
    var raw := A.PostbackData(ev);
    var route := Classify(A.Json(app, raw));
    match route
    case StopChat =>
      if user.None? {
        return true;
      }
      var _ := app.sessions.ResetSession(user.value.id);
      var _ := app.bot.SendReply(token, StopChattingText);
      return false;
    case EditNote(note) =>
      if user.None? || note.actionStep in app.actionSteps {
        return true;
      }
      var _ := app.sessions.ResetSession(user.value.id);
      return false;
    case WatchVideo(video) =>
      var _ := app.bot.SendVideoMessage(token, video.videoId, video.thumbnailId);
      return false;
    case AskAI(request) =>
      if user.None? {
        panicked := AnalyzeWithoutUser(app, request, token);
      } else {
        panicked := HandleAnalyzePortfolioWithGPT(app, ev, user.value, request, None, token);
      }
    case ByState =>
      if session.None? {
        return true;
      }
      panicked := RouteByStateWithoutUser(app, ev, raw, session.value, token);
  }

  /** What handlePostbackEvent does, from the world `w0` it starts in to the world `w1` it
      leaves: a menu-switch postback changes nothing; any other goes to handleUserState, with
      both records or with a missing one. */
  ghost predicate PostbackEffect(app: A.App, w0: A.World, w1: A.World, ev: A.Event, user: Option<U.UserData>,
                           session: Option<S.UserSession>, panicked: bool)
  {
    ev.kind.PostbackEvent? &&
    if IsMenuSwitchEvent(ev.kind.data) then !panicked && w1 == w0
    else if user.None? || session.None? then MissingRecordEffect(app, w0, w1, ev, user, session, ev.replyToken, panicked)
    else UserStateEffect(app, w0, w1, ev, user.value, session.value, ev.replyToken, panicked,
                         Classify(A.Json(app, ev.kind.data)))
  }

  /** handlePostbackEvent: the two menu-switch postbacks are ignored; any other goes to
      handleUserState with the event's reply token. */
  method HandlePostbackEvent(app: A.App, ev: A.Event, user: Option<U.UserData>, session: Option<S.UserSession>)
    returns (panicked: bool)
    requires ev.kind.PostbackEvent?
    modifies app.sessions, app.users, app.bot, app.storage
    ensures PostbackEffect(app, old(A.WorldOf(app)), A.WorldOf(app), ev, user, session, panicked)
  {
    if IsMenuSwitchEvent(ev.kind.data) {
      return false;
    }
    if user.None? || session.None? {
      panicked := HandleUserStateWithMissingRecord(app, ev, user, session, ev.replyToken);
      return;
    }
    var route;
    panicked, route := HandleUserState(app, ev, user.value, session.value, ev.replyToken);
  }
}
