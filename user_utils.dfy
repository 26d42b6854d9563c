/** The per-event user and session lookups of linebot/app/user_utils.go. */
module UserUtils {
  import opened Wrappers
  import T = Types
  import S = Sessions
  import U = Users
  import St = Storage
  import A = AppState

  /** getUserPortfolio: a handle on the skill's own map, so writes through it land in the
      user record; any other skill yields the nil map. */
  function GetUserPortfolio(user: U.UserData, skill: string): (r: U.PortfolioRef)
    ensures r == U.NilMap <==> skill !in T.SkillLabels
    ensures skill in T.SkillLabels ==> U.Read(user.portfolio, r) == U.GetSkillPortfolio(user.portfolio, skill).value
  {
    U.RefOf(skill)
  }

  /** A write through the handle is what GetSkillPortfolio then reads for that skill, and the
      other skills' maps are untouched. */
  lemma PortfolioHandleAliases(user: U.UserData, skill: string, other: string, date: string, work: U.Work)
    requires skill in T.SkillLabels && other in T.SkillLabels && other != skill
    ensures var after := U.Store(user, GetUserPortfolio(user, skill), date, work);
      U.GetSkillPortfolio(after.portfolio, skill).value == U.GetSkillPortfolio(user.portfolio, skill).value[date := work] &&
      U.GetSkillPortfolio(after.portfolio, other) == U.GetSkillPortfolio(user.portfolio, other)
  {
    var r := GetUserPortfolio(user, skill);
    var after := U.Store(user, r, date, work);
    assert U.RefOf(other) != r && U.RefOf(other) != U.NilMap;
  }

  /** getUserGPTConversation: the skill's conversation ID, or "" for an unknown skill. */
  function GetUserGPTConversation(user: U.UserData, skill: string): (id: string)
    ensures skill == "serve" ==> id == user.conversationIds.serve
    ensures skill == "smash" ==> id == user.conversationIds.smash
    ensures skill == "clear" ==> id == user.conversationIds.clear
    ensures skill !in T.SkillLabels ==> id == ""
  {
    match skill
    case "serve" => user.conversationIds.serve
    case "smash" => user.conversationIds.smash
    case "clear" => user.conversationIds.clear
    case _ => ""
  }

  /** UpdateUserGPTThreadID and getUserGPTConversation agree: the ID set for a skill is the one
      then read for it, while every other skill reads what it read before. */
  lemma ThreadIdRoundTrip(user: U.UserData, skill: string, other: string, threadId: string)
    requires skill in T.SkillLabels && other != skill
    ensures var after := user.(conversationIds := U.WithThreadId(user.conversationIds, skill, threadId));
      GetUserGPTConversation(after, skill) == threadId &&
      GetUserGPTConversation(after, other) == GetUserGPTConversation(user, other)
  {
  }

  /** The user CreateUserData writes for a new user. */
  function NewUser(app: A.App, userId: string, name: string, ids: U.ConversationIds): U.UserData {
    U.UserData(U.Portfolios(map[], map[], map[]), app.folderPathsOf(St.UserFolders(userId, name, St.RootPath(userId))),
               ids, name, userId, T.Right)
  }

  /** createUser: the LINE name ("" when the profile fails), the bucket folder, the GPT
      conversations, then the user document. A failing step is logged and the next one still
      runs; a nil folder record or nil conversation IDs is dereferenced and panics. */
  method CreateUser(app: A.App, userId: string) returns (panicked: bool, user: Option<U.UserData>)
    modifies app.users, app.storage
    ensures var name := if userId in app.bot.userNames then app.bot.userNames[userId] else "";
      app.storage.objects ==
        if St.PlaceholderPath(userId) in app.storage.rejected then old(app.storage.objects)
        else old(app.storage.objects)[St.PlaceholderPath(userId) := St.StoredObject([], "")]
    ensures panicked <==> St.PlaceholderPath(userId) in app.storage.rejected || app.newConversations.None?
    ensures panicked ==> app.users.docs == old(app.users.docs) && user.None?
    ensures !panicked ==>
      var name := if userId in app.bot.userNames then app.bot.userNames[userId] else "";
      var u := NewUser(app, userId, name, app.newConversations.value);
      (user.Some? <==> userId !in app.users.unavailable) && (user.Some? ==> user.value == u) &&
      app.users.docs == if user.None? then old(app.users.docs) else old(app.users.docs)[userId := u]
  {
    var name := if userId in app.bot.userNames then app.bot.userNames[userId] else "";
    var folders := app.storage.CreateUserFolders(userId, name);
    var folderRecord := if folders.Ok? then Some(folders.value) else None;
    var paths := if folders.Ok? then app.folderPathsOf(folders.value) else U.FolderPaths("", "", "", "", "");
    var r;
    panicked, r := app.users.CreateUserData(folderRecord, paths, app.newConversations);
    user := if !panicked && r.Ok? then Some(r.value) else None;
  }

  /** createUserIfNotExist on the world `w`: whether it panics, the user it yields and the
      world it leaves. A readable user is returned as stored; otherwise the bucket folder is
      written, and the new user too unless a nil record panics first. */
  function UserLookup(app: A.App, w: A.World, userId: string): (bool, Option<U.UserData>, A.World) {
    if userId in w.users && userId !in app.users.unavailable then (false, Some(w.users[userId]), w)
    else
      var placeholder := St.PlaceholderPath(userId);
      var objects := if placeholder in app.storage.rejected then w.objects
                     else w.objects[placeholder := St.StoredObject([], "")];
      if placeholder in app.storage.rejected || app.newConversations.None? then (true, None, w.(objects := objects))
      else
        var name := if userId in app.bot.userNames then app.bot.userNames[userId] else "";
        var u := NewUser(app, userId, name, app.newConversations.value);
        if userId in app.users.unavailable then (false, None, w.(objects := objects))
        else (false, Some(u), w.(objects := objects, users := w.users[userId := u]))
  }

  /** createUserIfNotExist: the stored user when the lookup succeeds; only otherwise is a new
      user created. */
  method CreateUserIfNotExist(app: A.App, userId: string) returns (panicked: bool, user: Option<U.UserData>)
    modifies app.users, app.storage
    ensures (panicked, user, A.WorldOf(app)) == UserLookup(app, old(A.WorldOf(app)), userId)
    ensures userId in old(app.users.docs) && userId !in app.users.unavailable ==>
      !panicked && user == Some(old(app.users.docs)[userId]) &&
      app.users.docs == old(app.users.docs) && app.storage.objects == old(app.storage.objects)
    ensures !(userId in old(app.users.docs) && userId !in app.users.unavailable) ==>
      (panicked <==> St.PlaceholderPath(userId) in app.storage.rejected || app.newConversations.None?) &&
      (!panicked && user.Some? ==> user.value.id == userId && app.users.docs == old(app.users.docs)[userId := user.value])
  {
    var r := app.users.GetUserData(userId);
    if r.Ok? {
      return false, Some(r.value);
    }
    panicked, user := CreateUser(app, userId);
  }

  /** createUserSessionIfNotExist on the world `w`: the session it yields and the world it
      leaves. */
  function SessionLookup(app: A.App, w: A.World, userId: string): (Option<S.UserSession>, A.World) {
    if userId in w.sessions && userId !in app.sessions.unavailable then (Some(w.sessions[userId]), w)
    else (if userId in app.sessions.unavailable then None else Some(S.DefaultSession),
          w.(sessions := A.Put(w.sessions, app.sessions.unavailable, userId, S.DefaultSession)))
  }

  /** createUserSessionIfNotExist: the stored session, or the fresh default one (nil when that
      write fails too). */
  method CreateUserSessionIfNotExist(app: A.App, userId: string) returns (session: Option<S.UserSession>)
    modifies app.sessions
    ensures (session, A.WorldOf(app)) == SessionLookup(app, old(A.WorldOf(app)), userId)
    ensures old(app.sessions.Stored(userId)).Some? ==>
      session == old(app.sessions.Stored(userId)) && app.sessions.docs == old(app.sessions.docs)
    ensures old(app.sessions.Stored(userId)).None? ==>
      session == (if userId in app.sessions.unavailable then None else Some(S.DefaultSession)) &&
      app.sessions.docs == A.Put(old(app.sessions.docs), app.sessions.unavailable, userId, S.DefaultSession)
  {
    var r := app.sessions.GetUserSession(userId);
    if r.Ok? {
      return Some(r.value);
    }
    var created := app.sessions.CreateUserSession(userId);
    session := if created.Ok? then Some(created.value) else None;
  }
}
