/** The user documents of linebot/api/db/users.go: each user's three portfolios (one map of
    works per skill, keyed by date), folder paths and GPT conversation IDs.

    The handlers hold the user as an in-memory record that these operations change and then
    write back whole. The model passes that record as a value and returns the changed one,
    whether or not the write succeeded. */
module Users {
  import opened Wrappers
  import T = Types
  import C = Commons
  import S = Sessions
  import St = Storage

  datatype Work = Work(
    dateTime: string,
    thumbnail: string,
    skeletonVideo: string,
    skeletonComparisonVideo: string,
    reflection: string,
    previewNote: string,
    aiNote: string,
    gradingOutcome: C.GradingOutcome)

  /** Go's zero Work, which a read of an absent date yields. */
  const ZeroWork := Work("", "", "", "", "", "", "", C.ZeroOutcome)

  datatype Portfolios = Portfolios(serve: map<string, Work>, smash: map<string, Work>, clear: map<string, Work>)

  datatype FolderPaths = FolderPaths(root: string, serve: string, smash: string, clear: string, thumbnail: string)

  datatype ConversationIds = ConversationIds(serve: string, smash: string, clear: string)

  datatype UserData = UserData(
    portfolio: Portfolios,
    folderPaths: FolderPaths,
    conversationIds: ConversationIds,
    name: string,
    id: string,
    handedness: T.Handedness)

  /** The placeholder notes of a freshly uploaded work. */
  const NoReflection := "尚未填寫心得"
  const NoPreviewNote := "尚未填寫課前檢視要點"
  const NoAINote := "尚未詢問 AI 改善建議"

  /** Which of the user's maps a portfolio handle shares; `NilMap` is Go's nil map, which reads
      as empty and panics when written. */
  datatype PortfolioRef = ServeMap | SmashMap | ClearMap | NilMap

  /** The handle the skill string selects. */
  function RefOf(skill: string): (r: PortfolioRef)
    ensures r != NilMap <==> skill in T.SkillLabels
  {
    match skill
    case "serve" => ServeMap
    case "smash" => SmashMap
    case "clear" => ClearMap
    case _ => NilMap
  }

  /** What a read through the handle sees. */
  function Read(p: Portfolios, ref: PortfolioRef): map<string, Work>
  {
    match ref
    case ServeMap => p.serve
    case SmashMap => p.smash
    case ClearMap => p.clear
    case NilMap => map[]
  }

  /** The work a Go map index yields: the stored one, or the zero Work when absent. */
  function Lookup(m: map<string, Work>, date: string): (w: Work)
    ensures date !in m ==> w == ZeroWork
    ensures date in m ==> w == m[date]
  {
    if date in m then m[date] else ZeroWork
  }

  /** The user after `(*handle)[date] = work` through a non-nil handle. */
  function Store(u: UserData, ref: PortfolioRef, date: string, work: Work): (r: UserData)
    requires ref != NilMap
    ensures Read(r.portfolio, ref) == Read(u.portfolio, ref)[date := work]
    ensures forall other :: other != ref && other != NilMap ==> Read(r.portfolio, other) == Read(u.portfolio, other)
    ensures r.(portfolio := u.portfolio) == u
  {
    match ref
    case ServeMap => u.(portfolio := u.portfolio.(serve := u.portfolio.serve[date := work]))
    case SmashMap => u.(portfolio := u.portfolio.(smash := u.portfolio.smash[date := work]))
    case ClearMap => u.(portfolio := u.portfolio.(clear := u.portfolio.clear[date := work]))
  }

  /** Portfolios.GetSkillPortfolio: the skill's map, or nil (None) for any other string. */
  function GetSkillPortfolio(p: Portfolios, skill: string): (r: Option<map<string, Work>>)
    ensures r.Some? <==> skill in T.SkillLabels
    ensures r.Some? ==> r.value == Read(p, RefOf(skill))
  {
    match skill
    case "serve" => Some(p.serve)
    case "smash" => Some(p.smash)
    case "clear" => Some(p.clear)
    case _ => None
  }

  /** A skill has a portfolio exactly when SkillStrToEnum recognises it. */
  lemma PortfolioExactlyForKnownSkills(p: Portfolios, skill: string)
    ensures GetSkillPortfolio(p, skill).Some? <==> T.SkillStrToEnum(skill) != -1
  {
  }

  /** The conversation IDs after UpdateUserGPTThreadID: only the named skill's ID changes,
      and an unknown skill changes nothing. */
  function WithThreadId(ids: ConversationIds, skill: string, threadId: string): (r: ConversationIds)
    ensures skill == "serve" ==> r == ids.(serve := threadId)
    ensures skill == "smash" ==> r == ids.(smash := threadId)
    ensures skill == "clear" ==> r == ids.(clear := threadId)
    ensures skill !in T.SkillLabels ==> r == ids
  {
    match skill
    case "serve" => ids.(serve := threadId)
    case "smash" => ids.(smash := threadId)
    case "clear" => ids.(clear := threadId)
    case _ => ids
  }

  /** The users collection. */
  class UserStore {
    var docs: map<string, UserData>
    /** Documents on which every request fails (any Firestore or decoding error). */
    const unavailable: set<string>

    constructor (docs: map<string, UserData>, unavailable: set<string>)
      ensures this.docs == docs && this.unavailable == unavailable
    {
      this.docs := docs;
      this.unavailable := unavailable;
    }

    /** The user template, written under the folders' user ID. `folders` and `threads` are
        pointers: a nil one is dereferenced and panics before anything is written.
        `paths` is what the folder record's path fields hold. */
    method CreateUserData(folders: Option<St.UserFolders>, paths: FolderPaths, threads: Option<ConversationIds>)
      returns (panicked: bool, r: Result<UserData, string>)
      modifies this
      ensures panicked <==> folders.None? || threads.None?
      ensures !panicked ==>
        var u := UserData(Portfolios(map[], map[], map[]), paths, threads.value,
                          folders.value.userName, folders.value.userId, T.Right);
        (r.Ok? <==> u.id !in unavailable) && (r.Ok? ==> r.value == u) &&
        docs == if r.Err? then old(docs) else old(docs)[u.id := u]
      ensures panicked ==> docs == old(docs)
    {
      if folders.None? || threads.None? {
        return true, Err("nil pointer dereference");
      }
      var u := UserData(Portfolios(map[], map[], map[]), paths, threads.value,
                        folders.value.userName, folders.value.userId, T.Right);
      panicked := false;
      var err := UpdateUserData(u);
      if err.Some? {
        return false, Err("error creating user data: " + err.value);
      }
      r := Ok(u);
    }

    /** The stored user, or an error when it is missing or cannot be read. */
    method GetUserData(userId: string) returns (r: Result<UserData, string>)
      ensures r.Ok? <==> userId in docs && userId !in unavailable
      ensures r.Ok? ==> r.value == docs[userId]
    {
      if userId in docs && userId !in unavailable {
        r := Ok(docs[userId]);
      } else {
        r := Err("error getting user data");
      }
    }

    /** Overwrites the whole document under the record's own ID. */
    method UpdateUserData(user: UserData) returns (err: Option<string>)
      modifies this
      ensures err.None? <==> user.id !in unavailable
      ensures docs == if err.Some? then old(docs) else old(docs)[user.id := user]
    {
      if user.id in unavailable {
        return Some("error updating user data");
      }
      docs := docs[user.id := user];
      err := None;
    }

    method UpdateUserHandedness(user: UserData, handedness: T.Handedness) returns (user': UserData, err: Option<string>)
      modifies this
      ensures user' == user.(handedness := handedness)
      ensures err.None? <==> user.id !in unavailable
      ensures docs == if err.Some? then old(docs) else old(docs)[user.id := user']
    {
      user' := user.(handedness := handedness);
      err := UpdateUserData(user');
    }

    /** Puts a new work with the placeholder notes at `date` through the handle, then writes the
        session, then the user; a failed session write leaves the user document unwritten.
        The stored video and thumbnail are the uploaded files' paths. */
    method CreateUserPortfolioVideo(
      user: UserData, ref: PortfolioRef, date: string,
      sessions: S.SessionStore, session: S.UserSession,
      video: St.UploadedFile, comparison: St.UploadedFile, thumbnail: St.UploadedFile,
      grading: C.GradingOutcome)
      returns (panicked: bool, user': UserData, err: Option<string>)
      modifies this, sessions
      ensures panicked <==> ref == NilMap
      ensures panicked ==> user' == user && docs == old(docs) && sessions.docs == old(sessions.docs)
      ensures !panicked ==>
        user' == Store(user, ref, date,
                       Work(date, thumbnail.path, video.path, "", NoReflection, NoPreviewNote, NoAINote, grading))
      ensures !panicked ==>
        sessions.docs == (if user.id in sessions.unavailable then old(sessions.docs)
                          else old(sessions.docs)[user.id := session])
      ensures !panicked ==>
        (err.None? <==> user.id !in sessions.unavailable && user.id !in unavailable)
      ensures !panicked ==>
        docs == if err.Some? then old(docs) else old(docs)[user.id := user']
    {
      if ref == NilMap {
        return true, user, Some("assignment to entry in nil map");
      }
      panicked := false;
      var work := Work(date, thumbnail.path, video.path, "", NoReflection, NoPreviewNote, NoAINote, grading);
      user' := Store(user, ref, date, work);
      var sessionErr := sessions.UpdateUserSession(user.id, session);
      if sessionErr.Some? {
        return false, user', Some("error updating user session: " + sessionErr.value);
      }
      err := UpdateUserData(user');
    }

    /** Rewrites one note of the work at `date` (the zero Work when absent), keeping its other
        fields, then writes the user. Writing through the nil handle panics. */
    method UpdateNote(user: UserData, ref: PortfolioRef, date: string, work: Work)
      returns (panicked: bool, user': UserData, err: Option<string>)
      modifies this
      ensures panicked <==> ref == NilMap
      ensures panicked ==> user' == user && docs == old(docs)
      ensures !panicked ==> user' == Store(user, ref, date, work)
      ensures !panicked ==> (err.None? <==> user.id !in unavailable)
      ensures !panicked ==> docs == if err.Some? then old(docs) else old(docs)[user.id := user']
    {
      if ref == NilMap {
        return true, user, Some("assignment to entry in nil map");
      }
      user' := Store(user, ref, date, work);
      panicked := false;
      err := UpdateUserData(user');
    }

    method UpdateUserPortfolioReflection(user: UserData, ref: PortfolioRef, date: string, reflection: string)
      returns (panicked: bool, user': UserData, err: Option<string>)
      modifies this
      ensures panicked <==> ref == NilMap
      ensures panicked ==> user' == user && docs == old(docs)
      ensures !panicked ==>
        user' == Store(user, ref, date, Lookup(Read(user.portfolio, ref), date).(reflection := reflection))
      ensures !panicked ==> (err.None? <==> user.id !in unavailable)
      ensures !panicked ==> docs == if err.Some? then old(docs) else old(docs)[user.id := user']
    {
      var target := Lookup(Read(user.portfolio, ref), date);
      panicked, user', err := UpdateNote(user, ref, date, target.(reflection := reflection));
    }

    method UpdateUserPortfolioPreviewNote(user: UserData, ref: PortfolioRef, date: string, previewNote: string)
      returns (panicked: bool, user': UserData, err: Option<string>)
      modifies this
      ensures panicked <==> ref == NilMap
      ensures panicked ==> user' == user && docs == old(docs)
      ensures !panicked ==>
        user' == Store(user, ref, date, Lookup(Read(user.portfolio, ref), date).(previewNote := previewNote))
      ensures !panicked ==> (err.None? <==> user.id !in unavailable)
      ensures !panicked ==> docs == if err.Some? then old(docs) else old(docs)[user.id := user']
    {
      var target := Lookup(Read(user.portfolio, ref), date);
      panicked, user', err := UpdateNote(user, ref, date, target.(previewNote := previewNote));
    }

    method UpdateUserPortfolioAINote(user: UserData, ref: PortfolioRef, date: string, aiNote: string)
      returns (panicked: bool, user': UserData, err: Option<string>)
      modifies this
      ensures panicked <==> ref == NilMap
      ensures panicked ==> user' == user && docs == old(docs)
      ensures !panicked ==>
        user' == Store(user, ref, date, Lookup(Read(user.portfolio, ref), date).(aiNote := aiNote))
      ensures !panicked ==> (err.None? <==> user.id !in unavailable)
      ensures !panicked ==> docs == if err.Some? then old(docs) else old(docs)[user.id := user']
    {
      var target := Lookup(Read(user.portfolio, ref), date);
      panicked, user', err := UpdateNote(user, ref, date, target.(aiNote := aiNote));
    }

    /** Sets one skill's conversation ID; an unknown skill still rewrites the document. */
    method UpdateUserGPTThreadID(user: UserData, skill: string, threadId: string)
      returns (user': UserData, err: Option<string>)
      modifies this
      ensures user' == user.(conversationIds := WithThreadId(user.conversationIds, skill, threadId))
      ensures err.None? <==> user.id !in unavailable
      ensures docs == if err.Some? then old(docs) else old(docs)[user.id := user']
    {
      user' := user.(conversationIds := WithThreadId(user.conversationIds, skill, threadId));
      err := UpdateUserData(user');
    }

    method UpdateUserGPTThreadIDs(user: UserData, ids: ConversationIds)
      returns (user': UserData, err: Option<string>)
      modifies this
      ensures user' == user.(conversationIds := ids)
      ensures err.None? <==> user.id !in unavailable
      ensures docs == if err.Some? then old(docs) else old(docs)[user.id := user']
    {
      user' := user.(conversationIds := ids);
      err := UpdateUserData(user');
    }
  }

  /** A one-note update keeps every other field of the work and every other date and skill. */
  lemma NoteUpdateFrame(u: UserData, ref: PortfolioRef, date: string, reflection: string, other: string)
    requires ref != NilMap && other != date
    ensures var w := Lookup(Read(u.portfolio, ref), date);
      var r := Store(u, ref, date, w.(reflection := reflection));
      Lookup(Read(r.portfolio, ref), date) == w.(reflection := reflection) &&
      Lookup(Read(r.portfolio, ref), other) == Lookup(Read(u.portfolio, ref), other) &&
      (date in Read(u.portfolio, ref) ==> Read(r.portfolio, ref).Keys == Read(u.portfolio, ref).Keys)
  {
  }

  /** Updating a note at an absent date inserts a work whose other fields are the zero values. */
  lemma NoteUpdateAtAbsentDate(u: UserData, ref: PortfolioRef, date: string, note: string)
    requires ref != NilMap && date !in Read(u.portfolio, ref)
    ensures var r := Store(u, ref, date, Lookup(Read(u.portfolio, ref), date).(aiNote := note));
      Read(r.portfolio, ref)[date] == ZeroWork.(aiNote := note)
  {
  }
}
