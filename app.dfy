/** The application object the handlers of linebot/app run against (App in linebot/app/app.go):
    the two Firestore collections, the LINE client and the bucket, plus the services the model
    does not implement (GPT, the pose-estimation server, ffmpeg, the local file system, the
    clock), each fixed as a function of its inputs. */
module AppState {
  import opened Wrappers
  import T = Types
  import C = Commons
  import P = Postback
  import S = Sessions
  import U = Users
  import St = Storage
  import LB = LineBot

  /** The message of a message event, after the type switch the handlers make. */
  datatype Message = TextMessage(text: string) | VideoMessage(id: string) | OtherMessage

  datatype EventKind = Follow | MessageEvent(message: Message) | PostbackEvent(data: string) | Unsupported

  datatype Event = Event(kind: EventKind, userId: string, replyToken: string)

  /** A pose-estimation response: the processed video (base64 text) and its grade. */
  datatype PoseResponse = PoseResponse(processedVideo: string, grade: C.GradingOutcome)

  const TmpFolder := "./tmp/"

  class App {
    const sessions: S.SessionStore
    const users: U.UserStore
    const bot: LB.Client
    const storage: St.BucketClient
    /** Config.GCP.Storage.BucketName. */
    const bucketName: string
    /** UserStateChnStrToEnum: the rich-menu labels and the state each decodes to. */
    const menuStates: map<string, T.UserState> := T.MenuLabels
    /** ActionStepStrToEnum: the step strings it accepts. */
    const actionSteps: map<string, T.ActionStep>
    /** json.Unmarshal of raw postback text into a generic map. */
    const parseJson: string -> P.JsonDoc
    /** GPT AddMessageToConversation: the reply to a message in a conversation, or an error. */
    const gpt: (string, string) -> Option<string>
    /** createUserGPTConversations: three fresh conversation IDs, or an error. */
    const newConversations: Option<U.ConversationIds>
    /** The folder-path fields CreateUserData copies from a folders record. */
    const folderPathsOf: St.UserFolders -> U.FolderPaths
    /** json.Marshal of a work's grading details; None when marshalling fails. */
    const marshalDetails: seq<C.GradingDetail> -> Option<string>
    /** ProcessVideo's outcome on the attempt with the given index. */
    const pose: nat -> Result<PoseResponse, string>
    /** base64 decoding; None is a decode error. */
    const base64: string -> Option<seq<bv8>>
    /** The expert videos on disk that ffmpeg can stitch against. */
    const proVideos: set<string>
    /** The videos from which ffmpeg fails to extract a thumbnail. */
    const thumbnailFailures: set<string>
    /** The local files os.ReadFile finds. */
    const localFiles: map<string, seq<bv8>>
    /** time.Now() in the "2006-01-02-15-04" layout. */
    const now: string

    constructor (sessions: S.SessionStore, users: U.UserStore, bot: LB.Client, storage: St.BucketClient,
                 bucketName: string, actionSteps: map<string, T.ActionStep>,
                 parseJson: string -> P.JsonDoc, gpt: (string, string) -> Option<string>,
                 newConversations: Option<U.ConversationIds>, folderPathsOf: St.UserFolders -> U.FolderPaths,
                 marshalDetails: seq<C.GradingDetail> -> Option<string>, pose: nat -> Result<PoseResponse, string>,
                 base64: string -> Option<seq<bv8>>, proVideos: set<string>, thumbnailFailures: set<string>,
                 localFiles: map<string, seq<bv8>>, now: string)
      ensures this.sessions == sessions && this.users == users && this.bot == bot && this.storage == storage
      ensures this.bucketName == bucketName && this.actionSteps == actionSteps
      ensures this.parseJson == parseJson && this.gpt == gpt && this.newConversations == newConversations
      ensures this.folderPathsOf == folderPathsOf && this.marshalDetails == marshalDetails && this.pose == pose
      ensures this.base64 == base64 && this.proVideos == proVideos && this.thumbnailFailures == thumbnailFailures
      ensures this.localFiles == localFiles && this.now == now
    {
      this.sessions := sessions;
      this.users := users;
      this.bot := bot;
      this.storage := storage;
      this.bucketName := bucketName;
      this.actionSteps := actionSteps;
      this.parseJson := parseJson;
      this.gpt := gpt;
      this.newConversations := newConversations;
      this.folderPathsOf := folderPathsOf;
      this.marshalDetails := marshalDetails;
      this.pose := pose;
      this.base64 := base64;
      this.proVideos := proVideos;
      this.thumbnailFailures := thumbnailFailures;
      this.localFiles := localFiles;
      this.now := now;
    }
  }

  /** What the handlers can change: the two collections, the replies sent and the bucket. */
  datatype World = World(sessions: map<string, S.UserSession>, users: map<string, U.UserData>,
                         trace: seq<LB.Reply>, objects: map<string, St.StoredObject>)

  function WorldOf(app: App): World
    reads app.sessions, app.users, app.bot, app.storage
  {
    World(app.sessions.docs, app.users.docs, app.bot.trace, app.storage.objects)
  }

  /** The sessions collection after a Set of `s` under `id`: a failing document keeps its value. */
  function Put(docs: map<string, S.UserSession>, unavailable: set<string>, id: string, s: S.UserSession)
    : (r: map<string, S.UserSession>)
    ensures r.Keys == docs.Keys + (if id in unavailable then {} else {id})
    ensures id !in unavailable ==> r[id] == s
    ensures forall k :: k in docs && (k != id || id in unavailable) ==> r[k] == docs[k]
  {
    if id in unavailable then docs else docs[id := s]
  }

  /** The sessions collection after ResetSession(id). */
  function Reset(docs: map<string, S.UserSession>, unavailable: set<string>, id: string)
    : (r: map<string, S.UserSession>)
    ensures id !in unavailable ==> id in r && r[id] == S.DefaultSession
    ensures forall other :: other != id ==> (other in r <==> other in docs)
  {
    Put(docs, unavailable, id, S.DefaultSession)
  }

  lemma ResetIdempotent(docs: map<string, S.UserSession>, unavailable: set<string>, id: string)
    ensures Reset(Reset(docs, unavailable, id), unavailable, id) == Reset(docs, unavailable, id)
  {
  }

  function DefaultErrorReply(token: string): LB.Reply {
    LB.Reply(token, LB.Text(LB.DefaultErrorText))
  }

  /** getPostbackData: the postback text, or "" for every other kind of event. */
  function PostbackData(ev: Event): (raw: string)
    ensures ev.kind.PostbackEvent? ==> raw == ev.kind.data
    ensures !ev.kind.PostbackEvent? ==> raw == ""
  {
    if ev.kind.PostbackEvent? then ev.kind.data else ""
  }

  /** The generic map the raw postback text unmarshals to; empty text is not JSON. */
  function Json(app: App, raw: string): (doc: P.JsonDoc)
    ensures raw == "" ==> doc == P.NotAnObject
    ensures raw != "" ==> doc == app.parseJson(raw)
  {
    if raw == "" then P.NotAnObject else app.parseJson(raw)
  }

  /** The text of a text message event, if it is one. */
  function TextOf(ev: Event): Option<string> {
    if ev.kind.MessageEvent? && ev.kind.message.TextMessage? then Some(ev.kind.message.text) else None
  }
}
