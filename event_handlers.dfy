/** The per-event dispatch of linebot/app/event_handlers.go. */
module EventHandlers {
  import opened Wrappers
  import T = Types
  import S = Sessions
  import U = Users
  import LB = LineBot
  import A = AppState
  import E = ErrorHandlers
  import UU = UserUtils
  import PH = PostbackHandlers
  import MH = MessageHandlers

  /** The sessions collection after createUserSessionIfNotExist for `userId`. */
  function Prepared(docs: map<string, S.UserSession>, unavailable: set<string>, userId: string)
    : (r: map<string, S.UserSession>)
    ensures userId in unavailable ==> r == docs
    ensures userId !in unavailable ==>
      userId in r && r[userId] == if userId in docs then docs[userId] else S.DefaultSession
    ensures forall other :: other != userId ==> (other in r <==> other in docs) && (other in r ==> r[other] == docs[other])
  {
    if userId in docs && userId !in unavailable then docs else A.Put(docs, unavailable, userId, S.DefaultSession)
  }

  /** The welcome text for a user whose profile LINE gives. */
  function Welcome(bot: LB.Client, ev: A.Event): LB.Reply
    requires ev.userId in bot.userNames
  {
    LB.Reply(ev.replyToken, LB.Text(LB.WelcomeText(bot.userNames[ev.userId])))
  }

  /** What handleFollowEvent sends: the welcome, then the default error when the profile
      cannot be read or LINE refuses the welcome. Nothing but the replies changes. */
  ghost predicate FollowEffect(app: A.App, w0: A.World, w1: A.World, ev: A.Event) {
    w1.sessions == w0.sessions && w1.users == w0.users && w1.objects == w0.objects &&
    if ev.userId !in app.bot.userNames then w1.trace == w0.trace + [A.DefaultErrorReply(ev.replyToken)]
    else
      var welcome := Welcome(app.bot, ev);
      w1.trace == w0.trace + [welcome] + if welcome in app.bot.rejected then [A.DefaultErrorReply(ev.replyToken)] else []
  }

  /** handleFollowEvent: the welcome reply; a failure (including a profile LINE will not
      give) is answered with the default error. */
  method HandleFollowEvent(app: A.App, ev: A.Event)
    modifies app.bot
    ensures FollowEffect(app, old(A.WorldOf(app)), A.WorldOf(app), ev)
  {
    var failed := app.bot.SendWelcomeReply(ev.userId, ev.replyToken);
    E.HandleLineError(app, failed, ev.replyToken);
  }

  /** What handleFollowEvent as written does: the welcome when the profile can be read, and
      then the default error in every case. */
  ghost predicate FollowAsWrittenEffect(app: A.App, w0: A.World, w1: A.World, ev: A.Event) {
    w1 == w0.(trace := w0.trace + (if ev.userId in app.bot.userNames then [Welcome(app.bot, ev)] else []) +
                       [A.DefaultErrorReply(ev.replyToken)])
  }

  /** handleFollowEvent as written: SendReply reports an error after every welcome, so the
      default error follows even a welcome LINE accepted. */
  method HandleFollowEventAsWritten(app: A.App, ev: A.Event)
    modifies app.bot
    ensures FollowAsWrittenEffect(app, old(A.WorldOf(app)), A.WorldOf(app), ev)
  {
    var failed := app.bot.SendWelcomeReplyAsWritten(ev.userId, ev.replyToken);
    E.HandleLineError(app, failed, ev.replyToken);
  }

  /** The follow handler as written and the corrected one the event loop uses differ by one
      default error reply, after a welcome LINE accepts; in every other case they agree. */
  lemma FollowAsWrittenDiffers(app: A.App, w0: A.World, w1: A.World, w1': A.World, ev: A.Event)
    requires FollowEffect(app, w0, w1, ev) && FollowAsWrittenEffect(app, w0, w1', ev)
    ensures w1' == if ev.userId in app.bot.userNames && Welcome(app.bot, ev) !in app.bot.rejected
                   then w1.(trace := w1.trace + [A.DefaultErrorReply(ev.replyToken)])
                   else w1
  {
  }

  /** handleUnsupportedEvent: one default error reply, whose own failure is only logged. */
  method HandleUnsupportedEvent(app: A.App, ev: A.Event)
    modifies app.bot
    ensures app.bot.trace == old(app.bot.trace) + [A.DefaultErrorReply(ev.replyToken)]
  {
    var _ := app.bot.SendDefaultErrorReply(ev.replyToken);
  }

  /** The effect of the handler an event's type selects, from the world `w0` left by the
      user and session lookups to the world `w1`. */
  ghost predicate Dispatched(app: A.App, w0: A.World, w1: A.World, ev: A.Event, user: Option<U.UserData>,
                       session: Option<S.UserSession>, panicked: bool)
  {
    match ev.kind
    case Follow => !panicked && FollowEffect(app, w0, w1, ev)
    case MessageEvent(_) => MH.MessageEffect(app, w0, w1, ev, user, session, panicked)
    case PostbackEvent(_) => PH.PostbackEffect(app, w0, w1, ev, user, session, panicked)
    case Unsupported => !panicked && w1 == w0.(trace := w0.trace + [A.DefaultErrorReply(ev.replyToken)])
  }

  /** One iteration of handleEvents on the world `w0`: the user is fetched or created (a
      panic there ends the iteration), the session likewise, then the event is dispatched. */
  ghost predicate EventStep(app: A.App, w0: A.World, ev: A.Event, w1: A.World, panicked: bool) {
    var (userPanicked, user, w) := UU.UserLookup(app, w0, ev.userId);
    if userPanicked then panicked && w1 == w
    else
      var (session, w') := UU.SessionLookup(app, w, ev.userId);
      Dispatched(app, w', w1, ev, user, session, panicked)
  }

  /** One iteration of handleEvents: the user and the session are fetched or created for the
      event's user, then the event goes to the handler of its type. */
  method HandleEvent(app: A.App, ev: A.Event) returns (panicked: bool)
    modifies app.sessions, app.users, app.bot, app.storage
    ensures EventStep(app, old(A.WorldOf(app)), ev, A.WorldOf(app), panicked)
    ensures ev.userId in old(app.users.docs) && ev.userId !in app.users.unavailable && ev.kind.Unsupported? ==>
      !panicked && app.users.docs == old(app.users.docs) &&
      app.sessions.docs == Prepared(old(app.sessions.docs), app.sessions.unavailable, ev.userId) &&
      app.bot.trace == old(app.bot.trace) + [A.DefaultErrorReply(ev.replyToken)]
  {
    var userPanicked, user := UU.CreateUserIfNotExist(app, ev.userId);
    if userPanicked {
      return true;
    }
    var session := UU.CreateUserSessionIfNotExist(app, ev.userId);
    match ev.kind
    case Follow =>
      HandleFollowEvent(app, ev);
      panicked := false;
    case MessageEvent(_) =>
      panicked := MH.HandleMessageEvent(app, ev, user, session);
    case PostbackEvent(_) =>
      panicked := PH.HandlePostbackEvent(app, ev, user, session);
    case Unsupported =>
      HandleUnsupportedEvent(app, ev);
      panicked := false;
  }

  /** The default error replies of a run of unsupported events, in their order. */
  function ErrorReplies(events: seq<A.Event>): seq<LB.Reply>
  {
    if |events| == 0 then [] else ErrorReplies(events[..|events| - 1]) + [A.DefaultErrorReply(events[|events| - 1].replyToken)]
  }

  /** Unsupported events from users whose documents can be read: nothing creates a user. */
  predicate KnownUnsupported(app: A.App, events: seq<A.Event>)
    reads app.users
  {
    forall i :: 0 <= i < |events| ==>
      events[i].kind.Unsupported? && events[i].userId in app.users.docs && events[i].userId !in app.users.unavailable
  }

  /** handleEvents: the events one at a time in list order; a panic ends the request and the
      events after it are never handled. `worlds` are the states between the iterations: each
      handled event takes one to the next, and a panicking one takes a last step. */
  method HandleEvents(app: A.App, events: seq<A.Event>) returns (handled: nat, panicked: bool, ghost worlds: seq<A.World>)
    modifies app.sessions, app.users, app.bot, app.storage
    ensures handled <= |events|
    ensures !panicked ==> handled == |events|
    ensures panicked ==> handled < |events|
    ensures |worlds| == handled + (if panicked then 2 else 1)
    ensures worlds[0] == old(A.WorldOf(app)) && worlds[|worlds| - 1] == A.WorldOf(app)
    ensures forall i :: 0 <= i < |worlds| - 1 ==> EventStep(app, worlds[i], events[i], worlds[i + 1], i == handled)
    ensures old(KnownUnsupported(app, events)) ==>
      !panicked && app.users.docs == old(app.users.docs) &&
      app.bot.trace == old(app.bot.trace) + ErrorReplies(events)
  {
    handled, panicked := 0, false;
    worlds := [A.WorldOf(app)];
    while handled < |events|
      invariant handled <= |events|
      invariant |worlds| == handled + 1
      invariant worlds[0] == old(A.WorldOf(app)) && worlds[handled] == A.WorldOf(app)
      invariant forall i :: 0 <= i < handled ==> EventStep(app, worlds[i], events[i], worlds[i + 1], false)
      invariant old(KnownUnsupported(app, events)) ==>
        app.users.docs == old(app.users.docs) && app.bot.trace == old(app.bot.trace) + ErrorReplies(events[..handled])
    {
      var ev := events[handled];
      panicked := HandleEvent(app, ev);
      worlds := worlds + [A.WorldOf(app)];
      if panicked {
        return;
      }
      assert events[..handled + 1][..handled] == events[..handled];
      handled := handled + 1;
    }
    assert events[..handled] == events;
  }
}
