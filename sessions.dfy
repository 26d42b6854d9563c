/** The per-user session documents of linebot/api/db/sessions.go. */
module Sessions {
  import opened Wrappers
  import T = Types

  /** One session document. `updatedDate` is also the handlers' `UpdatingDate`. */
  datatype UserSession = UserSession(
    skill: string,
    handedness: string,
    updatedDate: string,
    userState: T.UserState,
    actionStep: T.ActionStep)

  /** The record CreateUserSession and ResetSession write. */
  const DefaultSession := UserSession("", "", "", T.None, T.Empty)

  /** The sessions collection. */
  class SessionStore {
    var docs: map<string, UserSession>
    /** Documents on which every request fails, standing for any Firestore error. */
    const unavailable: set<string>

    constructor (docs: map<string, UserSession>, unavailable: set<string>)
      ensures this.docs == docs && this.unavailable == unavailable
    {
      this.docs := docs;
      this.unavailable := unavailable;
    }

    /** What a Get of the document returns, if it succeeds. */
    function Stored(userId: string): Option<UserSession>
      reads this
    {
      if userId in docs && userId !in unavailable then Some(docs[userId]) else None
    }

    /** Fails for a missing or unavailable document, otherwise returns it. */
    method GetUserSession(userId: string) returns (r: Result<UserSession, string>)
      ensures r.Ok? <==> userId in docs && userId !in unavailable
      ensures r.Ok? ==> r.value == docs[userId]
    {
      if userId in docs && userId !in unavailable {
        r := Ok(docs[userId]);
      } else {
        r := Err("error getting user session");
      }
    }

    /** Replaces the whole record. */
    method UpdateUserSession(userId: string, session: UserSession) returns (err: Option<string>)
      modifies this
      ensures err.None? <==> userId !in unavailable
      ensures docs == if userId in unavailable then old(docs) else old(docs)[userId := session]
    {
      if userId in unavailable {
        err := Some("error updating user session");
      } else {
        docs := docs[userId := session];
        err := None;
      }
    }

    /** Writes and returns the default session. */
    method CreateUserSession(userId: string) returns (r: Result<UserSession, string>)
      modifies this
      ensures r.Ok? <==> userId !in unavailable
      ensures r.Ok? ==> r.value == DefaultSession
      ensures docs == if userId in unavailable then old(docs) else old(docs)[userId := DefaultSession]
    {
      var err := UpdateUserSession(userId, DefaultSession);
      if err.Some? {
        return Err(err.value);
      }
      r := Ok(DefaultSession);
    }

    /** Writes the default session whatever was stored: a second reset changes nothing. */
    method ResetSession(userId: string) returns (err: Option<string>)
      modifies this
      ensures err.None? <==> userId !in unavailable
      ensures docs == if userId in unavailable then old(docs) else old(docs)[userId := DefaultSession]
    {
      err := UpdateUserSession(userId, DefaultSession);
    }

    /** Read-modify-write of UserState and ActionStep; every other field is kept. */
    method UpdateSessionUserState(userId: string, state: T.UserState, step: T.ActionStep) returns (err: Option<string>)
      modifies this
      ensures err.None? <==> old(Stored(userId)).Some?
      ensures docs == if old(Stored(userId)).None? then old(docs)
                      else old(docs)[userId := old(docs[userId]).(userState := state, actionStep := step)]
    {
      var got := GetUserSession(userId);
      if got.Err? {
        return Some(got.error);
      }
      var session := got.value.(userState := state);
      session := session.(actionStep := step);
      err := UpdateUserSession(userId, session);
    }

    /** Read-modify-write of Skill alone. */
    method UpdateSessionUserSkill(userId: string, skill: string) returns (err: Option<string>)
      modifies this
      ensures err.None? <==> old(Stored(userId)).Some?
      ensures docs == if old(Stored(userId)).None? then old(docs)
                      else old(docs)[userId := old(docs[userId]).(skill := skill)]
    {
      var got := GetUserSession(userId);
      if got.Err? {
        return Some(got.error);
      }
      err := UpdateUserSession(userId, got.value.(skill := skill));
    }

    /** Read-modify-write of ActionStep alone. */
    method UpdateSessionActionStep(userId: string, step: T.ActionStep) returns (err: Option<string>)
      modifies this
      ensures err.None? <==> old(Stored(userId)).Some?
      ensures docs == if old(Stored(userId)).None? then old(docs)
                      else old(docs)[userId := old(docs[userId]).(actionStep := step)]
    {
      var got := GetUserSession(userId);
      if got.Err? {
        return Some(got.error);
      }
      err := UpdateUserSession(userId, got.value.(actionStep := step));
    }

    /** Read-modify-write of the date alone. */
    method UpdateSessionUpdatingDate(userId: string, date: string) returns (err: Option<string>)
      modifies this
      ensures err.None? <==> old(Stored(userId)).Some?
      ensures docs == if old(Stored(userId)).None? then old(docs)
                      else old(docs)[userId := old(docs[userId]).(updatedDate := date)]
    {
      var got := GetUserSession(userId);
      if got.Err? {
        return Some(got.error);
      }
      err := UpdateUserSession(userId, got.value.(updatedDate := date));
    }

    /** Read-modify-write of Handedness alone. */
    method UpdateSessionHandedness(userId: string, handedness: string) returns (err: Option<string>)
      modifies this
      ensures err.None? <==> old(Stored(userId)).Some?
      ensures docs == if old(Stored(userId)).None? then old(docs)
                      else old(docs)[userId := old(docs[userId]).(handedness := handedness)]
    {
      var got := GetUserSession(userId);
      if got.Err? {
        return Some(got.error);
      }
      err := UpdateUserSession(userId, got.value.(handedness := handedness));
    }
  }
}
