/** The generic database hooks: the signed-in user, the user's profile row and the
    user's list of practice sessions, each a cache the hook keeps in step with
    the backend's replies. */
module DatabaseHooks {
  import opened Wrappers
  import opened Backend

  const USER_ID_COLUMN: string := "user_id"

  /** A session as the auth client reports it; it may carry no user. */
  datatype Session = Session(user: Option<User>)

  /** What a hook's mutation answers: `{ error: 'No user ID' }` without a call,
      `{ data, error: null }`, or `{ data: null, error }` after a thrown error. */
  datatype Answer = NoUserId | Answered(data: Option<seq<Row>>) | Errored(message: string)

  /** An awaited `db.insert`: it selects the inserted rows back, so it resolves to
      those rows or throws; it never resolves to `null`. */
  datatype InsertReply = InsertedRows(rows: seq<Row>) | InsertFailed(message: string)

  /** `data?.[0] || null`: the first row, or none for `null` or no rows (a row
      object is always truthy). */
  function FirstRow(reply: Option<seq<Row>>): (r: Option<Row>)
    ensures r.Some? <==> reply.Some? && |reply.value| > 0
    ensures r.Some? ==> r.value == reply.value[0]
  {
    if reply.Some? && |reply.value| > 0 then Some(reply.value[0]) else None
  }

  /** The row `addSession` inserts: the caller's columns with `user_id` set to the
      hook's user, overriding any `user_id` the caller gave. */
  function StampedInsert(sessionData: Row, userId: string): (r: Row)
    ensures r.Keys == sessionData.Keys + {USER_ID_COLUMN}
    ensures r[USER_ID_COLUMN] == Text(userId)
    ensures forall k :: k in sessionData && k != USER_ID_COLUMN ==> r[k] == sessionData[k]
  {
    sessionData[USER_ID_COLUMN := Text(userId)]
  }

  /** `useAuth()`. */
  class AuthState {
    var user: Option<User>
    var loading: bool

    constructor ()
      ensures user.None? && loading
    {
      user := None;
      loading := true;
    }

    /** The initial `getSession()` and every auth-state change do the same thing:
        the session's user, or none when there is no session or it has no user,
        and loading ends. */
    method OnSession(session: Option<Session>)
      modifies this
      ensures user == (if session.Some? then session.value.user else None)
      ensures !loading
    {
      user := if session.Some? then session.value.user else None;
      loading := false;
    }
  }

  /** `useProfile(userId)`. */
  class ProfileCache {
    const userId: Option<string>
    var profile: Option<Row>
    var loading: bool

    constructor (userId: Option<string>)
      ensures this.userId == userId && profile.None?
      ensures loading <==> Truthy(userId)
    {
      this.userId := userId;
      profile := None;
      loading := Truthy(userId);
    }

    /** `fetchProfile` (run on mount when there is a user id): the selected row
        matched on `id`, or none; a thrown error leaves the profile; loading ends. */
    method FetchProfile(reply: DbReply) returns (fetched: bool)
      modifies this`profile, this`loading
      ensures fetched <==> Truthy(userId)
      ensures !fetched ==> unchanged(this)
      ensures fetched ==> !loading
      ensures profile == (if !fetched || reply.DbFailed? then old(profile)
                          else FirstRow(if reply.DbRows? then Some(reply.rows) else None))
    {
      if !Truthy(userId) {
        return false;
      }
      fetched := true;
      match reply {
        case DbRows(rows) => profile := FirstRow(Some(rows));
        case DbNull => profile := None;
        case DbFailed(_) =>
      }
      loading := false;
    }

    /** `updateProfile(updates)`: without a user id it answers `No user ID` and
        calls nothing; otherwise it updates the row whose `id` is the user's, and
        the reply replaces the cached profile unless the update threw. */
    method UpdateProfile(updates: Row, reply: DbReply) returns (request: Option<(Row, string)>, answer: Answer)
      modifies this`profile
      ensures !Truthy(userId) ==> request.None? && answer == NoUserId && unchanged(this)
      ensures Truthy(userId) ==> request == Some((updates, userId.value))
      ensures Truthy(userId) && reply.DbFailed? ==>
                answer == Errored(reply.message) && profile == old(profile)
      ensures Truthy(userId) && !reply.DbFailed? ==>
                var data := if reply.DbRows? then Some(reply.rows) else None;
                answer == Answered(data) && profile == FirstRow(data)
    {
      if !Truthy(userId) {
        return None, NoUserId;
      }
      request := Some((updates, userId.value));
      match reply {
        case DbRows(rows) =>
          profile := FirstRow(Some(rows));
          answer := Answered(Some(rows));
        case DbNull =>
          profile := None;
          answer := Answered(None);
        case DbFailed(message) =>
          answer := Errored(message);
      }
    }
  }

  /** `usePracticeSessions(userId)`. */
  class SessionList {
    const userId: Option<string>
    var sessions: seq<Row>
    var loading: bool

    constructor (userId: Option<string>)
      ensures this.userId == userId && sessions == []
      ensures loading <==> Truthy(userId)
    {
      this.userId := userId;
      sessions := [];
      loading := Truthy(userId);
    }

    /** `fetchSessions` (run on mount when there is a user id): the user's rows, or
        none for `null`; a thrown error leaves the list; loading ends. */
    method FetchSessions(reply: DbReply) returns (fetched: bool)
      modifies this`sessions, this`loading
      ensures fetched <==> Truthy(userId)
      ensures !fetched ==> unchanged(this)
      ensures fetched ==> !loading
      ensures sessions == (if !fetched then old(sessions)
                           else match reply
                             case DbRows(rows) => rows
                             case DbNull => []
                             case DbFailed(_) => old(sessions))
    {
      if !Truthy(userId) {
        return false;
      }
      fetched := true;
      match reply {
        case DbRows(rows) => sessions := rows;
        case DbNull => sessions := [];
        case DbFailed(_) =>
      }
      loading := false;
    }

    /** `addSession(sessionData)`: without a user id it answers `No user ID` and
        calls nothing; otherwise it inserts the caller's row stamped with the
        user id, appends the inserted rows, in order, after the cached ones and
        answers them; a thrown insert is answered and leaves the list. */
    method AddSession(sessionData: Row, reply: InsertReply) returns (insert: Option<Row>, answer: Answer)
      modifies this`sessions
      ensures !Truthy(userId) ==> insert.None? && answer == NoUserId && unchanged(this)
      ensures Truthy(userId) ==> insert == Some(StampedInsert(sessionData, userId.value))
      ensures Truthy(userId) && reply.InsertedRows? ==>
                answer == Answered(Some(reply.rows)) && sessions == old(sessions) + reply.rows
      ensures Truthy(userId) && reply.InsertFailed? ==>
                answer == Errored(reply.message) && sessions == old(sessions)
    {
      if !Truthy(userId) {
        return None, NoUserId;
      }
      insert := Some(StampedInsert(sessionData, userId.value));
      match reply {
        case InsertedRows(rows) =>
          sessions := sessions + rows;
          answer := Answered(Some(rows));
        case InsertFailed(message) =>
          answer := Errored(message);
      }
    }
  }

  /** Two sessions recorded one after the other end up last in the list, in the
      order they were recorded, after everything that was cached before. */
  method TwoSessionsAppendInOrder(list: SessionList, first: Row, second: Row)
    requires Truthy(list.userId)
    modifies list
    ensures list.sessions == old(list.sessions) + [first, second]
  {
    var _, _ := list.AddSession(map[], InsertedRows([first]));
    var _, _ := list.AddSession(map[], InsertedRows([second]));
  }
}
