/**
  Socket rooms and the record each socket keeps of them (apps/api/src/realtime/realtime.gateway.ts,
  apps/api/src/realtime/realtime.service.ts), beside the memberships they are meant to follow.

  One node; a handler runs as one step.
*/
module Realtime {
  import opened Rows
  import opened Wrappers

  function BoardRoom(boardId: string): string {
    "board:" + boardId
  }

  function UserRoom(workspaceId: string, userId: string): string {
    "user:" + workspaceId + ":" + userId
  }

  /** A socket: the rooms Socket.io holds for it, and `socket.data`. */
  datatype Socket = Socket(
    userId: Option<string>,
    rooms: set<string>,
    boardWorkspaces: map<string, string>,
    notificationWorkspaces: seq<string>)

  type Sockets = map<int, Socket>

  /** What the handlers look up: existing boards with their workspaces, and memberships. */
  datatype Db = Db(workspaces: set<string>, boards: map<string, string>, members: set<(string, string)>)

  // ---- Room names ----

  lemma BoardRoomsDiffer(a: string, b: string)
    ensures BoardRoom(a) == BoardRoom(b) <==> a == b
  {
    assert BoardRoom(a)[6..] == a && BoardRoom(b)[6..] == b;
  }

  lemma RoomKindsDiffer(board: string, workspace: string, user: string)
    ensures BoardRoom(board) != UserRoom(workspace, user)
  {
    assert BoardRoom(board)[0] == 'b' && UserRoom(workspace, user)[0] == 'u';
  }

  lemma OwnRoomsDiffer(v: string, w: string, user: string)
    ensures UserRoom(v, user) == UserRoom(w, user) <==> v == w
  {
    var a, b := UserRoom(v, user), UserRoom(w, user);
    assert a[5..5 + |v|] == v && b[5..5 + |w|] == w;
  }

  lemma RoomParts(w: string, u: string)
    ensures UserRoom(w, u)[5..5 + |w|] == w && UserRoom(w, u)[5 + |w|] == ':' && UserRoom(w, u)[6 + |w|..] == u
  {
  }

  lemma NoColonBehind(v: string, t: string, m: nat)
    requires ':' !in t && 6 + |v| <= m < |UserRoom(v, t)|
    ensures UserRoom(v, t)[m] != ':'
  {
    assert UserRoom(v, t)[m] == t[m - 6 - |v|] && t[m - 6 - |v|] in t;
  }

  /** The last colon of a room name stands before the user id. */
  lemma NotLonger(v: string, t: string, w: string, u: string)
    requires ':' !in t && UserRoom(v, t) == UserRoom(w, u)
    ensures |w| <= |v|
  {
    RoomParts(w, u);
    forall m | 6 + |v| <= m < |UserRoom(v, t)| ensures UserRoom(v, t)[m] != ':' { NoColonBehind(v, t, m); }
  }

  /** Two users' rooms differ as long as user ids hold no colon. */
  lemma UsersRoomsDiffer(v: string, t: string, w: string, u: string)
    requires ':' !in t && ':' !in u && UserRoom(v, t) == UserRoom(w, u)
    ensures v == w && t == u
  {
    NotLonger(v, t, w, u);
    NotLonger(w, u, v, t);
    RoomParts(v, t);
    RoomParts(w, u);
  }

  // ---- Handlers on one socket ----

  function JoinedBoard(s: Socket, boardId: string, workspaceId: string): Socket {
    s.(rooms := s.rooms + {BoardRoom(boardId)}, boardWorkspaces := s.boardWorkspaces[boardId := workspaceId])
  }

  function LeftBoard(s: Socket, boardId: string): Socket {
    s.(rooms := s.rooms - {BoardRoom(boardId)}, boardWorkspaces := s.boardWorkspaces - {boardId})
  }

  function JoinedInbox(s: Socket, workspaceId: string, userId: string): Socket {
    s.(rooms := s.rooms + {UserRoom(workspaceId, userId)},
       notificationWorkspaces := if workspaceId in s.notificationWorkspaces then s.notificationWorkspaces
                                 else s.notificationWorkspaces + [workspaceId])
  }

  function LeftInbox(s: Socket, workspaceId: string, userId: string): Socket {
    s.(rooms := s.rooms - {UserRoom(workspaceId, userId)},
       notificationWorkspaces := Filter((w: string) => w != workspaceId, s.notificationWorkspaces))
  }

  function RoomsOf(boardIds: set<string>): set<string> {
    set b | b in boardIds :: BoardRoom(b)
  }

  function BoardsIn(s: Socket, workspaceId: string): set<string> {
    set b | b in s.boardWorkspaces && s.boardWorkspaces[b] == workspaceId
  }

  function LeftBoards(s: Socket, gone: set<string>): Socket {
    s.(rooms := s.rooms - RoomsOf(gone), boardWorkspaces := s.boardWorkspaces - gone)
  }

  /** Out of the inbox of a workspace and of every board room recorded for it; others are not touched. */
  function Evicted(s: Socket, workspaceId: string, userId: string): Socket {
    if s.userId != Some(userId) then s
    else LeftBoards(LeftInbox(s, workspaceId, userId), BoardsIn(s, workspaceId))
  }

  /** The effect of each handler on all sockets. */
  function JoinBoard(db: Db, sockets: Sockets, sid: int, boardId: string): Sockets
    requires sid in sockets
  {
    var s := sockets[sid];
    if s.userId.Some? && boardId != "" && boardId in db.boards && (db.boards[boardId], s.userId.value) in db.members
    then sockets[sid := JoinedBoard(s, boardId, db.boards[boardId])]
    else sockets
  }

  function LeaveBoard(sockets: Sockets, sid: int, boardId: string): Sockets
    requires sid in sockets
  {
    if boardId != "" then sockets[sid := LeftBoard(sockets[sid], boardId)] else sockets
  }

  function JoinInbox(db: Db, sockets: Sockets, sid: int, workspaceId: string): Sockets
    requires sid in sockets
  {
    var s := sockets[sid];
    if s.userId.Some? && workspaceId != "" && (workspaceId, s.userId.value) in db.members
    then sockets[sid := JoinedInbox(s, workspaceId, s.userId.value)]
    else sockets
  }

  function LeaveInbox(sockets: Sockets, sid: int, workspaceId: string): Sockets
    requires sid in sockets
  {
    var s := sockets[sid];
    if s.userId.Some? && workspaceId != "" then sockets[sid := LeftInbox(s, workspaceId, s.userId.value)] else sockets
  }

  function Evict(sockets: Sockets, workspaceId: string, userId: string): Sockets {
    map sid | sid in sockets :: Evicted(sockets[sid], workspaceId, userId)
  }

  /** The sockets `server.to(room).emit` reaches. */
  function Reached(sockets: Sockets, room: string): set<int> {
    set sid | sid in sockets && room in sockets[sid].rooms
  }

  datatype Reply = Reply(ok: bool, error: Option<string>)

  class Gateway {
    var sockets: Sockets

    constructor ()
      ensures sockets == map[]
    {
      sockets := map[];
    }

    method OnBoardJoin(db: Db, sid: int, body: Option<string>) returns (r: Reply)
      requires sid in sockets
      modifies this
      ensures sockets == JoinBoard(db, old(sockets), sid, if body.Some? then body.value else "")
      ensures r.ok <==> old(sockets)[sid].userId.Some? && body.Some? && body.value != "" && body.value in db.boards
                        && (db.boards[body.value], old(sockets)[sid].userId.value) in db.members
      ensures r.ok ==> BoardRoom(body.value) in sockets[sid].rooms
    {
      var client := sockets[sid];
      if client.userId.None? {
        return Reply(false, Some("unauthenticated"));
      }
      var boardId := if body.Some? then body.value else "";
      if boardId == "" {
        return Reply(false, Some("boardId required"));
      }
      if boardId !in db.boards || (db.boards[boardId], client.userId.value) !in db.members {
        return Reply(false, Some("board not found"));
      }
      client := client.(rooms := client.rooms + {BoardRoom(boardId)});
      client := client.(boardWorkspaces := client.boardWorkspaces[boardId := db.boards[boardId]]);
      sockets := sockets[sid := client];
      return Reply(true, None);
    }

    method OnBoardLeave(sid: int, body: Option<string>) returns (r: Reply)
      requires sid in sockets
      modifies this
      ensures sockets == LeaveBoard(old(sockets), sid, if body.Some? then body.value else "")
      ensures r.ok
    {
      var client := sockets[sid];
      var boardId := if body.Some? then body.value else "";
      if boardId != "" {
        client := client.(rooms := client.rooms - {BoardRoom(boardId)});
        client := client.(boardWorkspaces := client.boardWorkspaces - {boardId});
        sockets := sockets[sid := client];
      }
      return Reply(true, None);
    }

    method OnNotificationsJoin(db: Db, sid: int, body: Option<string>) returns (r: Reply)
      requires sid in sockets
      modifies this
      ensures sockets == JoinInbox(db, old(sockets), sid, if body.Some? then body.value else "")
      ensures r.ok <==> old(sockets)[sid].userId.Some? && body.Some? && body.value != ""
                        && (body.value, old(sockets)[sid].userId.value) in db.members
      ensures r.ok ==> UserRoom(body.value, sockets[sid].userId.value) in sockets[sid].rooms
                       && body.value in sockets[sid].notificationWorkspaces
    {
      var client := sockets[sid];
      if client.userId.None? {
        return Reply(false, Some("unauthenticated"));
      }
      var workspaceId := if body.Some? then body.value else "";
      if workspaceId == "" {
        return Reply(false, Some("workspaceId required"));
      }
      if (workspaceId, client.userId.value) !in db.members {
        return Reply(false, Some("workspace not found"));
      }
      client := client.(rooms := client.rooms + {UserRoom(workspaceId, client.userId.value)});
      if workspaceId !in client.notificationWorkspaces {
        client := client.(notificationWorkspaces := client.notificationWorkspaces + [workspaceId]);
      }
      sockets := sockets[sid := client];
      return Reply(true, None);
    }

    method OnNotificationsLeave(sid: int, body: Option<string>) returns (r: Reply)
      requires sid in sockets
      modifies this
      ensures sockets == LeaveInbox(old(sockets), sid, if body.Some? then body.value else "")
      ensures r.ok
    {
      var client := sockets[sid];
      var workspaceId := if body.Some? then body.value else "";
      if client.userId.Some? && workspaceId != "" {
        client := client.(rooms := client.rooms - {UserRoom(workspaceId, client.userId.value)});
        client := client.(notificationWorkspaces := Filter((w: string) => w != workspaceId,
                                                           client.notificationWorkspaces));
        sockets := sockets[sid := client];
      }
      return Reply(true, None);
    }

    /** Every socket of the user is taken out, in whatever order `fetchSockets` lists them. */
    method EvictUserFromWorkspace(workspaceId: string, userId: string, fetched: seq<int>)
      requires Distinct(fetched) && forall sid :: sid in fetched <==> sid in sockets
      modifies this
      ensures sockets == Evict(old(sockets), workspaceId, userId)
    {
      ghost var start := sockets;
      for i := 0 to |fetched|
        invariant sockets.Keys == start.Keys
        invariant forall sid | sid in start ::
                    sockets[sid] == if sid in fetched[..i] then Evicted(start[sid], workspaceId, userId) else start[sid]
      {
        var sid := fetched[i];
        assert sid !in fetched[..i] && fetched[..i + 1] == fetched[..i] + [sid];
        var socket := EvictSocket(sockets[sid], workspaceId, userId);
        sockets := sockets[sid := socket];
      }
      assert fetched[..|fetched|] == fetched;
      assert forall sid | sid in sockets :: sockets[sid] == Evict(start, workspaceId, userId)[sid];
    }
  }

  /** The body of the eviction's loop, with its inner loop over the recorded boards. */
  method EvictSocket(start: Socket, workspaceId: string, userId: string) returns (socket: Socket)
    ensures socket == Evicted(start, workspaceId, userId)
  {
    if start.userId != Some(userId) {
      return start;
    }
    socket := LeftInbox(start, workspaceId, userId);
    var entries := socket.boardWorkspaces.Keys;
    ghost var before := socket;
    ghost var gone: set<string> := {};
    assert socket == LeftBoards(before, gone);
    while entries != {}
      invariant socket == LeftBoards(before, gone) && entries <= before.boardWorkspaces.Keys
      invariant forall b ::
                b in gone <==> b in before.boardWorkspaces && b !in entries && before.boardWorkspaces[b] == workspaceId
      decreases |entries|
    {
      var boardId :| boardId in entries;
      entries := entries - {boardId};
      if socket.boardWorkspaces[boardId] == workspaceId {
        LeaveOneMore(before, gone, boardId);
        socket := LeftBoard(socket, boardId);
        gone := gone + {boardId};
      }
    }
    assert gone == BoardsIn(start, workspaceId);
  }

  lemma LeaveOneMore(s: Socket, gone: set<string>, boardId: string)
    ensures LeftBoard(LeftBoards(s, gone), boardId) == LeftBoards(s, gone + {boardId})
  {
    assert RoomsOf(gone + {boardId}) == RoomsOf(gone) + {BoardRoom(boardId)};
    assert s.boardWorkspaces - gone - {boardId} == s.boardWorkspaces - (gone + {boardId});
    assert s.rooms - RoomsOf(gone) - {BoardRoom(boardId)} == s.rooms - RoomsOf(gone + {boardId});
  }

  // ---- The two copies agree ----

  /**
    A socket sits in exactly the board rooms it records and the inboxes it records, and in no
    other room.
  */
  ghost predicate Agrees(s: Socket) {
    && (s.userId.Some? ==> ':' !in s.userId.value)
    && (forall b :: BoardRoom(b) in s.rooms <==> b in s.boardWorkspaces)
    && (forall w :: s.userId.Some? ==> (UserRoom(w, s.userId.value) in s.rooms <==> w in s.notificationWorkspaces))
    && (forall room | room in s.rooms ::
          (exists b :: room == BoardRoom(b)) || (s.userId.Some? && exists w :: room == UserRoom(w, s.userId.value)))
    && (s.userId.None? ==> s.notificationWorkspaces == [] && s.boardWorkspaces == map[])
  }

  lemma JoinedBoardAgrees(s: Socket, boardId: string, workspaceId: string)
    requires Agrees(s) && s.userId.Some?
    ensures Agrees(JoinedBoard(s, boardId, workspaceId))
  {
    forall b ensures BoardRoom(b) == BoardRoom(boardId) <==> b == boardId { BoardRoomsDiffer(b, boardId); }
    forall w ensures UserRoom(w, s.userId.value) != BoardRoom(boardId) { RoomKindsDiffer(boardId, w, s.userId.value); }
  }

  lemma LeftBoardAgrees(s: Socket, boardId: string)
    requires Agrees(s)
    ensures Agrees(LeftBoard(s, boardId))
  {
    forall b ensures BoardRoom(b) == BoardRoom(boardId) <==> b == boardId { BoardRoomsDiffer(b, boardId); }
    if s.userId.Some? {
      forall w ensures UserRoom(w, s.userId.value) != BoardRoom(boardId) {
        RoomKindsDiffer(boardId, w, s.userId.value);
      }
    }
  }

  lemma JoinedInboxAgrees(s: Socket, workspaceId: string)
    requires Agrees(s) && s.userId.Some?
    ensures Agrees(JoinedInbox(s, workspaceId, s.userId.value))
  {
    var u := s.userId.value;
    forall b ensures BoardRoom(b) != UserRoom(workspaceId, u) { RoomKindsDiffer(b, workspaceId, u); }
    forall w ensures UserRoom(w, u) == UserRoom(workspaceId, u) <==> w == workspaceId {
      OwnRoomsDiffer(w, workspaceId, u);
    }
  }

  lemma LeftInboxAgrees(s: Socket, workspaceId: string)
    requires Agrees(s) && s.userId.Some?
    ensures Agrees(LeftInbox(s, workspaceId, s.userId.value))
  {
    var u := s.userId.value;
    FilterIn((w: string) => w != workspaceId, s.notificationWorkspaces);
    forall b ensures BoardRoom(b) != UserRoom(workspaceId, u) { RoomKindsDiffer(b, workspaceId, u); }
    forall w ensures UserRoom(w, u) == UserRoom(workspaceId, u) <==> w == workspaceId {
      OwnRoomsDiffer(w, workspaceId, u);
    }
  }

  lemma EvictedAgrees(s: Socket, workspaceId: string, userId: string)
    requires Agrees(s)
    ensures Agrees(Evicted(s, workspaceId, userId))
  {
    if s.userId == Some(userId) {
      LeftInboxAgrees(s, workspaceId);
      LeftBoardsAgrees(LeftInbox(s, workspaceId, userId), BoardsIn(s, workspaceId));
    }
  }

  lemma LeftBoardsAgrees(s: Socket, gone: set<string>)
    requires Agrees(s)
    ensures Agrees(LeftBoards(s, gone))
  {
    forall b ensures BoardRoom(b) in RoomsOf(gone) <==> b in gone {
      forall c | c in gone && BoardRoom(c) == BoardRoom(b) ensures b == c { BoardRoomsDiffer(b, c); }
    }
    if s.userId.Some? {
      forall w ensures UserRoom(w, s.userId.value) !in RoomsOf(gone) {
        forall b ensures BoardRoom(b) != UserRoom(w, s.userId.value) { RoomKindsDiffer(b, w, s.userId.value); }
      }
    }
  }

  // ---- Runs ----

  datatype World = World(
    db: Db,
    sockets: Sockets,
    usedWorkspaces: set<string>,
    usedBoards: map<string, string>,
    // memberships taken away whose eviction has not run yet
    owed: set<(string, string)>)

  datatype Step =
    | Connect(sid: int)
    | Authenticate(sid: int, user: string)
    | Disconnect(sid: int)
    | BoardJoin(sid: int, boardId: string)
    | BoardLeave(sid: int, boardId: string)
    | NotificationsJoin(sid: int, workspaceId: string)
    | NotificationsLeave(sid: int, workspaceId: string)
    | AddWorkspace(workspaceId: string)
    | AddMember(workspaceId: string, user: string)
    | AddBoard(boardId: string, workspaceId: string)
    | RemoveMember(workspaceId: string, user: string)
    | RunEviction(workspaceId: string, user: string)
    | DeleteBoard(boardId: string)
    | DeleteWorkspace(workspaceId: string)

  /** Ids are never issued twice, users have colon-free ids, and handlers run on open sockets. */
  predicate Enabled(w: World, step: Step) {
    match step
    case Connect(sid) => sid !in w.sockets
    case Authenticate(sid, user) => sid in w.sockets && w.sockets[sid].userId.None? && ':' !in user
    case Disconnect(sid) => sid in w.sockets
    case BoardJoin(sid, _) => sid in w.sockets
    case BoardLeave(sid, _) => sid in w.sockets
    case NotificationsJoin(sid, _) => sid in w.sockets
    case NotificationsLeave(sid, _) => sid in w.sockets
    case AddWorkspace(ws) => ws !in w.usedWorkspaces
    case AddMember(ws, user) => ws in w.db.workspaces
    case AddBoard(b, ws) => b !in w.usedBoards && ws in w.db.workspaces
    case RemoveMember(ws, user) => true
    case RunEviction(ws, user) => true
    case DeleteBoard(b) => true
    case DeleteWorkspace(ws) => true
  }

  function Apply(w: World, step: Step): World
    requires Enabled(w, step)
  {
    match step
    case Connect(sid) => w.(sockets := w.sockets[sid := Socket(None, {}, map[], [])])
    case Authenticate(sid, user) => w.(sockets := w.sockets[sid := w.sockets[sid].(userId := Some(user))])
    case Disconnect(sid) => w.(sockets := w.sockets - {sid})
    case BoardJoin(sid, b) => w.(sockets := JoinBoard(w.db, w.sockets, sid, b))
    case BoardLeave(sid, b) => w.(sockets := LeaveBoard(w.sockets, sid, b))
    case NotificationsJoin(sid, ws) => w.(sockets := JoinInbox(w.db, w.sockets, sid, ws))
    case NotificationsLeave(sid, ws) => w.(sockets := LeaveInbox(w.sockets, sid, ws))
    case AddWorkspace(ws) =>
      w.(db := w.db.(workspaces := w.db.workspaces + {ws}), usedWorkspaces := w.usedWorkspaces + {ws})
    case AddMember(ws, user) => w.(db := w.db.(members := w.db.members + {(ws, user)}))
    case AddBoard(b, ws) => w.(db := w.db.(boards := w.db.boards[b := ws]), usedBoards := w.usedBoards[b := ws])
    case RemoveMember(ws, user) =>
      w.(db := w.db.(members := w.db.members - {(ws, user)}), owed := w.owed + {(ws, user)})
    case RunEviction(ws, user) => w.(sockets := Evict(w.sockets, ws, user), owed := w.owed - {(ws, user)})
    case DeleteBoard(b) => w.(db := w.db.(boards := w.db.boards - {b}))
    // the cascade takes boards and memberships along; no socket is evicted
    case DeleteWorkspace(ws) =>
      w.(db := Db(w.db.workspaces - {ws},
                  map b | b in w.db.boards && w.db.boards[b] != ws :: w.db.boards[b],
                  set m | m in w.db.members && m.0 != ws))
  }

  predicate Runs(w: World, steps: seq<Step>)
    decreases |steps|
  {
    steps == [] || (Enabled(w, steps[0]) && Runs(Apply(w, steps[0]), steps[1..]))
  }

  function Run(w: World, steps: seq<Step>): World
    requires Runs(w, steps)
    decreases |steps|
  {
    if steps == [] then w else Run(Apply(w, steps[0]), steps[1..])
  }

  const EMPTY := World(Db({}, map[], {}), map[], {}, map[], {})

  /** Inside a workspace that still exists, a room is held by members and by those still to be evicted. */
  ghost predicate Entitled(w: World, workspaceId: string, user: string) {
    workspaceId in w.db.workspaces ==> (workspaceId, user) in w.db.members || (workspaceId, user) in w.owed
  }

  ghost predicate SocketOk(w: World, s: Socket) {
    && Agrees(s)
    && (forall b | b in s.boardWorkspaces ::
          && b in w.usedBoards && w.usedBoards[b] == s.boardWorkspaces[b]
          && s.userId.Some? && Entitled(w, s.boardWorkspaces[b], s.userId.value))
    && (forall ws | ws in s.notificationWorkspaces ::
          ws in w.usedWorkspaces && s.userId.Some? && Entitled(w, ws, s.userId.value))
  }

  ghost predicate DbOk(w: World) {
    && w.db.workspaces <= w.usedWorkspaces
    && (forall b | b in w.db.boards :: b in w.usedBoards && w.usedBoards[b] == w.db.boards[b])
    && (forall b | b in w.usedBoards :: w.usedBoards[b] in w.usedWorkspaces)
    && (forall b | b in w.db.boards :: w.db.boards[b] in w.db.workspaces)
    && (forall m | m in w.db.members :: m.0 in w.db.workspaces)
  }

  ghost predicate Ok(w: World) {
    DbOk(w) && forall sid | sid in w.sockets :: SocketOk(w, w.sockets[sid])
  }

  /** A handler's change to one socket. */
  lemma OneSocket(w: World, sid: int, s: Socket)
    requires Ok(w) && sid in w.sockets && SocketOk(w, s)
    ensures Ok(w.(sockets := w.sockets[sid := s]))
  {
    var w' := w.(sockets := w.sockets[sid := s]);
    forall t | t in w'.sockets ensures SocketOk(w', w'.sockets[t]) {
      assert SocketOk(w, w'.sockets[t]);
    }
  }

  lemma HandlerKeepsOk(w: World, step: Step)
    requires Ok(w) && Enabled(w, step)
    requires step.BoardJoin? || step.BoardLeave? || step.NotificationsJoin? || step.NotificationsLeave?
    ensures Ok(Apply(w, step))
  {
    var s := w.sockets[step.sid];
    assert SocketOk(w, s);
    match step {
      case BoardJoin(sid, b) =>
        if JoinBoard(w.db, w.sockets, sid, b) != w.sockets {
          JoinedBoardAgrees(s, b, w.db.boards[b]);
          OneSocket(w, sid, JoinedBoard(s, b, w.db.boards[b]));
        }
      case BoardLeave(sid, b) =>
        LeftBoardAgrees(s, b);
        OneSocket(w, sid, LeftBoard(s, b));
      case NotificationsJoin(sid, ws) =>
        if JoinInbox(w.db, w.sockets, sid, ws) != w.sockets {
          JoinedInboxAgrees(s, ws);
          OneSocket(w, sid, JoinedInbox(s, ws, s.userId.value));
        }
      case NotificationsLeave(sid, ws) =>
        if s.userId.Some? {
          LeftInboxAgrees(s, ws);
          FilterIn((v: string) => v != ws, s.notificationWorkspaces);
          OneSocket(w, sid, LeftInbox(s, ws, s.userId.value));
        }
    }
  }

  lemma EvictionKeepsOk(w: World, ws: string, user: string)
    requires Ok(w)
    ensures Ok(Apply(w, RunEviction(ws, user)))
  {
    var w' := Apply(w, RunEviction(ws, user));
    forall sid | sid in w'.sockets ensures SocketOk(w', w'.sockets[sid]) {
      var s := w.sockets[sid];
      assert SocketOk(w, s);
      EvictedAgrees(s, ws, user);
      FilterIn((v: string) => v != ws, s.notificationWorkspaces);
    }
  }

  lemma StepKeepsOk(w: World, step: Step)
    requires Ok(w) && Enabled(w, step)
    ensures Ok(Apply(w, step))
  {
    if step.BoardJoin? || step.BoardLeave? || step.NotificationsJoin? || step.NotificationsLeave? {
      HandlerKeepsOk(w, step);
    } else if step.RunEviction? {
      EvictionKeepsOk(w, step.workspaceId, step.user);
    } else {
      OtherStepKeepsOk(w, step);
    }
  }

  lemma OtherStepKeepsOk(w: World, step: Step)
    requires Ok(w) && Enabled(w, step)
    requires !(step.BoardJoin? || step.BoardLeave? || step.NotificationsJoin? || step.NotificationsLeave?
               || step.RunEviction?)
    ensures Ok(Apply(w, step))
  {
    var w' := Apply(w, step);
    forall sid | sid in w'.sockets ensures SocketOk(w', w'.sockets[sid]) {
      if step.Connect? && sid == step.sid {
      } else if step.Authenticate? && sid == step.sid {
        var s := w.sockets[sid];
        assert SocketOk(w, s);
        forall v ensures UserRoom(v, step.user) !in s.rooms {
          forall b ensures BoardRoom(b) != UserRoom(v, step.user) { RoomKindsDiffer(b, v, step.user); }
        }
      } else {
        assert SocketOk(w, w.sockets[sid]);
      }
    }
  }

  lemma {:induction false} RunKeepsOk(w: World, steps: seq<Step>)
    requires Ok(w) && Runs(w, steps)
    ensures Ok(Run(w, steps))
    decreases |steps|
  {
    if steps != [] {
      StepKeepsOk(w, steps[0]);
      RunKeepsOk(Apply(w, steps[0]), steps[1..]);
    }
  }

  /** Over every run, rooms and records agree on every socket. */
  lemma RecordsAgree(steps: seq<Step>, sid: int)
    requires Runs(EMPTY, steps) && sid in Run(EMPTY, steps).sockets
    ensures Agrees(Run(EMPTY, steps).sockets[sid])
  {
    RunKeepsOk(EMPTY, steps);
    assert SocketOk(Run(EMPTY, steps), Run(EMPTY, steps).sockets[sid]);
  }

  /**
    Over every run, an event for an existing board reaches sockets of current members of its
    workspace, and beyond them only users whose eviction is still owed.
  */
  lemma BoardEventsStayInside(steps: seq<Step>, boardId: string, sid: int)
    requires Runs(EMPTY, steps) && boardId in Run(EMPTY, steps).db.boards
    requires sid in Reached(Run(EMPTY, steps).sockets, BoardRoom(boardId))
    ensures var w := Run(EMPTY, steps);
            w.sockets[sid].userId.Some?
            && ((w.db.boards[boardId], w.sockets[sid].userId.value) in w.db.members
                || (w.db.boards[boardId], w.sockets[sid].userId.value) in w.owed)
  {
    RunKeepsOk(EMPTY, steps);
    var w := Run(EMPTY, steps);
    assert SocketOk(w, w.sockets[sid]);
  }

  /** The same for a user's events, which reach that user's sockets only. */
  lemma UserEventsStayPrivate(steps: seq<Step>, workspaceId: string, userId: string, sid: int)
    requires Runs(EMPTY, steps) && ':' !in userId
    requires sid in Reached(Run(EMPTY, steps).sockets, UserRoom(workspaceId, userId))
    ensures var w := Run(EMPTY, steps);
            w.sockets[sid].userId == Some(userId)
            && (workspaceId in w.db.workspaces ==>
                  (workspaceId, userId) in w.db.members || (workspaceId, userId) in w.owed)
  {
    RunKeepsOk(EMPTY, steps);
    var w := Run(EMPTY, steps);
    var s, room := w.sockets[sid], UserRoom(workspaceId, userId);
    assert SocketOk(w, s);
    forall b ensures room != BoardRoom(b) { RoomKindsDiffer(b, workspaceId, userId); }
    var v :| room == UserRoom(v, s.userId.value);
    UsersRoomsDiffer(v, s.userId.value, workspaceId, userId);
  }

  // ---- Who a board event reaches, from the log of a run ----

  /** A join that was let through. */
  predicate Enters(w: World, step: Step, sid: int, boardId: string)
    requires Enabled(w, step)
  {
    && step == BoardJoin(sid, boardId) && boardId != "" && boardId in w.db.boards
    && w.sockets[sid].userId.Some? && (w.db.boards[boardId], w.sockets[sid].userId.value) in w.db.members
  }

  /** A leave, a disconnect, or an eviction of the socket's user from the board's workspace. */
  predicate Exits(w: World, step: Step, sid: int, boardId: string)
    requires Enabled(w, step)
  {
    || step == Disconnect(sid)
    || (step == BoardLeave(sid, boardId) && boardId != "")
    || (step.RunEviction? && sid in w.sockets && w.sockets[sid].userId == Some(step.user)
        && boardId in w.usedBoards && w.usedBoards[boardId] == step.workspaceId)
  }

  /** Over the log: some join was let through and nothing took the socket out since. */
  predicate Joined(w: World, steps: seq<Step>, sid: int, boardId: string, before: bool)
    requires Runs(w, steps)
    decreases |steps|
  {
    if steps == [] then before
    else Joined(Apply(w, steps[0]), steps[1..], sid, boardId,
                Enters(w, steps[0], sid, boardId) || (before && !Exits(w, steps[0], sid, boardId)))
  }

  predicate Sits(w: World, sid: int, boardId: string) {
    sid in w.sockets && BoardRoom(boardId) in w.sockets[sid].rooms
  }

  lemma JoinSits(w: World, sid: int, b: string, other: int, boardId: string)
    requires sid in w.sockets && other in w.sockets
    ensures Sits(Apply(w, BoardJoin(other, b)), sid, boardId)
            <==> Enters(w, BoardJoin(other, b), sid, boardId) || Sits(w, sid, boardId)
  {
    BoardRoomsDiffer(b, boardId);
  }

  lemma LeaveSits(w: World, sid: int, b: string, other: int, boardId: string)
    requires sid in w.sockets && other in w.sockets
    ensures Sits(Apply(w, BoardLeave(other, b)), sid, boardId)
            <==> Sits(w, sid, boardId) && !Exits(w, BoardLeave(other, b), sid, boardId)
  {
    BoardRoomsDiffer(b, boardId);
  }

  lemma InboxSits(w: World, step: Step, sid: int, boardId: string)
    requires Enabled(w, step) && sid in w.sockets && (step.NotificationsJoin? || step.NotificationsLeave?)
    ensures Sits(Apply(w, step), sid, boardId) <==> Sits(w, sid, boardId)
  {
    if w.sockets[step.sid].userId.Some? {
      RoomKindsDiffer(boardId, step.workspaceId, w.sockets[step.sid].userId.value);
    }
  }

  lemma EvictionSits(w: World, ws: string, user: string, sid: int, boardId: string)
    requires Ok(w) && sid in w.sockets
    ensures Sits(Apply(w, RunEviction(ws, user)), sid, boardId)
            <==> Sits(w, sid, boardId) && !Exits(w, RunEviction(ws, user), sid, boardId)
  {
    var s := w.sockets[sid];
    assert SocketOk(w, s);
    if s.userId == Some(user) {
      RoomKindsDiffer(boardId, ws, user);
      var gone := BoardsIn(s, ws);
      assert BoardRoom(boardId) in RoomsOf(gone) <==> boardId in gone by {
        forall b | b in gone && BoardRoom(b) == BoardRoom(boardId) ensures b == boardId {
          BoardRoomsDiffer(b, boardId);
        }
      }
      assert BoardsIn(LeftInbox(s, ws, user), ws) == gone;
    }
  }

  lemma StepSits(w: World, step: Step, sid: int, boardId: string)
    requires Ok(w) && Enabled(w, step)
    ensures Sits(Apply(w, step), sid, boardId)
            <==> Enters(w, step, sid, boardId) || (Sits(w, sid, boardId) && !Exits(w, step, sid, boardId))
  {
    if sid in w.sockets {
      if step.BoardJoin? {
        JoinSits(w, sid, step.boardId, step.sid, boardId);
      } else if step.BoardLeave? {
        LeaveSits(w, sid, step.boardId, step.sid, boardId);
      } else if step.NotificationsJoin? || step.NotificationsLeave? {
        InboxSits(w, step, sid, boardId);
      } else if step.RunEviction? {
        EvictionSits(w, step.workspaceId, step.user, sid, boardId);
      }
    }
  }

  lemma {:induction false} SitsExactlyWhenJoined(w: World, steps: seq<Step>, sid: int, boardId: string)
    requires Ok(w) && Runs(w, steps)
    ensures Sits(Run(w, steps), sid, boardId) <==> Joined(w, steps, sid, boardId, Sits(w, sid, boardId))
    decreases |steps|
  {
    if steps != [] {
      StepKeepsOk(w, steps[0]);
      StepSits(w, steps[0], sid, boardId);
      SitsExactlyWhenJoined(Apply(w, steps[0]), steps[1..], sid, boardId);
    }
  }

  /**
    A board event reaches a socket exactly when a join of it was let through and no leave,
    disconnect or eviction followed; so it reaches a non-member exactly when such a join outlived
    the membership, and then the eviction is still owed.
  */
  lemma NonMemberReachedIff(steps: seq<Step>, boardId: string, sid: int)
    requires Runs(EMPTY, steps) && boardId in Run(EMPTY, steps).db.boards && sid in Run(EMPTY, steps).sockets
    ensures var w := Run(EMPTY, steps);
            sid in Reached(w.sockets, BoardRoom(boardId)) <==> Joined(EMPTY, steps, sid, boardId, false)
    ensures var w := Run(EMPTY, steps);
            Joined(EMPTY, steps, sid, boardId, false) ==>
              && w.sockets[sid].userId.Some?
              && ((w.db.boards[boardId], w.sockets[sid].userId.value) !in w.db.members ==>
                    (w.db.boards[boardId], w.sockets[sid].userId.value) in w.owed)
  {
    SitsExactlyWhenJoined(EMPTY, steps, sid, boardId);
    if sid in Reached(Run(EMPTY, steps).sockets, BoardRoom(boardId)) {
      BoardEventsStayInside(steps, boardId, sid);
    }
  }

  // ---- Who a user event reaches, from the log of a run ----

  /** A notification join that was let through. */
  predicate EntersInbox(w: World, step: Step, sid: int, ws: string)
    requires Enabled(w, step)
  {
    && step == NotificationsJoin(sid, ws) && ws != ""
    && w.sockets[sid].userId.Some? && (ws, w.sockets[sid].userId.value) in w.db.members
  }

  /** A leave, a disconnect, or an eviction of the socket's user from the workspace. */
  predicate ExitsInbox(w: World, step: Step, sid: int, ws: string)
    requires Enabled(w, step)
  {
    || step == Disconnect(sid)
    || (step == NotificationsLeave(sid, ws) && ws != "")
    || (step.RunEviction? && step.workspaceId == ws && sid in w.sockets && w.sockets[sid].userId == Some(step.user))
  }

  /** Over the log: some notification join was let through and nothing took the socket out since. */
  predicate Subscribed(w: World, steps: seq<Step>, sid: int, ws: string, before: bool)
    requires Runs(w, steps)
    decreases |steps|
  {
    if steps == [] then before
    else Subscribed(Apply(w, steps[0]), steps[1..], sid, ws,
                    EntersInbox(w, steps[0], sid, ws) || (before && !ExitsInbox(w, steps[0], sid, ws)))
  }

  predicate InInbox(w: World, sid: int, ws: string) {
    sid in w.sockets && w.sockets[sid].userId.Some? && UserRoom(ws, w.sockets[sid].userId.value) in w.sockets[sid].rooms
  }

  lemma InboxHandler(w: World, step: Step, sid: int, ws: string)
    requires Enabled(w, step) && sid in w.sockets && (step.NotificationsJoin? || step.NotificationsLeave?)
    ensures InInbox(Apply(w, step), sid, ws)
            <==> EntersInbox(w, step, sid, ws) || (InInbox(w, sid, ws) && !ExitsInbox(w, step, sid, ws))
  {
    if step.sid == sid && w.sockets[sid].userId.Some? {
      OwnRoomsDiffer(ws, step.workspaceId, w.sockets[sid].userId.value);
    }
  }

  lemma InboxBoardHandler(w: World, step: Step, sid: int, ws: string)
    requires Enabled(w, step) && sid in w.sockets && (step.BoardJoin? || step.BoardLeave?)
    ensures InInbox(Apply(w, step), sid, ws) <==> InInbox(w, sid, ws)
  {
    if w.sockets[sid].userId.Some? {
      RoomKindsDiffer(step.boardId, ws, w.sockets[sid].userId.value);
    }
  }

  lemma InboxEviction(w: World, evicted: string, user: string, sid: int, ws: string)
    requires sid in w.sockets
    ensures InInbox(Apply(w, RunEviction(evicted, user)), sid, ws)
            <==> InInbox(w, sid, ws) && !ExitsInbox(w, RunEviction(evicted, user), sid, ws)
  {
    var s := w.sockets[sid];
    if s.userId == Some(user) {
      OwnRoomsDiffer(ws, evicted, user);
      forall b | BoardRoom(b) == UserRoom(ws, user) ensures false { RoomKindsDiffer(b, ws, user); }
      assert UserRoom(ws, user) !in RoomsOf(BoardsIn(LeftInbox(s, evicted, user), evicted));
    }
  }

  /** Whoever was not signed in yet sits in no notification room. */
  lemma SigningInIsQuiet(w: World, sid: int, user: string, ws: string)
    requires Ok(w) && Enabled(w, Authenticate(sid, user))
    ensures !InInbox(Apply(w, Authenticate(sid, user)), sid, ws)
  {
    assert SocketOk(w, w.sockets[sid]);
    forall b | BoardRoom(b) == UserRoom(ws, user) ensures false { RoomKindsDiffer(b, ws, user); }
  }

  lemma StepInbox(w: World, step: Step, sid: int, ws: string)
    requires Ok(w) && Enabled(w, step)
    ensures InInbox(Apply(w, step), sid, ws)
            <==> EntersInbox(w, step, sid, ws) || (InInbox(w, sid, ws) && !ExitsInbox(w, step, sid, ws))
  {
    if sid in w.sockets {
      if step.NotificationsJoin? || step.NotificationsLeave? {
        InboxHandler(w, step, sid, ws);
      } else if step.BoardJoin? || step.BoardLeave? {
        InboxBoardHandler(w, step, sid, ws);
      } else if step.RunEviction? {
        InboxEviction(w, step.workspaceId, step.user, sid, ws);
      } else if step.Authenticate? && step.sid == sid {
        SigningInIsQuiet(w, sid, step.user, ws);
      }
    }
  }

  /** Over every run a socket is in its user's room for a workspace exactly when it is subscribed by the log. */
  lemma {:induction false} InInboxExactlyWhenSubscribed(w: World, steps: seq<Step>, sid: int, ws: string)
    requires Ok(w) && Runs(w, steps)
    ensures InInbox(Run(w, steps), sid, ws) <==> Subscribed(w, steps, sid, ws, InInbox(w, sid, ws))
    decreases |steps|
  {
    if steps != [] {
      StepKeepsOk(w, steps[0]);
      StepInbox(w, steps[0], sid, ws);
      InInboxExactlyWhenSubscribed(Apply(w, steps[0]), steps[1..], sid, ws);
    }
  }

  /** A user's event reaches exactly that user's sockets that are subscribed to the workspace. */
  lemma UserEventReachesIff(steps: seq<Step>, ws: string, user: string, sid: int)
    requires Runs(EMPTY, steps) && ':' !in user && sid in Run(EMPTY, steps).sockets
    ensures sid in Reached(Run(EMPTY, steps).sockets, UserRoom(ws, user))
            <==> Run(EMPTY, steps).sockets[sid].userId == Some(user) && Subscribed(EMPTY, steps, sid, ws, false)
  {
    InInboxExactlyWhenSubscribed(EMPTY, steps, sid, ws);
    if sid in Reached(Run(EMPTY, steps).sockets, UserRoom(ws, user)) {
      UserEventsStayPrivate(steps, ws, user, sid);
    }
  }

  lemma {:induction false} RunsJoin(w: World, a: seq<Step>, b: seq<Step>)
    requires Runs(w, a) && Runs(Run(w, a), b)
    ensures Runs(w, a + b) && Run(w, a + b) == Run(Run(w, a), b)
    decreases |a|
  {
    if a == [] {
      assert a + b == b;
    } else {
      assert (a + b)[1..] == a[1..] + b && (a + b)[0] == a[0];
      RunsJoin(Apply(w, a[0]), a[1..], b);
    }
  }

  lemma RunsOne(w: World, step: Step)
    requires Enabled(w, step)
    ensures Runs(w, [step]) && Run(w, [step]) == Apply(w, step)
  {
    assert [step][1..] == [];
  }

  /**
    From every reachable world in which a member sits on a board, taking the membership away and
    nothing more leaves the socket where it is: the next event of the board reaches a non-member.
  */
  lemma RemovalAloneLeaks(steps: seq<Step>, sid: int, boardId: string)
    requires Runs(EMPTY, steps) && boardId in Run(EMPTY, steps).db.boards
    requires sid in Reached(Run(EMPTY, steps).sockets, BoardRoom(boardId))
             && Run(EMPTY, steps).sockets[sid].userId.Some?
    ensures var ws, user := Run(EMPTY, steps).db.boards[boardId], Run(EMPTY, steps).sockets[sid].userId.value;
            && Runs(EMPTY, steps + [RemoveMember(ws, user)])
            && var w := Run(EMPTY, steps + [RemoveMember(ws, user)]);
               boardId in w.db.boards && sid in Reached(w.sockets, BoardRoom(boardId)) && (ws, user) !in w.db.members
  {
    var w := Run(EMPTY, steps);
    var step := RemoveMember(w.db.boards[boardId], w.sockets[sid].userId.value);
    RunsOne(w, step);
    RunsJoin(EMPTY, steps, [step]);
  }

  lemma OneBoard(ws: string, user: string, boardId: string)
    ensures var steps := [AddWorkspace(ws), AddMember(ws, user), AddBoard(boardId, ws)];
            Runs(EMPTY, steps)
            && Run(EMPTY, steps)
               == World(Db({ws}, map[boardId := ws], {(ws, user)}), map[], {ws}, map[boardId := ws], {})
  {
    var s1 := Apply(EMPTY, AddWorkspace(ws));
    var s2 := Apply(s1, AddMember(ws, user));
    RunsOne(EMPTY, AddWorkspace(ws));
    RunsOne(s1, AddMember(ws, user));
    RunsOne(s2, AddBoard(boardId, ws));
    RunsJoin(EMPTY, [AddWorkspace(ws)], [AddMember(ws, user)]);
    RunsJoin(EMPTY, [AddWorkspace(ws)] + [AddMember(ws, user)], [AddBoard(boardId, ws)]);
    assert [AddWorkspace(ws)] + [AddMember(ws, user)] + [AddBoard(boardId, ws)]
           == [AddWorkspace(ws), AddMember(ws, user), AddBoard(boardId, ws)];
  }

  lemma OneSits(w: World, user: string, boardId: string)
    requires w.sockets == map[] && ':' !in user && boardId != "" && boardId in w.db.boards
    requires (w.db.boards[boardId], user) in w.db.members
    ensures var steps := [Connect(0), Authenticate(0, user), BoardJoin(0, boardId)];
            && Runs(w, steps) && Sits(Run(w, steps), 0, boardId)
            && Run(w, steps).sockets[0].userId == Some(user) && Run(w, steps).db == w.db
  {
    var s1 := Apply(w, Connect(0));
    var s2 := Apply(s1, Authenticate(0, user));
    RunsOne(w, Connect(0));
    RunsOne(s1, Authenticate(0, user));
    RunsOne(s2, BoardJoin(0, boardId));
    RunsJoin(w, [Connect(0)], [Authenticate(0, user)]);
    RunsJoin(w, [Connect(0)] + [Authenticate(0, user)], [BoardJoin(0, boardId)]);
    assert [Connect(0)] + [Authenticate(0, user)] + [BoardJoin(0, boardId)]
           == [Connect(0), Authenticate(0, user), BoardJoin(0, boardId)];
  }

  /** Such worlds there are, for every workspace, user and board. */
  lemma MemberSits(ws: string, user: string, boardId: string)
    requires ':' !in user && boardId != ""
    ensures var steps := [AddWorkspace(ws), AddMember(ws, user), AddBoard(boardId, ws)]
                         + [Connect(0), Authenticate(0, user), BoardJoin(0, boardId)];
            && Runs(EMPTY, steps) && boardId in Run(EMPTY, steps).db.boards && Sits(Run(EMPTY, steps), 0, boardId)
            && (ws, user) in Run(EMPTY, steps).db.members && Run(EMPTY, steps).sockets[0].userId == Some(user)
  {
    var a, b := [AddWorkspace(ws), AddMember(ws, user), AddBoard(boardId, ws)],
        [Connect(0), Authenticate(0, user), BoardJoin(0, boardId)];
    OneBoard(ws, user, boardId);
    OneSits(Run(EMPTY, a), user, boardId);
    RunsJoin(EMPTY, a, b);
  }
}
