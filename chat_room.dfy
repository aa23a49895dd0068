/** src/components/ChatRoom.jsx: the per-donation chat. The component keeps a
    transcript, a "connecting" flag, a typing indicator and the draft text; it
    loads the room's history once per (room, token), opens one socket per
    (room, token), and reacts to the socket's `connect`, `message`, `typing`
    and `error` events.

    The socket is abstracted to what the component can observe: whether
    `socketRef.current` is set, `socket.connected`, whether its listeners are
    still attached, and an outbox of everything the component emitted, in
    order. Timers are a discrete clock and a queue of due times of the pending
    `setTimeout(() => setTypingUser(null), 1200)` calls. A missing `roomId`
    prop is the empty string.

    `Session` is the whole observable state; the functions below are its
    transitions, and class `ChatRoom` performs them by updating its fields. */
module Chat {
  import opened Js
  import opened Roles
  import opened Http
  import ApiBase

  const DefaultBackend := "http://localhost:4000/api"
  const TypingClearMs := 1200
  const MissingCredentials := "Falta roomId o token para el chat"
  const NotConnected := "Sin conexión al chat"
  const HistoryFallback := "No se pudo cargar el chat"
  const ChatErrorFallback := "Error en chat"
  const SomeoneTyping := "Alguien"

  /** `getBackendBase`: VITE_BACKEND_URL or the local default, one trailing
      slash dropped, then a trailing "/api" dropped. */
  function BackendBase(viteBackendUrl: Option<string>): string {
    var api := DropTrailingSlash(Or(viteBackendUrl, DefaultBackend));
    if EndsWith(api, "/api") then api[..|api| - 4] else api
  }

  /** The backend base is the configured URL minus at most one trailing "/"
      and then at most one trailing "/api", each removed exactly when present. */
  lemma BackendBaseShape(viteBackendUrl: Option<string>)
    ensures var u := Or(viteBackendUrl, DefaultBackend);
            var a := if EndsWith(DropTrailingSlash(u), "/api") then "/api" else "";
            var b := if EndsWith(u, "/") then "/" else "";
            BackendBase(viteBackendUrl) + a + b == u
  {
    var u := Or(viteBackendUrl, DefaultBackend);
    var api := DropTrailingSlash(u);
    if EndsWith(u, "/") {
      assert api + "/" == u;
    }
    if EndsWith(api, "/api") {
      assert api[..|api| - 4] + "/api" == api;
    }
  }

  /** Without VITE_BACKEND_URL the chat talks to the local server's origin. */
  lemma DefaultBackendBase()
    ensures BackendBase(None) == "http://localhost:4000"
  {
    assert !EndsWith(DefaultBackend, "/");
    assert EndsWith(DefaultBackend, "/api");
  }

  /** When VITE_API_URL is unset, the chat's backend base is the socket base
      of src/lib/apiBase.js, and its history URL is `API_BASE` + "/chat/" + room. */
  lemma BackendBaseIsSocketBase(env: ApiBase.Env, roomId: string)
    requires !Truthy(env.viteApiUrl)
    ensures BackendBase(env.viteBackendUrl) == ApiBase.SocketBase(env)
    ensures BackendBase(env.viteBackendUrl) + "/api/chat/" + roomId == ApiBase.ApiBase(env) + "/chat/" + roomId
  {
    var api := DropTrailingSlash(Or(env.viteBackendUrl, DefaultBackend));
    assert ApiBase.RawBase(env) == api;
    ApiBase.SocketBaseAndApi(env);
    if EndsWith(api, "/api") {
      assert api[..|api| - 4] + "/api" == api;
    } else {
      assert ApiBase.ApiBase(env) == api + "/api";
      assert (api + "/api")[..|api + "/api"| - 4] == api;
    }
  }

  /** `getAuthToken`: the stored role chooses which token slot is read. */
  function GetAuthToken(st: Storage): Option<string> {
    match GetItem(st, RoleKey)
    case Some(role) => GetItem(st, TokenKey(role))
    case None => GetItem(st, DonanteTokenKey)
  }

  /** `tokenOverride || getAuthToken()`. */
  function ResolveToken(tokenOverride: Option<string>, st: Storage): Option<string> {
    if Truthy(tokenOverride) then tokenOverride else GetAuthToken(st)
  }

  /** A truthy override wins; otherwise "admin" reads donatyAdminToken,
      "recolector" reads donatyRecolectorToken, and any other or missing role
      reads donatyToken. */
  lemma ResolveTokenChoice(tokenOverride: Option<string>, st: Storage)
    ensures Truthy(tokenOverride) ==> ResolveToken(tokenOverride, st) == tokenOverride
    ensures !Truthy(tokenOverride) && GetItem(st, RoleKey) == Some("admin") ==>
              ResolveToken(tokenOverride, st) == GetItem(st, "donatyAdminToken")
    ensures !Truthy(tokenOverride) && GetItem(st, RoleKey) == Some("recolector") ==>
              ResolveToken(tokenOverride, st) == GetItem(st, "donatyRecolectorToken")
    ensures !Truthy(tokenOverride) && GetItem(st, RoleKey) != Some("admin") && GetItem(st, RoleKey) != Some("recolector") ==>
              ResolveToken(tokenOverride, st) == GetItem(st, "donatyToken")
  {
  }

  /** A chat message as the server sends it. */
  datatype Message = Message(
    id: Option<string>,
    senderId: Option<string>,
    senderRol: Option<string>,
    senderNombre: Option<string>,
    senderEmail: Option<string>,
    text: string,
    createdAt: Option<string>)

  /** The React key of a rendered message: `m._id || `${m.senderId}-${m.createdAt}``. */
  function MessageKey(m: Message): string {
    if Truthy(m.id) then m.id.value else Show(m.senderId) + "-" + Show(m.createdAt)
  }

  /** Keys do not tell messages apart: two different messages without an id,
      from the same sender at the same time, render under the same key, and
      nothing in the component removes either of them. */
  lemma MessageKeyCollides()
    ensures var a := Message(None, Some("u1"), Some("donante"), None, None, "hola", Some("t0"));
            var b := Message(None, Some("u1"), Some("donante"), None, None, "adios", Some("t0"));
            a != b && MessageKey(a) == MessageKey(b)
  {
  }

  /** The role shown beside a message: "donante", "recolector", else the raw
      role, else "admin". */
  function RoleLabel(m: Message): string {
    if m.senderRol == Some("donante") then "donante"
    else if m.senderRol == Some("recolector") then "recolector"
    else Or(m.senderRol, "admin")
  }

  /** The name shown beside a message: name, else e-mail, else "Usuario". */
  function NameLabel(m: Message): string {
    Or3(m.senderNombre, m.senderEmail, "Usuario")
  }

  /** What the component emits on its socket. */
  datatype Emit =
    | JoinRoom(room: string)
    | LeaveRoom(room: string)
    | SendText(room: string, text: string)
    | TypingSignal(room: string)

  /** `io(apiBase, { auth: { token, role: roleOverride } })`. */
  datatype Handshake = Handshake(url: string, token: string, role: Option<string>)

  /** `fetch(`${apiBase}/api/chat/${roomId}`, { Authorization: `Bearer ${token}` })`. */
  datatype HistoryRequest = HistoryRequest(url: string, authorization: string)

  function HistoryRequestFor(apiBase: string, roomId: string, token: string): HistoryRequest {
    HistoryRequest(apiBase + "/api/chat/" + roomId, "Bearer " + token)
  }

  /** The parsed history body: `{ items }`, `items` possibly absent. */
  datatype HistoryBody = HistoryBody(items: Option<seq<Message>>)

  /** The `user` of a `typing` event. */
  datatype TypingUser = TypingUser(nombre: Option<string>, email: Option<string>)

  /** `user?.nombre || user?.email || "Alguien"`. */
  function TypingLabel(user: Option<TypingUser>): string {
    match user
    case Some(u) => Or3(u.nombre, u.email, SomeoneTyping)
    case None => SomeoneTyping
  }

  datatype Session = Session(
    // props, and the memoised base and token
    roomId: string,
    tokenOverride: Option<string>,
    token: Option<string>,
    roleOverride: Option<string>,
    apiBase: string,
    // React state
    messages: seq<Message>,
    text: string,
    connecting: bool,
    typingUser: Option<string>,
    mounted: bool,
    // the socket: `socketRef.current` set, listeners attached, `socket.connected`
    hasSocket: bool,
    socketLive: bool,
    connected: bool,
    // what went out, in order
    outbox: seq<Emit>,
    handshakes: seq<Handshake>,
    historyRequests: seq<HistoryRequest>,
    pendingHistory: nat,
    notices: seq<string>,
    // the timer queue
    clock: nat,
    pendingClears: seq<nat>)

  /** Listeners are attached only to a mounted component's current socket, a
      connected socket is one whose listeners are attached, and every pending
      clear is due in the future. */
  ghost predicate Inv(s: Session) {
    && (s.socketLive ==> s.hasSocket && s.mounted)
    && (s.connected ==> s.socketLive)
    && (forall i :: 0 <= i < |s.pendingClears| ==> s.pendingClears[i] > s.clock)
  }

  /** `roomId && token`, the condition both effects test. */
  predicate HasCredentials(s: Session) {
    s.roomId != "" && Truthy(s.token)
  }

  /** The history effect: the history is fetched only when room and token are truthy. */
  function HistoryEffect(s: Session): Session {
    if HasCredentials(s) then
      s.(historyRequests := s.historyRequests + [HistoryRequestFor(s.apiBase, s.roomId, s.token.value)],
         pendingHistory := s.pendingHistory + 1)
    else s
  }

  /** The socket effect: a socket with listeners when room and token are
      truthy, otherwise the missing credentials are reported. */
  function SocketEffect(s: Session): (r: Session)
    ensures Inv(s) && !s.socketLive && s.mounted ==> Inv(r)
  {
    if HasCredentials(s) then
      s.(handshakes := s.handshakes + [Handshake(s.apiBase, s.token.value, s.roleOverride)],
         hasSocket := true,
         socketLive := true,
         connected := false)
    else
      s.(notices := s.notices + [MissingCredentials])
  }

  /** The two effects on [apiBase, roomId, token], in declaration order. Neither
      touches the transcript, the draft, `connecting` or what was emitted. */
  function RunEffects(s: Session): (r: Session)
    ensures Inv(s) && !s.socketLive && s.mounted ==> Inv(r)
    ensures r.messages == s.messages && r.text == s.text && r.connecting == s.connecting && r.outbox == s.outbox
  {
    SocketEffect(HistoryEffect(s))
  }

  /** The first render and its effects. */
  function Mount(roomId: string, tokenOverride: Option<string>, roleOverride: Option<string>,
                 st: Storage, env: ApiBase.Env): (r: Session)
    ensures Inv(r)
  {
    RunEffects(Session(roomId, tokenOverride, ResolveToken(tokenOverride, st), roleOverride, BackendBase(env.viteBackendUrl),
                       [], "", true, None, true, false, false, false, [], [], [], 0, [], 0, []))
  }

  /** The socket effect's cleanup: `leaveRoom`, then `disconnect()`. It exists
      only when the effect created a socket. `socketRef` keeps the old socket. */
  function Cleanup(s: Session): (r: Session)
    ensures Inv(s) ==> Inv(r) && !r.socketLive
  {
    if s.socketLive then
      s.(outbox := s.outbox + [LeaveRoom(s.roomId)], connected := false, socketLive := false)
    else s
  }

  /** A re-render with effect dependencies `roomId` and `token`: when either
      has a new value, the old effect is cleaned up and both effects run
      again with the new values. The transcript, draft, typing indicator and
      `connecting` are React state and are kept. */
  function ChangeDeps(s: Session, roomId: string, token: Option<string>): (r: Session)
    requires s.mounted
    ensures Inv(s) ==> Inv(r)
  {
    if roomId == s.roomId && token == s.token then s
    else RunEffects(Cleanup(s).(roomId := roomId, token := token))
  }

  /** A new `roomId` prop, with the token as it was. */
  function ChangeRoom(s: Session, roomId: string): (r: Session)
    requires s.mounted
    ensures Inv(s) ==> Inv(r)
    ensures r.token == s.token && (roomId != s.roomId ==> r.roomId == roomId)
  {
    ChangeDeps(s, roomId, s.token)
  }

  /** The memoised token takes a new value (after `tokenOverride` changed),
      in the same room. */
  function ChangeToken(s: Session, token: Option<string>): (r: Session)
    requires s.mounted
    ensures Inv(s) ==> Inv(r)
    ensures r.roomId == s.roomId && (token != s.token ==> r.token == token)
  {
    ChangeDeps(s, s.roomId, token)
  }

  /** A re-render with a `tokenOverride` prop. `useMemo` recomputes the
      token, from the storage of that moment, only when the prop changed;
      the effects run again only when the token's value changed. */
  function ChangeTokenOverride(s: Session, tokenOverride: Option<string>, st: Storage): (r: Session)
    requires s.mounted
    ensures Inv(s) ==> Inv(r)
    ensures r.tokenOverride == tokenOverride
  {
    if tokenOverride == s.tokenOverride then s
    else ChangeToken(s.(tokenOverride := tokenOverride), ResolveToken(tokenOverride, st))
  }

  /** A new `roleOverride` prop. It is not an effect dependency, so nothing
      runs now; the next socket the effect opens carries it. */
  function ChangeRoleOverride(s: Session, roleOverride: Option<string>): (r: Session)
    ensures Inv(s) ==> Inv(r)
    ensures r.handshakes == s.handshakes && r.outbox == s.outbox && r.historyRequests == s.historyRequests
  {
    s.(roleOverride := roleOverride)
  }

  function Unmount(s: Session): (r: Session)
    requires s.mounted
    ensures Inv(s) ==> Inv(r)
  {
    Cleanup(s).(mounted := false)
  }

  /** `data.items || []`. */
  function HistoryItems(b: HistoryBody): seq<Message> {
    match b.items
    case Some(items) => items
    case None => []
  }

  /** A history response: success replaces the transcript (ignored once
      unmounted); failure reports `data.msg` or the fallback. */
  function OnHistory(s: Session, resp: Outcome<HistoryBody>): (r: Session)
    requires s.pendingHistory > 0
    ensures Inv(s) ==> Inv(r)
  {
    var s1 := s.(pendingHistory := s.pendingHistory - 1);
    match resp
    case Ok(body) => if s.mounted then s1.(messages := HistoryItems(body)) else s1
    case Failed(msg) => s1.(notices := s1.notices + [Or(msg, HistoryFallback)])
  }

  /** `connect`: no longer connecting, and join the room. */
  function OnConnect(s: Session): (r: Session)
    requires s.socketLive && !s.connected
    ensures Inv(s) ==> Inv(r)
  {
    s.(connecting := false, connected := true, outbox := s.outbox + [JoinRoom(s.roomId)])
  }

  /** The transport drops. There is no `disconnect` listener: only
      `socket.connected` changes; `connecting` stays as it was. */
  function OnTransportLost(s: Session): (r: Session)
    requires s.connected
    ensures Inv(s) ==> Inv(r)
  {
    s.(connected := false)
  }

  /** `message`: append, never de-duplicated. */
  function OnMessage(s: Session, m: Message): (r: Session)
    requires s.connected
    ensures Inv(s) ==> Inv(r)
  {
    s.(messages := s.messages + [m])
  }

  /** `typing`: show the sender now and schedule an unconditional clear
      1200 ms later; earlier clears stay scheduled. */
  function OnTyping(s: Session, user: Option<TypingUser>): (r: Session)
    requires s.connected
    ensures Inv(s) ==> Inv(r)
  {
    s.(typingUser := Some(TypingLabel(user)), pendingClears := s.pendingClears + [s.clock + TypingClearMs])
  }

  /** `error`: report `err?.msg` or the fallback; nothing else changes. */
  function OnError(s: Session, msg: Option<string>): (r: Session)
    requires s.connected
    ensures Inv(s) ==> Inv(r)
  {
    s.(notices := s.notices + [Or(msg, ChatErrorFallback)])
  }

  /** Some clear in `q` is due by time `t`. */
  predicate AnyDue(q: seq<nat>, t: nat) {
    exists i :: 0 <= i < |q| && q[i] <= t
  }

  /** The clears in `q` still pending after time `t`, in order. */
  function Remaining(q: seq<nat>, t: nat): (r: seq<nat>)
    ensures forall d :: d in r <==> d in q && d > t
    ensures |r| <= |q|
    ensures !AnyDue(q, t) ==> r == q
  {
    if q == [] then []
    else (if q[0] > t then [q[0]] else []) + Remaining(q[1..], t)
  }

  /** Time advances to `t`: every clear due by then fires, and each sets the
      indicator to `null` (a no-op once unmounted). */
  function Tick(s: Session, t: nat): (r: Session)
    requires t >= s.clock
    ensures Inv(s) ==> Inv(r)
  {
    var fired := AnyDue(s.pendingClears, t);
    var q := Remaining(s.pendingClears, t);
    assert forall i :: 0 <= i < |q| ==> q[i] in q;
    s.(clock := t,
       pendingClears := q,
       typingUser := if fired && s.mounted then None else s.typingUser)
  }

  function SetText(s: Session, v: string): (r: Session)
    ensures Inv(s) ==> Inv(r)
  {
    s.(text := v)
  }

  /** `sendMessage`: blank drafts are dropped silently; without a connected
      socket the draft is kept and an error reported; otherwise the trimmed
      text is emitted and the draft cleared. Nothing is added to the transcript. */
  function SendMessage(s: Session): (r: Session)
    ensures Inv(s) ==> Inv(r)
  {
    if Blank(s.text) then s
    else if !(s.hasSocket && s.connected) then s.(notices := s.notices + [NotConnected])
    else s.(outbox := s.outbox + [SendText(s.roomId, Trim(s.text))], text := "")
  }

  /** `notifyTyping`: `socketRef.current?.emit("typing", { roomId })`. */
  function NotifyTyping(s: Session): (r: Session)
    ensures Inv(s) ==> Inv(r)
  {
    if s.hasSocket then s.(outbox := s.outbox + [TypingSignal(s.roomId)]) else s
  }

  /** A room and a token are both needed: without either, no history request
      is made, no socket is created and the problem is reported; with both,
      one of each is made, with the token as bearer and handshake credential. */
  lemma MountGuard(roomId: string, tokenOverride: Option<string>, roleOverride: Option<string>,
                   st: Storage, env: ApiBase.Env)
    ensures var s := Mount(roomId, tokenOverride, roleOverride, st, env);
            var token := ResolveToken(tokenOverride, st);
            var base := BackendBase(env.viteBackendUrl);
            && (roomId == "" || !Truthy(token) ==>
                  s.historyRequests == [] && s.handshakes == [] && !s.hasSocket && s.notices == [MissingCredentials])
            && (roomId != "" && Truthy(token) ==>
                  && s.historyRequests == [HistoryRequest(base + "/api/chat/" + roomId, "Bearer " + token.value)]
                  && s.handshakes == [Handshake(base, token.value, roleOverride)]
                  && s.socketLive && !s.connected && s.connecting && s.notices == [])
  {
  }

  /** History replaces the transcript: loading the same response twice gives
      the same transcript as loading it once, and a failed load leaves it alone. */
  lemma HistoryReplaces(s: Session, resp: Outcome<HistoryBody>)
    requires s.pendingHistory >= 2 && s.mounted
    ensures resp.Ok? ==> OnHistory(s, resp).messages == HistoryItems(resp.body)
    ensures OnHistory(OnHistory(s, resp), resp).messages == OnHistory(s, resp).messages
    ensures resp.Failed? ==> OnHistory(s, resp).messages == s.messages
  {
  }

  /** A run of `message` events, one after the other. */
  function ReceiveAll(s: Session, ms: seq<Message>): (r: Session)
    requires s.connected
    decreases |ms|
  {
    if ms == [] then s else ReceiveAll(OnMessage(s, ms[0]), ms[1..])
  }

  /** The transcript is append-only: after any run of `message` events it is
      the earlier transcript followed by exactly those messages, in arrival order. */
  lemma {:induction false} ReceiveAllAppends(s: Session, ms: seq<Message>)
    requires s.connected
    decreases |ms|
    ensures ReceiveAll(s, ms).messages == s.messages + ms
    ensures forall i :: 0 <= i < |s.messages| ==> ReceiveAll(s, ms).messages[i] == s.messages[i]
  {
    if ms != [] {
      ReceiveAllAppends(OnMessage(s, ms[0]), ms[1..]);
      assert s.messages + [ms[0]] + ms[1..] == s.messages + ms;
    }
  }

  /** `connect` ends the connecting state and emits exactly one `joinRoom`
      for the room; teardown emits `leaveRoom` for the room and disconnects,
      after which no socket event can be delivered. */
  lemma ConnectAndTeardown(s: Session)
    requires Inv(s) && s.socketLive && !s.connected
    ensures var c := OnConnect(s);
            !c.connecting && c.connected && c.outbox == s.outbox + [JoinRoom(s.roomId)]
    ensures var u := Unmount(OnConnect(s));
            u.outbox == s.outbox + [JoinRoom(s.roomId), LeaveRoom(s.roomId)] && !u.connected && !u.socketLive
    ensures var u := Unmount(OnConnect(s));
            Unmount(u.(mounted := true)).outbox == u.outbox
  {
  }

  /** `sendMessage` in its three cases. */
  lemma SendGating(s: Session)
    ensures Blank(s.text) ==> SendMessage(s) == s
    ensures !Blank(s.text) && !(s.hasSocket && s.connected) ==>
              SendMessage(s).outbox == s.outbox && SendMessage(s).text == s.text
              && SendMessage(s).notices == s.notices + [NotConnected]
    ensures !Blank(s.text) && s.hasSocket && s.connected ==>
              SendMessage(s).outbox == s.outbox + [SendText(s.roomId, Trim(s.text))]
              && SendMessage(s).text == "" && SendMessage(s).messages == s.messages
  {
  }

  /** A draft of white space only is never sent, whatever the connection. */
  lemma SpacesAreNotSent(s: Session)
    requires AllSpace(s.text)
    ensures SendMessage(s).outbox == s.outbox
  {
    BlankIffAllSpace(s.text);
  }

  /** A `typing` event shows its sender until its own clear is due. */
  lemma TypingShownUntilDue(s: Session, user: Option<TypingUser>, t: nat)
    requires Inv(s) && s.connected
    requires s.clock <= t < s.clock + TypingClearMs
    requires !AnyDue(s.pendingClears, t)
    ensures Tick(OnTyping(s, user), t).typingUser == Some(TypingLabel(user))
    ensures Tick(OnTyping(s, user), s.clock + TypingClearMs).typingUser == None
  {
    var s1 := OnTyping(s, user);
    var q := s1.pendingClears;
    assert q[|q| - 1] == s.clock + TypingClearMs;
    assert !AnyDue(q, t) by {
      forall i | 0 <= i < |q| ensures q[i] > t {
        if i < |s.pendingClears| {
          assert q[i] == s.pendingClears[i];
        }
      }
    }
  }

  /** A later `typing` event does not postpone an earlier clear: X types at
      T, Y at T+500, and the indicator is cleared at T+1200 by X's timer,
      although Y typed less than 1200 ms before. */
  lemma EarlierClearHidesLaterTyping(s: Session, x: Option<TypingUser>, y: Option<TypingUser>)
    requires Inv(s) && s.connected
    ensures var s1 := Tick(OnTyping(s, x), s.clock + 500);
            var s2 := OnTyping(s1, y);
            && s2.typingUser == Some(TypingLabel(y))
            && Tick(s2, s.clock + TypingClearMs).typingUser == None
  {
    var s0 := OnTyping(s, x);
    var due := s.clock + TypingClearMs;
    assert s0.pendingClears[|s0.pendingClears| - 1] == due;
    var s1 := Tick(s0, s.clock + 500);
    assert due in s1.pendingClears;
    var s2 := OnTyping(s1, y);
    var k :| 0 <= k < |s1.pendingClears| && s1.pendingClears[k] == due;
    assert s2.pendingClears[k] == due;
  }

  /** A room change keeps the old transcript and the `connecting` flag; only
      a new history load replaces the transcript. */
  lemma RoomChangeKeepsState(s: Session, roomId: string)
    requires s.mounted
    ensures ChangeRoom(s, roomId).messages == s.messages
    ensures ChangeRoom(s, roomId).connecting == s.connecting
    ensures roomId != s.roomId && s.socketLive ==>
              ChangeRoom(s, roomId).outbox == s.outbox + [LeaveRoom(s.roomId)]
  {
  }

  /** A new token leaves the old room and, with a room, loads the history and
      opens a socket with the new token as bearer and handshake credential;
      without a token nothing is requested and the problem is reported. */
  lemma TokenChangeReconnects(s: Session, token: Option<string>)
    requires s.mounted && Inv(s) && token != s.token
    ensures var r := ChangeToken(s, token);
      && r.messages == s.messages
      && (s.socketLive ==> r.outbox == s.outbox + [LeaveRoom(s.roomId)])
      && (s.roomId != "" && Truthy(token) ==>
            && r.historyRequests == s.historyRequests + [HistoryRequestFor(s.apiBase, s.roomId, token.value)]
            && r.handshakes == s.handshakes + [Handshake(s.apiBase, token.value, s.roleOverride)]
            && r.socketLive && !r.connected)
      && (!Truthy(token) ==>
            && r.historyRequests == s.historyRequests && r.handshakes == s.handshakes
            && !r.socketLive && r.notices == s.notices + [MissingCredentials])
  {
  }

  /** A role override given while a socket is open is not sent until the
      effect runs again: the next room change's handshake carries it. */
  lemma RoleOverrideWaitsForNextSocket(s: Session, role: Option<string>, roomId: string)
    requires s.mounted && Truthy(s.token) && roomId != "" && roomId != s.roomId
    ensures ChangeRoleOverride(s, role).handshakes == s.handshakes
    ensures var r := ChangeRoom(ChangeRoleOverride(s, role), roomId);
      r.handshakes == s.handshakes + [Handshake(s.apiBase, s.token.value, role)]
  {
  }

  /** The component. Each method is one handler; its contract says the new
      state is the transition above applied to the old state. */
  class ChatRoom {
    var roomId: string
    var tokenOverride: Option<string>
    var token: Option<string>
    var roleOverride: Option<string>
    const apiBase: string
    var messages: seq<Message>
    var text: string
    var connecting: bool
    var typingUser: Option<string>
    var mounted: bool
    var hasSocket: bool
    var socketLive: bool
    var connected: bool
    var outbox: seq<Emit>
    var handshakes: seq<Handshake>
    var historyRequests: seq<HistoryRequest>
    var pendingHistory: nat
    var notices: seq<string>
    var clock: nat
    var pendingClears: seq<nat>

    ghost function State(): Session
      reads this
    {
      Session(roomId, tokenOverride, token, roleOverride, apiBase, messages, text, connecting, typingUser, mounted,
              hasSocket, socketLive, connected, outbox, handshakes, historyRequests, pendingHistory,
              notices, clock, pendingClears)
    }

    ghost predicate Valid()
      reads this
    {
      Inv(State())
    }

    constructor (roomId: string, tokenOverride: Option<string>, roleOverride: Option<string>,
                 st: Storage, env: ApiBase.Env)
      ensures Valid()
      ensures State() == Mount(roomId, tokenOverride, roleOverride, st, env)
    {
      this.roomId := roomId;
      this.tokenOverride := tokenOverride;
      this.token := ResolveToken(tokenOverride, st);
      this.roleOverride := roleOverride;
      this.apiBase := BackendBase(env.viteBackendUrl);
      messages, text, connecting, typingUser, mounted := [], "", true, None, true;
      hasSocket, socketLive, connected := false, false, false;
      outbox, handshakes, historyRequests, pendingHistory, notices := [], [], [], 0, [];
      clock, pendingClears := 0, [];
      new;
      RunSocketEffects();
    }

    /** Both effects for the current room and token. */
    method RunSocketEffects()
      requires !socketLive
      modifies this
      ensures State() == RunEffects(old(State()))
    {
      if roomId != "" && Truthy(token) {
        LoadHistory();
        OpenSocket();
      } else {
        notices := notices + [MissingCredentials];
      }
    }

    method LoadHistory()
      requires HasCredentials(State())
      modifies this
      ensures State() == HistoryEffect(old(State()))
    {
      historyRequests := historyRequests + [HistoryRequestFor(apiBase, roomId, token.value)];
      pendingHistory := pendingHistory + 1;
    }

    method OpenSocket()
      requires HasCredentials(State())
      modifies this
      ensures State() == SocketEffect(old(State()))
    {
      handshakes := handshakes + [Handshake(apiBase, token.value, roleOverride)];
      hasSocket, socketLive, connected := true, true, false;
    }

    method CleanupSocket()
      requires Valid()
      modifies this
      ensures Valid() && !socketLive
      ensures State() == Cleanup(old(State()))
    {
      if socketLive {
        outbox := outbox + [LeaveRoom(roomId)];
        connected := false;
        socketLive := false;
      }
    }

    method SetRoom(newRoomId: string)
      requires Valid() && mounted
      modifies this
      ensures Valid()
      ensures State() == ChangeRoom(old(State()), newRoomId)
    {
      if newRoomId != roomId {
        CleanupSocket();
        roomId := newRoomId;
        RunSocketEffects();
      }
    }

    /** A re-render with a `tokenOverride` prop: `useMemo` recomputes the
        token, from the storage of that moment, only when the prop changed. */
    method SetTokenOverride(newOverride: Option<string>, st: Storage)
      requires Valid() && mounted
      modifies this
      ensures Valid()
      ensures State() == ChangeTokenOverride(old(State()), newOverride, st)
    {
      if newOverride != tokenOverride {
        tokenOverride := newOverride;
        var newToken := ResolveToken(newOverride, st);
        if newToken != token {
          ReplaceToken(newToken);
        }
      }
    }

    /** The effects' cleanup and re-run for a token of a new value. */
    method ReplaceToken(newToken: Option<string>)
      requires Valid() && mounted && newToken != token
      modifies this
      ensures Valid()
      ensures State() == ChangeToken(old(State()), newToken)
    {
      CleanupSocket();
      token := newToken;
      RunSocketEffects();
    }

    method SetRoleOverride(role: Option<string>)
      modifies this
      ensures State() == ChangeRoleOverride(old(State()), role)
    {
      roleOverride := role;
    }

    method Dispose()
      requires Valid() && mounted
      modifies this
      ensures Valid()
      ensures State() == Unmount(old(State()))
    {
      CleanupSocket();
      mounted := false;
    }

    method HistoryLoaded(resp: Outcome<HistoryBody>)
      requires Valid() && pendingHistory > 0
      modifies this
      ensures Valid()
      ensures State() == OnHistory(old(State()), resp)
    {
      pendingHistory := pendingHistory - 1;
      match resp {
        case Ok(body) =>
          if mounted {
            messages := HistoryItems(body);
          }
        case Failed(msg) =>
          notices := notices + [Or(msg, HistoryFallback)];
      }
    }

    method Connect()
      requires Valid() && socketLive && !connected
      modifies this
      ensures Valid()
      ensures State() == OnConnect(old(State()))
    {
      connecting := false;
      connected := true;
      outbox := outbox + [JoinRoom(roomId)];
    }

    method TransportLost()
      requires Valid() && connected
      modifies this
      ensures Valid()
      ensures State() == OnTransportLost(old(State()))
    {
      connected := false;
    }

    method ReceiveMessage(m: Message)
      requires Valid() && connected
      modifies this
      ensures Valid()
      ensures State() == OnMessage(old(State()), m)
      ensures messages == old(messages) + [m]
    {
      messages := messages + [m];
    }

    method ReceiveTyping(user: Option<TypingUser>)
      requires Valid() && connected
      modifies this
      ensures Valid()
      ensures State() == OnTyping(old(State()), user)
    {
      typingUser := Some(TypingLabel(user));
      pendingClears := pendingClears + [clock + TypingClearMs];
    }

    method ReceiveError(msg: Option<string>)
      requires Valid() && connected
      modifies this
      ensures Valid()
      ensures State() == OnError(old(State()), msg)
    {
      notices := notices + [Or(msg, ChatErrorFallback)];
    }

    method AdvanceClock(t: nat)
      requires Valid() && t >= clock
      modifies this
      ensures Valid()
      ensures State() == Tick(old(State()), t)
    {
      var fired := AnyDue(pendingClears, t);
      var q := Remaining(pendingClears, t);
      assert forall i :: 0 <= i < |q| ==> q[i] in q;
      pendingClears := q;
      clock := t;
      if fired && mounted {
        typingUser := None;
      }
    }

    method Type(v: string)
      requires Valid()
      modifies this
      ensures Valid()
      ensures State() == SetText(old(State()), v)
    {
      text := v;
    }

    method Send()
      requires Valid()
      modifies this
      ensures Valid()
      ensures State() == SendMessage(old(State()))
    {
      if Blank(text) {
        return;
      }
      if !(hasSocket && connected) {
        notices := notices + [NotConnected];
        return;
      }
      outbox := outbox + [SendText(roomId, Trim(text))];
      text := "";
    }

    method KeyDown()
      requires Valid()
      modifies this
      ensures Valid()
      ensures State() == NotifyTyping(old(State()))
    {
      if hasSocket {
        outbox := outbox + [TypingSignal(roomId)];
      }
    }
  }
}
