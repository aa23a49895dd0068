/** src/pages/storeAuth.jsx: the zustand store holding the session's token
    and role, with `clearToken` for signing out. The store is wrapped in
    zustand's `persist`: its state lives on in localStorage under
    "auth-donaty", which every `set` rewrites and which is read back when
    the store is created. */
module StoreAuth {
  import opened Js
  import opened Roles
  import Chat

  /** The keys `clearToken` removes, in its order. */
  const ClearedKeys := {DonanteTokenKey, UserKey, AuthProviderKey, HasPasswordKey}

  /** localStorage after `clearToken`'s four `removeItem` calls. */
  function ClearedStorage(st: Storage): (r: Storage)
    ensures forall k :: k in ClearedKeys ==> GetItem(r, k).None?
    ensures forall k :: k !in ClearedKeys ==> GetItem(r, k) == GetItem(st, k)
  {
    st - ClearedKeys
  }

  /** Signing out twice is signing out once. */
  lemma ClearIdempotent(st: Storage)
    ensures ClearedStorage(ClearedStorage(st)) == ClearedStorage(st)
  {
  }

  /** The storage key `persist` uses (`name: "auth-donaty"`). */
  const PersistKey := "auth-donaty"

  /** The persisted part of the state: `JSON.stringify` drops the three
      functions, leaving `token` and `rol`. */
  datatype Saved = Saved(token: Option<string>, rol: Option<string>)

  const Initial := Saved(None, None)

  /** A nullable string as JSON, without escaping. */
  function Literal(v: Option<string>): string {
    match v
    case None => "null"
    case Some(x) => "\"" + x + "\""
  }

  const Head := "{\"state\":{\"token\":"
  const Middle := ",\"rol\":"
  const Tail := "},\"version\":0}"

  /** What `persist` stores: `JSON.stringify({ state, version: 0 })`. */
  function Serialize(s: Saved): string {
    Head + Literal(s.token) + Middle + Literal(s.rol) + Tail
  }

  /** The position of the first `c` in `s`, if any. */
  function IndexOf(s: string, c: char): (r: Option<nat>)
    ensures r.Some? ==> r.value < |s| && s[r.value] == c && c !in s[..r.value]
    ensures r.None? ==> c !in s
  {
    if s == [] then None
    else if s[0] == c then Some(0)
    else match IndexOf(s[1..], c)
      case None => None
      case Some(j) => Some(j + 1)
  }

  /** A JSON `null` or string at the start of `s`, and the text after it. */
  function ReadLiteral(s: string): Option<(Option<string>, string)> {
    if StartsWith(s, "null") then Some((None, s[4..]))
    else if s != [] && s[0] == '"' then
      match IndexOf(s[1..], '"')
      case None => None
      case Some(j) => Some((Some(s[1..][..j]), s[1..][j + 1..]))
    else None
  }

  /** `JSON.parse` of the saved text, for text of the shape `persist`
      writes; anything else is unreadable (`None`). */
  function Parse(text: string): Option<Saved> {
    if !StartsWith(text, Head) then None
    else match ReadLiteral(text[|Head|..])
      case None => None
      case Some((t, rest)) =>
        if !StartsWith(rest, Middle) then None
        else match ReadLiteral(rest[|Middle|..])
          case None => None
          case Some((r, rest')) => if rest' == Tail then Some(Saved(t, r)) else None
  }

  /** The state the store starts with: what `persist` reads back, merged
      over the initial nulls; nothing saved or nothing readable leaves the
      initial state. */
  function Rehydrate(st: Storage): Saved {
    match GetItem(st, PersistKey)
    case None => Initial
    case Some(text) =>
      match Parse(text)
      case None => Initial
      case Some(s) => s
  }

  /** The write `persist` adds to every `set`. */
  function Persist(st: Storage, s: Saved): (r: Storage)
    ensures GetItem(r, PersistKey) == Some(Serialize(s))
    ensures forall k :: k != PersistKey ==> GetItem(r, k) == GetItem(st, k)
  {
    st[PersistKey := Serialize(s)]
  }

  /** localStorage after `clearToken`: `set` saves the null state, then the
      four keys are removed. */
  function SignedOut(st: Storage): Storage {
    Persist(ClearedStorage(st), Initial)
  }

  /** A string JSON can hold here without escaping. */
  predicate Unquoted(v: Option<string>) {
    v.None? || '"' !in v.value
  }

  lemma {:induction false} IndexOfFirst(x: string, c: char, rest: string)
    requires c !in x
    ensures IndexOf(x + [c] + rest, c) == Some(|x|)
  {
    if x != [] {
      assert (x + [c] + rest)[1..] == x[1..] + [c] + rest;
      IndexOfFirst(x[1..], c, rest);
    }
  }

  lemma ReadLiteralOf(v: Option<string>, rest: string)
    requires Unquoted(v)
    ensures ReadLiteral(Literal(v) + rest) == Some((v, rest))
  {
    var s := Literal(v) + rest;
    if v.Some? {
      var x := v.value;
      assert s[1..] == x + ['"'] + rest;
      IndexOfFirst(x, '"', rest);
      assert s[1..][..|x|] == x;
      assert s[1..][|x| + 1..] == rest;
    } else {
      assert s[4..] == rest;
    }
  }

  lemma PrefixOf(a: string, b: string)
    ensures StartsWith(a + b, a) && (a + b)[|a|..] == b
  {
    assert (a + b)[..|a|] == a;
  }

  /** Reading back what `persist` wrote gives the state that was saved. */
  lemma {:induction false} ParseSerialize(s: Saved)
    requires Unquoted(s.token) && Unquoted(s.rol)
    ensures Parse(Serialize(s)) == Some(s)
  {
    var afterRol := Literal(s.rol) + Tail;
    var afterToken := Middle + afterRol;
    var body := Literal(s.token) + afterToken;
    assert Serialize(s) == Head + body;
    PrefixOf(Head, body);
    ReadLiteralOf(s.token, afterToken);
    PrefixOf(Middle, afterRol);
    ReadLiteralOf(s.rol, Tail);
  }

  /** A store created after a `set` starts from the state that `set` left. */
  lemma ReloadSeesLastSet(st: Storage, s: Saved)
    requires Unquoted(s.token) && Unquoted(s.rol)
    ensures Rehydrate(Persist(st, s)) == s
  {
    ParseSerialize(s);
  }

  /** A store created after signing out starts with `token` and `rol` null. */
  lemma ReloadAfterSignOut(st: Storage)
    ensures Rehydrate(SignedOut(st)) == Initial
  {
    ParseSerialize(Initial);
  }

  /** Signing out leaves the stored role and the admin and collector tokens
      in place, so a staff member's chat still finds its token afterwards;
      a donor's token is gone. */
  lemma ClearKeepsStaffSession(st: Storage)
    ensures GetItem(SignedOut(st), RoleKey) == GetItem(st, RoleKey)
    ensures GetItem(SignedOut(st), AdminTokenKey) == GetItem(st, AdminTokenKey)
    ensures GetItem(SignedOut(st), RecolectorTokenKey) == GetItem(st, RecolectorTokenKey)
    ensures GetItem(st, RoleKey) == Some("admin") ==>
      Chat.GetAuthToken(SignedOut(st)) == GetItem(st, AdminTokenKey)
    ensures GetItem(st, RoleKey) != Some("admin") && GetItem(st, RoleKey) != Some("recolector") ==>
      Chat.GetAuthToken(SignedOut(st)).None?
  {
  }

  class AuthStore {
    var token: Option<string>
    var rol: Option<string>

    /** Creating the store: both fields start null, and `persist` then
        loads the saved state over them. */
    constructor(st: Storage)
      ensures Saved(token, rol) == Rehydrate(st)
    {
      var s := Rehydrate(st);
      token := s.token;
      rol := s.rol;
    }

    method SetToken(t: Option<string>, st: Storage) returns (after: Storage)
      modifies this
      ensures token == t && rol == old(rol)
      ensures after == Persist(st, Saved(t, old(rol)))
    {
      token := t;
      after := st[PersistKey := Serialize(Saved(token, rol))];
    }

    method SetRol(r: Option<string>, st: Storage) returns (after: Storage)
      modifies this
      ensures rol == r && token == old(token)
      ensures after == Persist(st, Saved(old(token), r))
    {
      rol := r;
      after := st[PersistKey := Serialize(Saved(token, rol))];
    }

    /** `clearToken`: both fields to `null` (saved by `persist`), then the
        four storage keys removed. */
    method ClearToken(st: Storage) returns (after: Storage)
      modifies this
      ensures token.None? && rol.None?
      ensures after == SignedOut(st)
    {
      token, rol := None, None;
      after := st[PersistKey := Serialize(Saved(token, rol))];
      after := after - {DonanteTokenKey};
      after := after - {UserKey};
      after := after - {AuthProviderKey};
      after := after - {HasPasswordKey};
    }
  }
}
