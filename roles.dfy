/** The role conventions every page repeats: which localStorage key holds the
    bearer token of a role, which path segment a role's endpoints and
    dashboards live under, and the names of the other session keys. Login,
    the Google callback, registration, password reset, the admin dashboard and
    the chat room all spell out the same `role === "admin" ? … : role ===
    "recolector" ? … : …` chain; it is written once here. */
module Roles {
  import opened Js

  const AdminTokenKey := "donatyAdminToken"
  const RecolectorTokenKey := "donatyRecolectorToken"
  const DonanteTokenKey := "donatyToken"
  const RoleKey := "donatyRole"
  const UserKey := "donatyUser"
  const AuthProviderKey := "donatyAuthProvider"
  const HasPasswordKey := "donatyHasPassword"

  /** localStorage: keys to string values. */
  type Storage = map<string, string>

  /** `localStorage.getItem(key)`: `null` (here `None`) when the key is absent. */
  function GetItem(st: Storage, key: string): Option<string> {
    if key in st then Some(st[key]) else None
  }

  /** The key a token is stored under for `role`; any role other than
      "admin" and "recolector" (including a missing one) uses "donatyToken". */
  function TokenKey(role: string): string {
    if role == "admin" then AdminTokenKey
    else if role == "recolector" then RecolectorTokenKey
    else DonanteTokenKey
  }

  /** The path segment of a role: "/admin", "/recolector", and "/donante" for anything else. */
  function Segment(role: string): string {
    if role == "admin" then "/admin"
    else if role == "recolector" then "/recolector"
    else "/donante"
  }

  /** A scheduled `navigate(path, { replace })` that fires after `afterMs` milliseconds. */
  datatype Redirect = Redirect(path: string, afterMs: nat, replace: bool)

  /** The three roles the pages offer. */
  predicate KnownRole(role: string) {
    role == "admin" || role == "recolector" || role == "donante"
  }

  /** Distinct known roles keep their tokens in distinct slots, and an
      unknown role shares the donor's slot. */
  lemma TokenKeySlots(r1: string, r2: string)
    ensures KnownRole(r1) && KnownRole(r2) ==> (TokenKey(r1) == TokenKey(r2) <==> r1 == r2)
    ensures !KnownRole(r1) ==> TokenKey(r1) == TokenKey("donante")
    ensures TokenKey(r1) in {AdminTokenKey, RecolectorTokenKey, DonanteTokenKey}
  {
  }

  /** The session keys are five different keys whatever the role, so writing
      one of them never overwrites another. */
  lemma SessionKeysDistinct(role: string)
    ensures TokenKey(role) != UserKey && TokenKey(role) != RoleKey
    ensures TokenKey(role) != AuthProviderKey && TokenKey(role) != HasPasswordKey
    ensures UserKey != RoleKey && UserKey != AuthProviderKey && UserKey != HasPasswordKey
    ensures RoleKey != AuthProviderKey && RoleKey != HasPasswordKey && AuthProviderKey != HasPasswordKey
  {
  }

  /** The path segment and the token key pick the same one of the three roles. */
  lemma SegmentMatchesTokenKey(role: string)
    ensures Segment(role) == "/admin" <==> TokenKey(role) == AdminTokenKey
    ensures Segment(role) == "/recolector" <==> TokenKey(role) == RecolectorTokenKey
    ensures Segment(role) == "/donante" <==> TokenKey(role) == DonanteTokenKey
  {
  }
}
