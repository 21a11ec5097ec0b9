/**
  What the other components ask about people: accounts, browser sessions and the
  MFA policy (backend/internal/mfa/service.go Required,
  backend/internal/httpapi/oauth.go sessionPrincipal).
 */
module Accounts {

  datatype Option<+T> = None | Some(value: T)

  /** Microseconds, the resolution of a PostgreSQL timestamp. */
  type Time = int

  const MINUTE: Time := 60_000_000

  /** A uuid column. */
  datatype Id = Uuid(n: nat)

  /** A SHA-256 digest in text form. Secrets are stored and looked up under it. */
  datatype Hash = Digest(n: nat)

  datatype User = User(active: bool, mustChangePassword: bool)

  datatype Session = Session(user: Id, expires: Time, revoked: bool, mfaVerified: bool)

  datatype Principal = Principal(session: Hash, user: Id, mustChangePassword: bool, mfaVerified: bool)

  /** Who must use a second factor: everybody, the members of some groups, and the
      users of some applications. */
  datatype Policy = Policy(everyone: bool, groups: set<Id>, members: set<(Id, Id)>, apps: set<Id>)

  predicate GroupRequires(p: Policy, user: Id) {
    exists g :: g in p.groups && (g, user) in p.members
  }

  /** Service.Required; `app` is absent for sign-in and self-service. */
  predicate Required(p: Policy, user: Id, app: Option<Id>) {
    p.everyone || GroupRequires(p, user) || (app.Some? && app.value in p.apps)
  }

  /** The session lookup shared by sessionPrincipal and withPrincipalRaw. */
  function PrincipalOf(users: map<Id, User>, sessions: map<Hash, Session>, h: Hash, now: Time): (r: Option<Principal>)
    ensures r.Some? <==>
              && h in sessions && !sessions[h].revoked && now < sessions[h].expires
              && sessions[h].user in users && users[sessions[h].user].active
    ensures r.Some? ==> r.value.session == h && r.value.user == sessions[h].user
    ensures r.Some? ==> r.value.mfaVerified == sessions[h].mfaVerified
    ensures r.Some? ==> r.value.mustChangePassword == users[sessions[h].user].mustChangePassword
  {
    if h !in sessions then None
    else
      var s := sessions[h];
      if s.revoked || s.expires <= now || s.user !in users || !users[s.user].active then None
      else Some(Principal(h, s.user, users[s.user].mustChangePassword, s.mfaVerified))
  }
}
