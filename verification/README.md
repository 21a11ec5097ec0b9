# OpenSSO: a model of its grant engine and the machines around it

OpenSSO is an identity provider: an OAuth 2.0 / OpenID Connect authorization server with a SAML identity
provider, local accounts and second factors. This project models the parts in which state is kept and proves
what every run of them keeps. `dafny verify dfyconfig.toml` checks the whole project.

## The grant engine

Authorization requests turn into codes, codes into families of refresh tokens and access tokens.

- `Scopes` has scope lists: splitting, joining, merging, with the two loops proved against functions.
- `Accounts` has users, sessions and the MFA policy shared by everything else.
- `Ledger` is the specification: five tables, the events that change them (`Enabled`, `Apply`) and runs of
  events. Its events are weaker than atomic handlers where the code does not lock: a revocation may reach only a
  parent-closed part of a family, an approval may start from a stale consent list, tokens may be issued to a user
  who is inactive by then. `Atomic` adds back what an uninterrupted handler guarantees.
- `Families`, `Conservation` and `Provenance` prove the laws of runs: chains, permanent revocation, token counts,
  consent, active users, and the way back from every token to one checked authorize step.
- `GrantLaws` says what those laws come to in columns of the tables and fields of the request alone.
- `GrantServer` has the handlers as methods of a class that change the tables step by step. Each is proved to do
  one event of the ledger or nothing, with the condition of each reply; `Guarantees` hands the laws of runs over
  to it. A number `fault` says which database or entropy call fails, so every rollback path is covered.
- `Interleaving` runs the same transactions statement by statement with row locks held to commit or rollback and
  proves that every interleaving is a run of the ledger. Chains, conservation, `openid`, provenance and single use hold
  there too. Three promises hold only for uninterrupted handlers. Each failure is shown by a run from every suitable
  quiet state, and its exact condition is proved over all interleavings. A family-wide UPDATE can miss a successor
  inserted while it runs (here).
- `TransactionLaws` says what each kind of transaction can commit, by the row it presented.
- `Issuance`: a user can be deactivated between the check that signs the ID token and the commit. Every committed
  issue follows such a check in its own transaction.
- `ConsentRaces`: two consent forms can overwrite each other's merge, which is also the only way a stored scope can
  come to exceed recorded consent.

## Around it

- `Saml`: the request life cycle, as a class and interleaved.
- `Throttle`: account lockout and the Redis window. The window bound proved is 2*limit - 1, one better than twice
  the limit, and a run reaches it.
- `Encoding`: base64, base32 and big-endian integers, used by the next four.
- `Rotation`, `Keys`, `Calendar`, `Certificates`: signing keys and certificates.
- `Passwords`: the Argon2 password string, printer and parser.
- `Recovery`: recovery codes as text. `Mfa`: factors, codes, ceremonies and session assurance as a state machine
  with its laws of runs. `MfaServer`: the handlers, proved against that machine.
- `FactorLaws`: the same run by run in columns of the tables: how factors, codes, marks, sessions and ceremonies come
  and go, and what exactly is open to whom.
- `Assurance`: the MFA requests interleaved statement by statement. Nothing but recovery-code rows is locked, so the
  factor status an enrolment starts from can be out of date when it marks its session. The module says what every
  mark rests on, when an enrolment comes late, and derives the single use of codes and ceremonies; `AssuranceRace`
  has the run in which a session is verified without proof although its user has a factor.
- `AssuranceLaws`: what each change and each mark rests on, in columns at the request's own reads. An enrolment that
  begins late takes an active TOTP factor away; the exact condition is `AssuranceLaws.LateBeginIff`.
- `ScopeLaws`, `EncodingLaws`, `PasswordLaws`, `RecoveryLaws`: the text formats down to single characters.
- `Runs`: the lemmas about one flag along a run that the interleaved modules share.

## Conventions

- SHA-256, the S256 transform, Argon2, the authenticated cipher, PKCS #8, `unicode.ToUpper` and the TOTP check are
  function parameters. Where a proof needs a law it is a named predicate (`Lawful`, `Bound`, `LawfulUpper`).
- Random values are parameters. Where a column is UNIQUE a repeated value makes the insert fail, as in the
  database, so no freshness is assumed; only the family identifiers drawn by RandomUUID, which no constraint
  protects, are assumed unused.
- Times are microseconds on one clock that does not run backwards. A transaction's `now()` is its start.
- Rows with a surrogate key and a unique digest are identified by the digest.
- Where code and documentation differ the code is followed. `docs/mfa.md` says the last factor is protected under
  the effective policy, which includes applications; the code asks for global and group policy only.
  `Mfa.ApplicationRuleDoesNotKeepFactor` shows the difference and `Mfa.LastFactorGoesIff` gives the exact condition.
  The password error message speaks of characters; the code counts bytes.

## Model

| member | source | states |
|---|---|---|
| Scopes.SplitScope | backend/internal/httpapi/oauth.go:918-940 | the loop answers exactly what the specification `Split` says: the pieces, checked and deduplicated, or an error |
| Scopes.SplitAccepts | backend/internal/httpapi/oauth.go:918-940 | a text is accepted if and only if it has a piece and every piece is made of permitted characters; the answer is the distinct pieces in first-occurrence order |
| Scopes.SplitJoinSplit | backend/internal/httpapi/oauth.go:910-916 | split of join of split is split: what is stored reads back unchanged |
| Scopes.Rfc6749ListAccepted | backend/internal/httpapi/oauth.go:918-940 | every non-empty list of scope-tokens of section 3.3 of RFC 6749 is accepted with no token lost |
| Scopes.DedupOrder | backend/internal/httpapi/oauth.go:933-936 | dropping repetitions keeps exactly the distinct members, ordered by first occurrence |
| Scopes.MergeScopes | backend/internal/httpapi/oauth.go:960-968 | the loop computes `Merge` |
| Scopes.MergeProperties | backend/internal/httpapi/oauth.go:960-968 | a merge keeps the old list as a prefix, its set is the union, and it adds no duplicates |
| ScopeLaws.WhiteSpaceIs | backend/internal/httpapi/oauth.go:918-921 | white space is the 25 code points with the White_Space property of Unicode |
| ScopeLaws.CutsAtWhiteSpace | backend/internal/httpapi/oauth.go:918-921 | text is cut at any white space, leading, trailing or repeated, and nowhere else |
| ScopeLaws.CharactersDecide | backend/internal/httpapi/oauth.go:918-940 | a text is accepted if and only if it holds something besides white space and none of that is a control character, DEL, a quotation mark or a backslash |
| ScopeLaws.JoinedBySpaces | backend/internal/httpapi/oauth.go:910-916 | stored lists are separated by single spaces (section 3.3 of RFC 6749) |
| Accounts.PrincipalOf | backend/internal/httpapi/oauth.go:875-891 | a cookie stands for a principal if and only if its session is unrevoked, unexpired and of an active user |
| Families.EveryFamilyIsAChain | backend/internal/httpapi/oauth.go:342-391 | in every state of every run each refresh family is one parent-linked chain whose members share application, user and scope and of which only the tip is unconsumed |
| Families.EventKeepsChains | backend/internal/httpapi/oauth.go:376-390 | each single event keeps every family a chain |
| Families.ChainConsequences | backend/internal/httpapi/oauth.go:354-390 | a token is consumed if and only if it has a successor; successor, root and unconsumed member of a family exist and are unique |
| Families.AtomicRevokeKills | backend/internal/httpapi/oauth.go:365-371 | revoking a family in one step revokes every member and leaves every other family and table as it was |
| Families.DeadForever | backend/internal/httpapi/oauth.go:478-484 | once all members are revoked, in every continuation none refreshes, none introspects active and none is added |
| Families.ActiveMatchesUsable | backend/internal/httpapi/oauth.go:506-517 | a refresh token reported active passes the consumed, revoked and expiry checks of the refresh grant at that instant |
| Families.PartialRevokeKillsIff | backend/internal/httpapi/oauth.go:365-371 | a revocation that saw only part of a family reaches all of it if and only if one of the rows it saw is unconsumed at commit |
| Conservation.TokensAreConserved | backend/internal/httpapi/oauth.go:326-339 | in every state: refresh tokens = consumed codes + consumed refresh tokens, user access tokens = refresh tokens, unconsumed refresh tokens = families = consumed codes |
| Conservation.EveryUserGrantHasOpenid | backend/internal/httpapi/oauth.go:645-650 | every stored request, code, refresh token and user access token has a scope containing `openid` |
| Conservation.TokensOnlyForActiveUsers | backend/internal/httpapi/oauth.go:784-793 | so with atomic handlers no user token is committed for an inactive user; `Issuance.TokensFollowActiveCheck` says what holds of interleaved ones |
| Conservation.ApproveGrowsConsent | backend/internal/httpapi/oauth.go:239-253 | an approval with a fresh reading of the list keeps all consent and covers the approved scopes |
| Conservation.GrantsStayWithinConsent | backend/internal/httpapi/oauth.go:141-151 | with atomic handlers every stored user scope stays within the recorded consent of its user and application, and recorded consent never shrinks |
| Provenance.CodesComeFromAuthorize | backend/internal/httpapi/oauth.go:695-705 | every stored request and code traces back to an authorize step of the same user, application, redirect URI, scope, challenge and nonce, at most seven minutes before the code expires |
| Provenance.ExchangeMatchesAuthorize | backend/internal/httpapi/oauth.go:315-330 | every exchange has an authorize step of the same redirect URI, challenge and nonce at most seven minutes before it; what that step and the verifier had to satisfy is written out in `GrantLaws.ExchangeWasChecked` (RFC 7636, sections 4.1 and 4.6) |
| Provenance.TokensComeFromExchange | backend/internal/httpapi/oauth.go:707-739 | every refresh token and user access token traces back to one code exchange for the same user, application and scope |
| Provenance.SpentOnce | backend/internal/httpapi/oauth.go:326-384 | no two steps of a run exchange the same code or rotate the same refresh token |
| GrantLaws.CodeWasAuthorized | backend/internal/httpapi/oauth.go:108-187 | for every stored code an earlier authorize step, at most seven minutes before it expires, in whose state the client was enabled, the redirect URI registered for it, PKCE S256 present, every scope allowed, the session live and of an active user without a pending password change, and the second factor done if an everyone, group or application rule bound the user |
| GrantLaws.RequestWasAuthorized | backend/internal/httpapi/oauth.go:108-174 | the same for every pending request, at most five minutes before it expires |
| GrantLaws.ExchangeWasChecked | backend/internal/httpapi/oauth.go:300-330 | every exchange is of a live code of the same client and redirect URI, with a verifier of 43 to 128 unreserved characters whose S256 digest is the challenge of the authorize step at most seven minutes before (sections 4.1 and 4.6 of RFC 7636) |
| GrantLaws.ExchangeLeaves | backend/internal/httpapi/oauth.go:326-339 | it uses the code up and adds one refresh token that starts a new family and one access token, for the code's user, application and scope, and nothing else |
| GrantLaws.RotationWasChecked | backend/internal/httpapi/oauth.go:354-390 | every rotation is of a token of the same client, unspent, unrevoked and unexpired, which gains one successor in its family with the same grant, and one access token |
| GrantLaws.RevocationLeaves | backend/internal/httpapi/oauth.go:365-371 | a revocation marks the rows it reached, keeps the first time of rows marked before, and changes nothing else |
| GrantLaws.RevokedFamilyStaysRevoked | backend/internal/httpapi/oauth.go:478-484 | once all its rows are revoked a family gains no row, loses no mark and is never rotated |
| GrantLaws.FamiliesAreChains | backend/internal/httpapi/oauth.go:342-391 | a token is spent if and only if another member of its family names it as parent; parents, root and unspent member are unique; all members share application, user and scope |
| GrantLaws.ApprovalWasChecked | backend/internal/httpapi/oauth.go:208-271 | every approval is of a pending request of that user; it is used up, its scopes join the list the approval started from, and one code with its fields is stored for two minutes |
| GrantLaws.DenialWasChecked | backend/internal/httpapi/oauth.go:208-228 | a denial is of a pending request of that user and only uses it up |
| GrantLaws.AuthorizeLeaves | backend/internal/httpapi/oauth.go:141-187 | a code is granted without a form only within recorded consent; the row holds the query's redirect URI, nonce, challenge and scopes for two minutes, a request for five |
| GrantLaws.TokensAddUp | backend/internal/httpapi/oauth.go:326-339 | the counts of codes, refresh tokens, access tokens and families agree, in table columns |
| GrantLaws.UsersGrantOpenid | backend/internal/httpapi/oauth.go:645-650 | `openid` is in every scope a user has granted |
| GrantLaws.MachineTokens | backend/internal/httpapi/oauth.go:393-419 | machine tokens are for confidential clients, allowed scopes and the client's lifetime, handlers being atomic |
| GrantLaws.IssuedWithinLifetimes | backend/internal/httpapi/oauth.go:707-739 | with atomic handlers tokens go to active users only, through an enabled client of the application, for that client's lifetimes |
| GrantLaws.ScopesWithinConsent | backend/internal/httpapi/oauth.go:239-253 | with atomic handlers every scope of a stored code or token is recorded as consented, and consent is never lost |
| GrantLaws.TokenWasExchanged | backend/internal/httpapi/oauth.go:707-739 | every refresh token comes from an exchange of a code of the same user, application and scope that started its family |
| GrantLaws.AccessTokenWasExchanged | backend/internal/httpapi/oauth.go:707-739 | so does every access token of a user |
| GrantLaws.AccessSteps | backend/internal/httpapi/oauth.go:393-489 | machine tokens are never for `openid`; revoking an access token marks that row of that client only |
| GrantServer.Server.constructor | backend/internal/database/migrations/0003_oidc.sql:1-91 | the tables start empty and the history starts a lawful run |
| GrantServer.Server.ValidateAuthorizationRequest | backend/internal/httpapi/oauth.go:620-651 | accepted if and only if the client is enabled, the redirect URI registered for it, an S256 challenge present and every scope allowed, `openid` among them; which of the three refusals comes when |
| GrantServer.Server.CheckUser | backend/internal/httpapi/oauth.go:113-139 | passes if and only if the session is live and of an active user without a pending password change, verified if an everyone, group or application rule binds the user |
| GrantServer.Server.Authorize | backend/internal/httpapi/oauth.go:108-187 | issues a code exactly when every check passed and recorded consent covers the request; otherwise stores a request or leaves every table alone; which of the three is decided for all inputs without failures |
| GrantServer.Server.StoreCode | backend/internal/httpapi/oauth.go:695-705 | stores one code as one granted step, or, on a digest already used or a failing call, nothing |
| GrantServer.Server.StoreRequest | backend/internal/httpapi/oauth.go:163-174 | stores one authorization request as one step, or, on a digest already used or a failing call, nothing |
| GrantServer.Server.AuthorizeConsent | backend/internal/httpapi/oauth.go:189-272 | a request is decided only by its own signed-in user; approval merges the consent and stores a code in one step, denial only uses the request up, every other reply changes nothing |
| GrantServer.Server.DecideRequest | backend/internal/httpapi/oauth.go:208-271 | the transaction behind it, with the exact condition of each reply: invalid, denied, approved or a failure that changes nothing |
| GrantServer.Server.ApproveRequest | backend/internal/httpapi/oauth.go:229-271 | its second half: approved exactly when no call fails and the code is new, as one step, and otherwise nothing is changed |
| GrantServer.Server.IssueUserTokens | backend/internal/httpapi/oauth.go:707-739 | adds one access row and one refresh row linked to its parent, or fails leaving the transaction's copy unused |
| GrantServer.Server.AuthorizationCodeGrant | backend/internal/httpapi/oauth.go:300-340 | tokens if and only if the code is live and of this client and redirect URI, the verifier well-formed and its digest the challenge, the user active and the new values unused; then exactly those three rows change; otherwise none (section 4.1.3 of RFC 6749) |
| GrantServer.Server.RefreshTokenGrant | backend/internal/httpapi/oauth.go:342-391 | rotation if and only if the token is unspent, unrevoked, unexpired and of this client; presenting a spent or revoked one revokes every row of its family and commits that (section 6 of RFC 6749, section 4.14.2 of RFC 9700); every other refusal changes nothing |
| GrantServer.Server.ClientCredentialsGrant | backend/internal/httpapi/oauth.go:393-419 | a machine token only for a confidential client, allowed scopes and no `openid`, and then exactly one access row |
| GrantServer.Server.RevokeToken | backend/internal/httpapi/oauth.go:463-489 | a refresh token of this client takes its whole family with it, an access token of this client is revoked, and for anything else every table stays as it was (section 2 of RFC 7009) |
| GrantServer.Server.Introspect | backend/internal/httpapi/oauth.go:491-540 | active if and only if the row is the client's, unrevoked, unexpired and, for a refresh token, unconsumed (section 2.2 of RFC 7662) |
| GrantServer.Server.RevokeFamily | backend/internal/httpapi/oauth.go:365-371 | one statement revokes every row of the presented token's family and no other |
| GrantServer.Server.Guarantees | backend/internal/httpapi/oauth.go:300-419 | after any sequence of calls the tables satisfy all the laws proved of runs |
| Interleaving.InterleavingRefinesLedger | backend/internal/httpapi/oauth.go:300-391 | under every statement-level interleaving with FOR UPDATE rows held to commit or rollback, the tables evolve as in a run whose steps are the committed transactions |
| Interleaving.StepRefines | backend/internal/httpapi/oauth.go:305-339 | each statement keeps the invariant on locks and private writes, and a commit is exactly one ledger event while every other statement leaves the visible tables alone |
| Interleaving.InterleavedLaws | backend/internal/httpapi/oauth.go:342-391 | chains, conservation, `openid` and the way back from every code and token to its authorize step hold in every state of every interleaving of the token, revocation and consent transactions, authorize being one step |
| Interleaving.UsedAtMostOnce | backend/internal/httpapi/oauth.go:308-391 | no two committed transactions use up the same authorization request, code or refresh token |
| TransactionLaws.RefreshOrRevoke | backend/internal/httpapi/oauth.go:342-391 | under every interleaving a refresh transaction commits a rotation if the presented token is neither spent nor revoked at the commit, and otherwise a revocation in its family that has reached that token; a revocation request commits the latter |
| TransactionLaws.ExchangeOrDecide | backend/internal/httpapi/oauth.go:189-330 | a code transaction commits the exchange of its own code and verifier, a consent transaction the decision it was sent with, for its own user |
| TransactionLaws.WhatIsSelected | backend/internal/httpapi/oauth.go:305-371 | when the locked SELECT of a transaction finds something to go on with, in columns of the row, and that a spent or revoked refresh token of the client leads to the revocation of its family |
| Interleaving.SweepKillsIff | backend/internal/httpapi/oauth.go:366-366 | when a family-wide revocation commits it has reached the whole family if and only if a row it revoked is still unconsumed, and the family is dead if and only if nothing it missed is live |
| Interleaving.RevocationCanMissSuccessor | backend/internal/httpapi/oauth.go:478-484 | a concrete interleaving for every live one-member family: a refresh and a revocation both commit and the successor can still be refreshed |
| Issuance.TokensFollowActiveCheck | backend/internal/httpapi/oauth.go:707-793 | under every interleaving a transaction that commits tokens for a user has earlier, itself, found that user active; at the commit the user is inactive if and only if he was deactivated after that look and not activated again |
| Issuance.TokensForDeactivatedUser | backend/internal/httpapi/oauth.go:376-390 | from every quiet state with a refreshable token of an active user, a run in which the user is deactivated between the look and the commit, and the tokens, with the client's lifetimes, are committed |
| ConsentRaces.ApprovalLosesIff | backend/internal/httpapi/oauth.go:229-263 | a committed approval started from the list recorded when its own transaction read it and leaves exactly that list and its own scopes; it loses a scope if and only if that scope is in neither and another approval for the same user and application committed in between and recorded it |
| ConsentRaces.ApprovalsOverwrite | backend/internal/httpapi/oauth.go:239-263 | from every quiet state with two pending requests of one user for one application, a run in which both approvals commit and what only the first one added is recorded and then lost, while its code keeps those scopes |
| ConsentRaces.ItHappens | backend/internal/httpapi/oauth.go:163-271 | such a run from empty tables, with two requests for different scopes |
| ConsentRaces.EveryGrantWasWithinConsent | backend/internal/httpapi/oauth.go:141-263 | under every interleaving of the token, revocation and consent transactions, authorize being one step, the scope of every stored code, refresh token and user access token was at one moment wholly within the recorded consent |
| ConsentRaces.StoredScopeExceedsConsentIff | backend/internal/httpapi/oauth.go:141-263 | under the same interleavings a stored scope is missing from recorded consent if and only if some approval has lost it and none has recorded it again |
| Saml.Store.CreateAuthRequest | backend/internal/samlidp/storage.go:116-161 | creates a row if and only if the request is well-formed and both keys are new; otherwise nothing changes |
| Saml.Store.FinalizeAuthRequest | backend/internal/samlidp/storage.go:212-276 | completes if and only if the request is unexpired, uncompleted and unconsumed, the application enabled and the user assigned in person or by a group; otherwise nothing changes |
| Saml.Store.AuthRequestByID | backend/internal/samlidp/storage.go:163-210 | delivers if and only if the request is completed, unexpired and unconsumed, returns the stored row and consumes it |
| Saml.RequestsMoveForward | backend/internal/samlidp/storage.go:163-276 | under every interleaving a request only moves from created to completed to consumed, is completed before it is consumed, and user, ACS URL, request ID and the rest never change once set |
| Saml.DeliveredAtMostOnce | backend/internal/samlidp/storage.go:185-209 | at most one delivery of a request commits |
| Saml.DeliveryIsTimelyAndAssigned | backend/internal/samlidp/storage.go:144-276 | a delivery starts less than five minutes after the step that created the request, whose fields it has, and goes to the user for whom a transaction completing it found the application enabled and an assignment, direct or by group |
| Saml.AssignedWays | backend/internal/samlidp/storage.go:234-261 | assigned means: the application is enabled and the user is assigned to it, or belongs to a group that is |
| Throttle.Account.Login | backend/internal/httpapi/server.go:303-331 | signed in if and only if the account is active, not locked, the password right and no later statement fails; a failure counts one and locks if and only if the count reaches the threshold; a success clears both |
| Throttle.Account.Reset | backend/internal/httpapi/stage1.go:161-175 | clears counter and lock |
| Throttle.LockedFromThreshold | backend/internal/httpapi/server.go:303-331 | over every run of logins and unlocks: with fewer than k recorded failures since the account was created, unlocked or last signed in to it is not locked and a recorded right password of an active account clears the counter; from the k-th on it is locked until exactly the lockout time after the last recorded failure |
| Throttle.LockIsSetBy | backend/internal/httpapi/server.go:307-307 | if policy changes between attempts: the lock is the one set by the last failure that reached the threshold of its moment |
| Throttle.LockoutBound | backend/internal/httpapi/server.go:303-331 | at most k + floor(T/L) attempts that the counter records reach the password check in a stretch of length T, whatever is tried while locked; attempts whose UPDATE is lost come on top, and with none lost the bound is k + floor(T/L) |
| Throttle.Limiter.Allow | backend/internal/httpapi/oauth.go:893-903 | allowed if and only if Redis answers and the count is within the limit; the new key is what the command sequence leaves, also when EXPIRE fails |
| Throttle.WindowLaw | backend/internal/mfa/service.go:65-75 | in an undisturbed window the i-th request is allowed if and only if it is heard and i is within the limit, and the count begins again at the expiry |
| Throttle.LimiterBound | backend/internal/httpapi/server.go:767-777 | over every run of commands fewer than 2*limit requests are allowed in any half-open interval of length ttl, even if setting the expiry fails or is late |
| Throttle.LimiterBoundIsReached | backend/internal/mfa/service.go:65-75 | a run, in order and possible, in which exactly 2*limit-1 are allowed: the bound cannot be lowered |
| Encoding.Base64RoundTrip | backend/internal/security/security.go:28-28 | decoding gives back the encoded bytes in either alphabet, and no `$` occurs in the text |
| Encoding.Base32Injective | backend/internal/mfa/service.go:311-311 | different byte strings of one length have different base32 texts |
| Encoding.BigEndianRoundTrip | backend/internal/oidc/keys.go:203-213 | the bytes of an integer read back to it and have no leading zero (section 6.3.1 of RFC 7518) |
| EncodingLaws.Alphabets | backend/internal/security/security.go:28-28 | the alphabets of sections 4, 5 and 6 of RFC 4648 |
| EncodingLaws.Base64Groups | backend/internal/security/security.go:28-28 | three bytes are one 24-bit number in four digits; one or two left over give two or three digits (section 4 of RFC 4648) |
| EncodingLaws.LineBreaksIgnored | backend/internal/security/security.go:84-91 | line breaks count for nothing in decoding |
| EncodingLaws.Base32Groups | backend/internal/mfa/service.go:311-311 | five bytes are one 40-bit number in eight digits (section 6 of RFC 4648) |
| EncodingLaws.BigEndianDigits | backend/internal/oidc/keys.go:145-148 | every further byte multiplies by 256 |
| Rotation.SealedKeyOpens | backend/internal/oidc/keys.go:155-193 | a private key sealed under its kid opens to the same key |
| Rotation.SealedKeyStaysPut | backend/internal/oidc/keys.go:155-193 | under a cipher that authenticates its associated data, a sealed key moved to another kid does not open |
| Rotation.RotationKeeps | backend/internal/oidc/keys.go:61-90 | a rotation leaves exactly the new row active and every older row's contents untouched |
| Keys.ReadExponent | backend/internal/oidc/keys.go:145-148 | the shift loop computes the 64-bit two's-complement value of the big-endian integer |
| Keys.JwkRoundTrip | backend/internal/oidc/keys.go:203-213 | a public key survives its JWK if and only if its exponent is at least 3 |
| Keys.KeyManager.constructor | backend/internal/oidc/keys.go:30-32 | starts with no key |
| Keys.KeyManager.Rotate | backend/internal/oidc/keys.go:51-98 | succeeds exactly when no call fails and the kid is new; then the new key, sealed under its kid and published under it, is the one active, all others stay resolvable; otherwise nothing changes |
| Keys.KeyManager.Active | backend/internal/oidc/keys.go:34-49 | without failures always returns a key: the active one as stored, or the first one; its kid resolves to its own public half |
| Keys.KeyManager.PublicKeyByKID | backend/internal/oidc/keys.go:121-153 | resolves a kid through the stored JWK with each error case |
| Keys.HandedOutKeysResolveForever | backend/internal/oidc/keys.go:34-153 | however callers and rotations interleave, once a key exists exactly one is active, and every key handed out up to any moment resolves under its kid to the original modulus and exponent at every later moment |
| Calendar.TwoYearsLast | backend/internal/samlidp/certificates.go:79-81 | two calendar years on is a date again, 730 or 731 days later |
| Calendar.TwoYearsOnIs | backend/internal/samlidp/certificates.go:79-81 | two years on is the same day and month, but 1 March for 29 February |
| Calendar.GregorianDays | backend/internal/samlidp/certificates.go:79-81 | the day count is the closed form of the Gregorian calendar |
| Certificates.CertificateManager.constructor | backend/internal/samlidp/certificates.go:26-28 | starts with no certificate |
| Certificates.CertificateManager.Rotate | backend/internal/samlidp/certificates.go:56-117 | succeeds exactly when no call fails and the kid is new; the new certificate, for the drawn key and serial, is valid from five minutes before to two calendar years after, at least 730 days, and the only active one; otherwise nothing changes |
| Certificates.CertificateManager.Active | backend/internal/samlidp/certificates.go:30-54 | for one caller at a time: whatever is returned has at least 30 days left, matches its key and is the one active certificate; the old one is kept if and only if it has 30 days left |
| Certificates.GivenCertificatesAreGood | backend/internal/samlidp/certificates.go:30-117 | however callers and rotations interleave, once a certificate exists exactly one is active, and everything given out had 30 days left when it was checked or made, matches its key and stays in its row |
| Certificates.CheckDecides | backend/internal/samlidp/certificates.go:30-54 | a caller that read a certificate is given it with its key if and only if 30 days are left, and otherwise goes on to rotate |
| Certificates.ActiveUntilRotation | backend/internal/samlidp/certificates.go:56-117 | an active certificate stays active if and only if no rotation has committed since; so of two callers that both replace an old one, the first gets a certificate the second retires |
| Passwords.SplitOfJoin | backend/internal/security/security.go:59-64 | splitting joined pieces that lack the separator gives the pieces back |
| PasswordLaws.JoinOfSplit | backend/internal/security/security.go:59-64 | cutting loses nothing and no piece holds the separator |
| PasswordLaws.ItemIs | backend/internal/security/security.go:63-83 | a cost item is `m=`, `t=` or `p=` and the decimal digits of a 32-bit number |
| PasswordLaws.LastDecides | backend/internal/security/security.go:71-83 | the last item of a name decides, a missing one is zero |
| PasswordLaws.ParsedStrings | backend/internal/security/security.go:58-91 | every accepted string has six parts around five dollar signs, the second and third fixed and the first arbitrary, whose costs, salt and hash are what the parser returns |
| PasswordLaws.ReadStrings | backend/internal/security/security.go:58-91 | conversely every string of that form is read, whatever its first part, if its items are cost items and its last two parts decode; and refused otherwise |
| PasswordLaws.PrintedText | backend/internal/security/security.go:55-55 | a fresh string begins `$argon2id$v=19$m=65536,t=3,p=2$` |
| Passwords.DecimalReadsBack | backend/internal/security/security.go:55-69 | a printed number parses to itself |
| Passwords.ParseCosts | backend/internal/security/security.go:63-83 | the loop accepts if and only if every item is a known name with a 32-bit number; the last item of each name decides, a missing one is zero |
| Passwords.ParseOfPrint | backend/internal/security/security.go:55-91 | the parser recovers costs, salt and hash exactly if every cost fits 32 bits, and refuses otherwise |
| Passwords.VerifyPassword | backend/internal/security/security.go:58-94 | the code's verdict is the one the specification gives for the parsed string |
| Passwords.HashPassword | backend/internal/security/security.go:46-56 | refused if and only if shorter than 12 bytes; otherwise the string holds the Argon2 output for three passes, 64 MiB, two lanes and 32 bytes, and accepts exactly the passwords with the same output |
| Passwords.PrintedHashVerifies | backend/internal/security/security.go:58-93 | the verdict on any printed string, including costs beyond 32 bits, the 8-bit truncation of the lanes and an empty hash |
| Recovery.NormalizeReadsBack | backend/internal/mfa/service.go:311-324 | normalising a formatted code recovers the base32 text |
| Recovery.TypedBack | backend/internal/mfa/service.go:322-324 | so does typing it in either case, with dashes anywhere and white space around |
| RecoveryLaws.ShownAs | backend/internal/mfa/service.go:311-320 | a code is shown as sixteen characters in four groups joined by dashes |
| RecoveryLaws.Trimmed | backend/internal/mfa/service.go:322-324 | trimming takes white space off both ends and nothing else |
| Recovery.DistinctBytesDistinctCodes | backend/internal/mfa/service.go:307-324 | distinct random bytes give distinct codes, before and after normalising |
| Recovery.Generate | backend/internal/mfa/service.go:304-320 | succeeds if and only if no digest is already present or repeated; returns the codes of the draws and adds their digests unused |
| Recovery.OnlyRepeatedDrawsCollide | backend/internal/mfa/service.go:304-320 | with a collision-free digest a set of codes is refused only for a repeated draw |
| Mfa.AssuranceIsEarned | backend/internal/httpapi/mfa.go:53-255 | with uninterrupted handlers every MFA-verified session got so by proving a factor or recovery code of its own user through itself, or by enrolling that user's first factor; `Assurance.MarkIsEarned` is what holds of interleaved requests |
| Mfa.FactorMustBeProved | backend/internal/httpapi/mfa.go:53-80 | with uninterrupted handlers, while the user keeps some factor, an unverified session becomes verified only by proving a factor or recovery code through it; for interleaved requests see `Assurance.FactorMustBeProved` and `Assurance.LateEnrolmentIff` |
| Mfa.AdmissionIsEarned | backend/internal/httpapi/server.go:407-421 | with uninterrupted handlers, where policy asks for a second factor a request is admitted only after such a proof or first enrolment through the same session; for interleaved requests see `Assurance.AdmissionByMark` |
| Mfa.RevokedForever | backend/internal/httpapi/server.go:384-405 | a revoked session stays revoked and never yields a principal again |
| Mfa.CeremonyServesItsOwner | backend/internal/mfa/webauthn.go:129-366 | with uninterrupted handlers a ceremony that finishes was begun by the same user for the same purpose less than five minutes before, and neither taken nor begun again since |
| Mfa.RecoveryCodesWorkOnce | backend/internal/mfa/service.go:285-348 | with uninterrupted handlers a code that works was issued to this user and since then neither spent, nor replaced, nor reset; `Assurance.RecoveryCodesWorkOnce` derives it from the row lock |
| Mfa.UseLowersByOne | backend/internal/mfa/service.go:326-348 | each success lowers the number of unused codes by exactly one |
| Mfa.AtMostTenCodes | backend/internal/mfa/service.go:196-320 | with uninterrupted handlers nobody ever has more than ten unused codes |
| Mfa.LastFactorGoesIff | backend/internal/mfa/service.go:231-253 | a self-service step leaves a user without a factor if and only if no global or group rule binds the user and it removes the only factor |
| Mfa.LastFactorKept | backend/internal/mfa/webauthn.go:258-281 | with uninterrupted handlers, while global or group policy requires MFA and no administrator resets the user, whoever has a factor keeps one, over every run |
| Mfa.ApplicationRuleDoesNotKeepFactor | docs/mfa.md:101-101 | a run in which a user bound only by an application rule removes the last factor, against the documented rule |
| FactorLaws.TotpGoes | backend/internal/httpapi/mfa.go:82-93 | over every run of uninterrupted handlers an active TOTP secret goes, or changes, only by an administrator's reset or by its user through a live session that has passed the second factor, and under a global or group rule only while a credential remains |
| FactorLaws.CredentialGoes | backend/internal/httpapi/mfa.go:177-188 | the same for a credential, where the TOTP secret or another credential must remain |
| FactorLaws.TotpComes | backend/internal/mfa/service.go:121-211 | a secret comes through a live session of its user that has passed the second factor unless there is none, first pending, never over an active one, and becomes active only with a code of that secret |
| FactorLaws.CredentialComes | backend/internal/mfa/webauthn.go:129-178 | a credential comes through such a session, from a live registration ceremony of the same user that it uses up, with a new handle |
| FactorLaws.SessionIsMarked | backend/internal/httpapi/mfa.go:190-255 | each mark on a session is made through it, live, by its own user: with a code of the active secret, an unused recovery code that is spent, an own credential in a sign-in ceremony, or the enrolment of a first factor |
| FactorLaws.CodesChange | backend/internal/mfa/service.go:170-348 | a user's recovery codes change only by a reset, by spending one, or by ten new ones through a live session that has passed the second factor unless there is none |
| FactorLaws.SessionRows | backend/internal/httpapi/server.go:315-331 | sessions start unverified, keep user, expiry, mark and revocation, and are revoked by name or by a reset, which leaves no factor and no code |
| FactorLaws.CeremonyRows | backend/internal/mfa/webauthn.go:333-366 | ceremonies are begun for their own user by a live session, for five minutes, and used up by whoever finishes them in time |
| FactorLaws.AdmittedWhen | backend/internal/httpapi/server.go:384-421 | who gets through to a protected page, in columns of session, user and policy |
| FactorLaws.WhatIsOpen | backend/internal/httpapi/mfa.go:35-255 | what exactly a user can do through a live session, for each of the self-service steps |
| FactorLaws.FactorsAfter | backend/internal/httpapi/mfa.go:35-255 | what each step does to factors and ceremonies |
| FactorLaws.CodesAfter | backend/internal/mfa/service.go:170-348 | what each step does to recovery codes |
| FactorLaws.MarkAfter | backend/internal/httpapi/mfa.go:348-360 | which steps verify the session |
| Assurance.MarkIsEarned | backend/internal/httpapi/mfa.go:53-255 | under every interleaving of MFA requests, each mark of a session follows, in its own request, an accepted proof of a factor or recovery code its user then had; or, for an enrolment, a reading of the factor status at which the user had no factor or the session was already verified on arrival |
| Assurance.VerifiedByMark | backend/internal/httpapi/mfa.go:348-360 | a session is verified only because an earlier step marked it for its own user |
| Assurance.AdmissionByMark | backend/internal/httpapi/server.go:407-421 | where policy asks for a second factor, whoever is admitted got the session marked earlier |
| Assurance.FactorMustBeProved | backend/internal/httpapi/mfa.go:53-80 | if the user had a factor ever since the marking request arrived, an unverified session is marked only on a proof made in that request |
| Assurance.LateEnrolmentIff | backend/internal/httpapi/mfa.go:335-346 | an enrolment that marks an unverified session found no factor when it read the status; when it commits its own the user already has one if and only if another enrolment for that user committed in between and the user has not been left without a factor since |
| AssuranceRace.VerifiedWithoutProof | backend/internal/httpapi/mfa.go:53-80 | from every state in which that can start, a run that verifies a session without any proof although its user has a factor by then |
| AssuranceRace.ItHappens | backend/internal/httpapi/mfa.go:147-175 | such a run from empty tables |
| Assurance.RecoveryCodesWorkOnce | backend/internal/mfa/service.go:285-348 | under every interleaving of verifications, regenerations and enrolments, with code rows selected FOR UPDATE held to commit: a code whose use commits was issued to this user, and since then no use of it and no deletion of its row has committed |
| Assurance.NoCodeTwice | backend/internal/mfa/service.go:326-348 | between two committed uses of one code by one user it was issued again |
| Assurance.CeremonyServesItsOwner | backend/internal/mfa/webauthn.go:129-366 | under every interleaving a credential is added or an assertion accepted only on a ceremony the same request took, begun by the same user for the same purpose less than five minutes before it was taken, and touched by nobody in between |
| Assurance.RevokedForever | backend/internal/httpapi/server.go:384-405 | a revoked session starts no request and is marked by none, whatever is still in flight |
| AssuranceLaws.ActiveTotpGoes | backend/internal/mfa/service.go:121-253 | under every interleaving an active TOTP secret goes by a reset, by its user's removal, or under a new secret its user began to enrol |
| AssuranceLaws.CredentialGoes | backend/internal/mfa/webauthn.go:258-281 | a credential goes by a reset or by the removal of that row by its own user |
| AssuranceLaws.ChangeWasGuarded | backend/internal/httpapi/mfa.go:335-346 | whatever enrols, removes or replaces factors or codes was asked for through a live session of that user, and if the request saw a factor, that session had passed the second factor on arrival; a regeneration needs both, the factor and the verified session |
| AssuranceLaws.RemovalKeepsPolicy | backend/internal/mfa/webauthn.go:258-281 | a removal follows its own reading of the rules and, where they bound the user, of another factor |
| AssuranceLaws.ActiveTotpComes | backend/internal/mfa/service.go:170-211 | a secret becomes active only by a confirmation whose code was valid for the secret stored when the request read it |
| AssuranceLaws.LateBeginIff | backend/internal/mfa/service.go:121-152 | a new enrolment found no active secret when it looked; it overwrites one if and only if a confirmation for the same user committed since and the secret has not gone again |
| AssuranceLaws.CredentialComes | backend/internal/mfa/webauthn.go:129-178 | a credential comes only by a registration of its own user, with a new handle |
| AssuranceLaws.MarkRests | backend/internal/httpapi/mfa.go:53-255 | what each mark rests on, in columns of the tables at the request's own reads |
| AssuranceLaws.SpentCodeWasIssued | backend/internal/mfa/service.go:326-348 | a code that is spent was issued to the same user, with no reset and no other use since |
| AssuranceLaws.UserWasLoaded | backend/internal/mfa/webauthn.go:283-331 | a credential is added, an assertion accepted or a ceremony begun only after the request had loaded the user, active, and enrolled and with a credential where that is asked for |
| AssuranceLaws.NewCodesAreTen | backend/internal/mfa/service.go:196-320 | new recovery codes come in tens, and an enrolment brings none while an unused one is left |
| MfaServer.Factors.constructor | backend/internal/database/migrations/0007_mfa.sql:1-57 | the tables start empty |
| MfaServer.Factors.Login | backend/internal/httpapi/server.go:315-331 | adds one unrevoked, unverified session, unless the token digest is taken |
| MfaServer.Factors.Revoke | backend/internal/httpapi/stage1.go:330-355 | the revoked sessions no longer yield a principal; nothing else changes |
| MfaServer.Factors.ResetUser | backend/internal/mfa/service.go:350-368 | factors, codes and sessions of that user end, all or nothing |
| MfaServer.Factors.WithPrincipal | backend/internal/httpapi/server.go:384-421 | admits exactly the principals whose session is live and, where policy asks, verified |
| MfaServer.Factors.GuardMutation | backend/internal/httpapi/mfa.go:335-346 | passes if and only if the session is live and, where the user has a factor, verified; otherwise the exact refusal |
| MfaServer.Factors.MarkSession | backend/internal/httpapi/mfa.go:348-360 | marks the session if and only if it is still live and the user's |
| MfaServer.Factors.BeginTotpEnrollment | backend/internal/httpapi/mfa.go:35-51 | accepted if and only if the caller may change factors and has no active TOTP; stores an inactive secret |
| MfaServer.Factors.ConfirmTOTP | backend/internal/mfa/service.go:170-211 | activates the secret and issues codes when none are left, together or not at all |
| MfaServer.Factors.ConfirmTotpEnrollment | backend/internal/httpapi/mfa.go:53-80 | the enrolment step with its mark, or nothing, or the enrolment without the mark when marking fails; the exact condition of success |
| MfaServer.Factors.DisableTotpFactor | backend/internal/mfa/service.go:231-253 | removes the caller's TOTP row if and only if the caller may change factors and policy does not need it, an active secret only through a verified session; the conflict reply comes exactly when policy does need it |
| MfaServer.Factors.RegenerateRecoveryCodes | backend/internal/httpapi/mfa.go:95-121 | replaces all codes by ten new ones if and only if the user has a factor and the session is verified; otherwise nothing changes |
| MfaServer.Factors.BeginWebAuthnRegistration | backend/internal/mfa/webauthn.go:98-127 | stores a ceremony of the requested kind for the caller |
| MfaServer.Factors.BeginWebAuthnAuthentication | backend/internal/mfa/webauthn.go:180-197 | stores a sign-in ceremony if and only if the user has a credential |
| MfaServer.Factors.ConsumeCeremony | backend/internal/mfa/webauthn.go:349-366 | returns a live ceremony and removes it; anything else removes nothing |
| MfaServer.Factors.FinishAssertion | backend/internal/mfa/webauthn.go:199-234 | accepts if and only if a live sign-in ceremony of this user and one of the user's own credentials come together; the ceremony is gone either way |
| MfaServer.Factors.FinishWebAuthnAuthentication | backend/internal/httpapi/mfa.go:236-255 | verifies the session if and only if a live sign-in ceremony of this user meets one of the user's own credentials; a live ceremony is gone afterwards whatever the outcome |
| MfaServer.Factors.FinishAttestation | backend/internal/mfa/webauthn.go:129-178 | adds the new credential, marked discoverable as the library or else the ceremony says, if and only if a live registration ceremony of this user and an unused handle come together; the ceremony is gone either way |
| MfaServer.Factors.EnsureRecoveryCodes | backend/internal/mfa/service.go:274-302 | issues ten codes exactly when none are left |
| MfaServer.Factors.FinishWebAuthnRegistration | backend/internal/httpapi/mfa.go:147-175 | enrols and verifies if and only if the caller may change factors, the ceremony is a live registration of this user, the credential is new and any codes due can be stored; otherwise stops where the code stops, never marking the session after a failure |
| MfaServer.Factors.DeleteWebAuthnCredential | backend/internal/mfa/webauthn.go:258-281 | removes that credential if and only if it is the caller's, the session is verified and policy does not need it; the conflict reply comes exactly when policy does |
| MfaServer.Factors.CheckTotp | backend/internal/mfa/service.go:213-229 | no complaint if and only if the active secret accepts the code now |
| MfaServer.Factors.SpendRecoveryCode | backend/internal/mfa/service.go:326-348 | spends exactly that code, or changes nothing |
| MfaServer.Factors.VerifyByTotp | backend/internal/httpapi/mfa.go:203-212 | verifies the session if and only if the active secret accepts the code; otherwise nothing changes |
| MfaServer.Factors.VerifyByRecovery | backend/internal/httpapi/mfa.go:203-212 | verifies the session if and only if the code is an unused one of the user's; it stays spent even when marking fails |
| MfaServer.Factors.VerifyMFAFactor | backend/internal/httpapi/mfa.go:190-220 | verifies the session if and only if the trimmed method is known and its proof is accepted; a recovery code stays spent even when marking fails |
| MfaServer.Factors.Guarantees | backend/internal/httpapi/mfa.go:335-360 | after any sequence of calls: at most ten unused codes, every verified session and every admission under policy earned, every session ever revoked without a principal, every code used issued and not cancelled before, every ceremony taken begun in time and untouched since |
| MfaServer.ShownCodesWork | backend/internal/mfa/service.go:285-348 | each code made from the draws of an enrolment of either kind or of a regeneration, typed back in any accepted way, is accepted afterwards from any live session of its user |

## Left out

- Concurrency of `authorize`: its checks and its insert are separate statements in the code and one step here, also in `Interleaving.InterleavedLaws` and `ConsentRaces`.
- Conservation.GrantsStayWithinConsent: holds for uninterrupted handlers; for interleaved ones the exact conditions are `ConsentRaces.ApprovalLosesIff` and `ConsentRaces.StoredScopeExceedsConsentIff`.
- Conservation.TokensOnlyForActiveUsers: likewise; interleaved, see `Issuance.TokensFollowActiveCheck`.
- Families.DeadForever: starts from a family all of whose members are revoked; that a revocation gets there is proved for atomic handlers, and its exact condition for interleaved ones is `Interleaving.SweepKillsIff`.
- Mfa.AssuranceIsEarned: assumes uninterrupted handlers, like Mfa.FactorMustBeProved, Mfa.AdmissionIsEarned, Mfa.CeremonyServesItsOwner and Mfa.RecoveryCodesWorkOnce; the interleaved statements are in `Assurance`.
- Mfa.LastFactorKept: assumes uninterrupted handlers; interleaved, every removal has itself read another factor where policy asks (`AssuranceLaws.RemovalKeepsPolicy`), but two removals that each read the other's are not followed further.
- GrantLaws.IssuedWithinLifetimes, GrantLaws.ScopesWithinConsent and GrantLaws.MachineTokens: hold for uninterrupted handlers; for interleaved ones see `Issuance` and `ConsentRaces`.
- Mfa.AtMostTenCodes: assumes uninterrupted handlers; two simultaneous enrolments could each find no codes left.
- Throttle.LockoutBound: an attempt reads and updates the counter in one step; parallel attempts that read before either writes are not modelled. A lost UPDATE is, and adds one attempt to the bound.
- Saml.DeliveryIsTimelyAndAssigned: the five minutes end when the delivering transaction starts, because its `now()` is the start of the transaction; it may commit later.
- Assurance.MarkIsEarned: an administrator's reset is one step, taken when no code row of the user is locked; checking an assertion and noting the use of its credential are one step.
- Certificates.GivenCertificatesAreGood: the 30 days are measured when the row is checked, as the code does; how long the caller keeps the certificate is open.
- Keys.KeyManager.PublicKeyByKID: JSON encoding and decoding of the stored JWK, and its ordering in the published set, are not modelled.
- Calendar.TwoYearsLast: the proleptic Gregorian calendar in UTC, without leap seconds.
- Recovery.TypedBack: uppercasing is an arbitrary function on single characters that is right on ASCII.
- Strings are sequences of characters; length limits that the code counts in bytes (PKCE verifier, SAML RelayState) are counted in characters. Passwords are bytes.
- Deleting users, applications and groups, and the cascades that follow.
- `userinfo`, OAuth logout, group claims, and the contents and signatures of JWTs; `parseAccessToken` appears as the claims it returns.
- Client authentication (`authenticateOAuthClient`): the grant handlers start from an authenticated client.
- Access tokens are not revoked with a family and replaying a code does not revoke what it issued; the code makes neither claim.
- TOTP arithmetic, WebAuthn and SAML signature checks, AES-GCM, RSA: abstract functions or parameters.
- The password policy, user bootstrap and administration handlers other than those that end sessions, reset factors or clear the lockout: single-statement updates.
- HTTP routing, cookies, headers, HTML, audit rows, the dashboard, configuration and start-up, migrations.
- The MFA handlers' per-bucket limits appear as a parameter; their bound is `Throttle.LimiterBound`.
