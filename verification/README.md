# A verified model of the CrydenSync session engine

CrydenSync issues opaque refresh tokens that rotate: each use of a token revokes
its session row and creates the next one in the same family, and presenting a
token that was already used revokes the whole family (refresh-token rotation with
reuse detection, section 10.4 of RFC 6749 and section 4.14.2 of RFC 9700). Around
it stand account lockout, a fixed-window rate limiter, an audit log and the
confirmed change of an email address. This project models those parts in Dafny
and proves what holds of them over whole runs.

## How the model is cut

* `Types`, `SessionRows`: the records; the sessions table as a value; what each
  store call does to it on the memory and on the Postgres backend; the invariant
  every backend keeps.
* `MemorySessionStores`, `PostgresSessionStores`, `MemoryStores`: the store
  classes. Loops over a map visit it in an arbitrary order. A Postgres method is
  one atomic step on the tables, as `store/interfaces.go` promises.
* `SerialSessions`, `Families`: whole session calls one after the other, on both
  backends; the abstract machine of families they implement.
* `Backends`: the two stores driven by the same calls, account deletion included.
* `PostgresRotate`, `Interleaved`, `FamilyTheorems`, `ChainTheorems`,
  `OwnerTheorems`, `Serialisation`, `DeletionPlans`, `ReuseTheorems`: any number of calls in flight over the guarded
  Postgres store. A rotation and a logout are two store steps each, with any other
  steps in between; account deletion with its cascade is in the machine.
* `RateLimiters`: the limiter class and its arithmetic.
* `Engines`, `EngineRuns`, `EngineRefinement`, `Lockout`, `History`, `Counting`,
  `EmailChanges`: the engine class over the memory stores, a function that says
  what each call does, and theorems about every serial run.
* `Transcripts`, `AccountLaws`, `SessionLaws`: what a history of calls says on its
  own about accounts, passwords, locks and email tokens, read from the calls and
  the password oracle without any table; and the proofs that after every serial run
  all tables, all replies and the whole audit log of the engine agree with it.

## What is idealised

* SHA-256 is an injection (`Digest` is a constructor applied to the raw token).
* Ids and raw tokens are parameters that are new on each draw; a run is legal only
  if no draw repeats. Since a draw is invisible until it is stored, the model lets
  a call draw when it starts.
* The password comparison is an oracle: a function in the engine's configuration,
  its outcome in the session machines.
* Every clock reading is a parameter; readings never go back. Times are integers.
* Generators, the access-token issuer, the email sender and audit writes do not
  fail. A revocation failure that the code only logs does not happen.
* In the interleaved machine Login's check-and-create is one step, and so is
  ChangePassword's update-and-revoke. Results about lockout, history and email are
  about serial runs.

## Where the code and the claims part

Each of these is proved with a run that shows it and with the exact condition.

* A rotation that loses its race on the Postgres store answers "not found", which
  no serial run ever answers (`RaceHappens`, `LosersAreNotSerial`). Serialisation
  therefore drops exactly those calls; `LosesExactlyWhenRaced` says which they are.
* A replay whose row is cascaded away with its user between its two steps is told
  "reused"; run as a whole where it ends it would be told "invalid"
  (`OrphanHappens`, `OrphanCannotStay`). With deletion, serialisation places such a
  call just before the step that removed the user (`DeletionsSerialise`).
* The two backends disagree on two kinds of session calls and on no other
  (`StoreSimulation`, an if-and-only-if). Revoking an owned session that is already
  revoked succeeds in memory and is "not found" in Postgres (`SecondLogoutDiffers`).
  A call that names a session of a deleted user, by token or by id, finds its
  revoked row in memory and no row in Postgres, where deletion cascades
  (`DeletedTokenDiffers`).
* A rate limit below one still lets one call through per window, because the first
  call of a window is never compared with the limit. The bound with the limit
  itself holds if and only if the limit is positive (`NominalNeedsPositiveLimit`);
  `RateBound` counts any other limit as one.
* The lockout bound is about login guesses. ChangePassword and DeleteAccount compare
  the same hash without limiter, counter or lock: a wrong comparison is counted if
  and only if a login made it (`OnlyLoginsAreCounted`), any number of others fits in
  one instant (`UnguardedWithoutBound`), and the bound on all wrong comparisons is
  off by exactly those (`WrongSplits`, `WrongBound`).

## Model

| member | source | states |
|---|---|---|
| `SessionRows.CreateKeeps` | auth/login.go:101-112 | the row a login creates starts a family of its own and keeps hashes unique, one owner and at most one live row per family |
| `SessionRows.RotateKeeps` | token/refresh.go:85-96 | rotating a family's live row moves liveness to the new row on either backend: still one owner, one live row, unique hashes |
| `SessionRows.RevokeScopeKeeps` | store/postgres/session_store.go:99-113 | revoking a family or a user keeps the table invariant |
| `SessionRows.LookupIsUnique` | store/memory/session_store.go:40-49 | with unique hashes a scan by hash has only one possible answer, whatever order it visits the rows in |
| `MemorySessionStores.SessionStore.Create` | store/memory/session_store.go:22-28 | adds the row under its id with the creation time |
| `MemorySessionStores.SessionStore.GetByID` | store/memory/session_store.go:30-38 | the row under the id, or not found |
| `MemorySessionStores.SessionStore.GetByTokenHash` | store/memory/session_store.go:40-49 | for any visiting order: a row that carries the hash, or none only if no row does |
| `MemorySessionStores.SessionStore.ListByUser` | store/memory/session_store.go:51-61 | for any visiting order: every live row of the user exactly once and nothing else |
| `MemorySessionStores.SessionStore.Revoke` | store/memory/session_store.go:63-74 | revokes the row, overwriting an earlier revocation time; not found for an unknown id |
| `MemorySessionStores.SessionStore.RevokeFamily` | store/memory/session_store.go:76-87 | for any visiting order: revokes exactly the family's unrevoked rows, keeping earlier revocation times and all other columns |
| `MemorySessionStores.SessionStore.RevokeAllForUser` | store/memory/session_store.go:89-100 | the same for a user's rows |
| `MemorySessionStores.SessionStore.RotateToken` | store/memory/session_store.go:106-121 | revokes the old row without rechecking it and adds the new one; not found for an unknown id |
| `PostgresSessionStores.SessionStore.Create` | store/postgres/session_store.go:20-26 | inserts, or fails on a used id, a used hash or an unknown user and changes nothing |
| `PostgresSessionStores.SessionStore.Revoke` | store/postgres/session_store.go:89-97 | revokes only an unrevoked row; otherwise not found and no change |
| `PostgresSessionStores.SessionStore.RevokeFamily` | store/postgres/session_store.go:99-105 | revokes exactly the family's unrevoked rows |
| `PostgresSessionStores.SessionStore.RevokeAllForUser` | store/postgres/session_store.go:107-113 | revokes exactly the user's unrevoked rows |
| `PostgresSessionStores.SessionStore.RotateToken` | store/postgres/session_store.go:120-147 | fires only on an unrevoked row; revocation and insert happen together or not at all |
| `PostgresRotate.Lookup` | token/refresh.go:56-61 | the first store step of a rotation: invalid exactly when no row carries the hash |
| `PostgresRotate.FinishRotate` | token/refresh.go:63-98 | the second store step, on the table as it then stands: the step the interleaved machine takes |
| `PostgresRotate.Rotate` | token/refresh.go:49-99 | the two steps with nothing in between are one whole rotation |
| `SerialSessions.RunKeeps` | token/refresh.go:49-99 | every serial run on either backend keeps unique hashes, single owners and at most one live session per family |
| `SerialSessions.SerialRotateNeverFails` | token/refresh.go:94-96 | an uninterrupted rotation never fails in the store |
| `Backends.StoreSimulation` | store/memory/session_store.go:63-121 | the two stores driven by the same calls, account deletion included, keep the same rows of existing users up to revocation times, and memory's other rows are all revoked; the next answers agree if and only if the call neither revokes an owned, already revoked session nor names a deleted user's row, and both disagreements are spelled out |
| `Backends.SameWithoutDeletion` | store/postgres/session_store.go:89-147 | without deletion the tables have the same rows, and only the first disagreement can occur |
| `Backends.SecondLogoutDiffers` | store/postgres/session_store.go:89-97 | a run where revoking twice succeeds in memory and is not found in Postgres |
| `Backends.DeletedTokenDiffers` | store/memory/user_store.go:80-88 | a run where a deleted user's token is reused in memory and invalid in Postgres |
| `Families.RunRefines` | token/refresh.go:36-48 | after any serial run, on either backend, the table is in the state of the abstract machine: each family live with one current token or dead, plus its past tokens |
| `Families.IssuedIsStored` | token/refresh.go:85-98 | the tokens handed out in results are exactly those whose hash a lookup finds |
| `Families.RotateVerdict` | token/refresh.go:41-48 | accepted exactly on a live family's current token, reused exactly on any other token ever issued, invalid exactly on tokens never issued |
| `Interleaved.MoveEvolves` | store/postgres/session_store.go:120-147 | any step of any interleaving leaves revoked rows untouched for good, and a new row either starts a family or takes over from a live row that dies in the same step |
| `Interleaved.MoveKeeps` | token/refresh.go:56-98 | every step keeps the table invariant and what waiting calls know about the rows they looked up |
| `FamilyTheorems.DeathIsFinal` | token/refresh.go:58-73 | once a family has no live session, no continuation of any run gives it one or completes a rotation in it, including by calls that looked the row up before |
| `FamilyTheorems.ReplayRevokesFamily` | token/refresh.go:63-73 | a call that found a revoked row answers reused and leaves its family without a live session |
| `FamilyTheorems.DeadFamilyRefuses` | token/refresh.go:63-73 | in every continuation every token ever issued in a dead family is refused |
| `FamilyTheorems.ReplayKillsFamily` | token/refresh_test.go:71-133 | from the RevokeFamily step of a replay on, every token ever issued in the family is refused in every later state, whatever was in flight |
| `ChainTheorems.LinearChains` | auth/login.go:101-112 | in every reachable state a family is one chain from the login whose id is the family id: each rotation presents the current tip, the rows are the links, all but the tip are revoked |
| `ChainTheorems.RotatedAtMostOnce` | store/postgres/session_store.go:127-135 | two successful rotations never present the same token, in any interleaving |
| `ChainTheorems.SupersededIsReplay` | token/refresh.go:58-64 | the lookup of a superseded token finds a revoked row of its family, however deep in the chain it sits |
| `ReuseTheorems.SupersededTokenKills` | token/refresh_test.go:107-133 | presenting a superseded token, whatever runs before the call's second step and after it, answers reused, kills the family, and every token ever issued in it is refused from then on |
| `ReuseTheorems.DeadFamilyAnswers` | token/refresh.go:58-73 | without deletion every call that presents a token of a dead family is told reused, except calls in flight with a live row when it died, which are told not found |
| `OwnerTheorems.OnlyOwnRowsChange` | auth/logout.go:22-36 | no step of any call changes, removes or adds a row of another user |
| `OwnerTheorems.CredentialFreshness` | auth/password.go:50-59 | every session descends from its family's login and shares its user, address and agent; an unrevoked one's login came after the user's latest LogoutAll and ChangePassword and matched the hash still in force |
| `OwnerTheorems.HashFollowsLog` | auth/password.go:50-52 | in every interleaving a user's stored hash is that of the latest successful ChangePassword in the log, or else of their signup |
| `Serialisation.LosesExactlyWhenRaced` | store/postgres/session_store.go:127-135 | a rotation loses if and only if the row it found live is no longer live at its second step; it then changes nothing |
| `Serialisation.RaceHappens` | token/refresh.go:94-96 | a run in which a rotation loses |
| `Serialisation.MoveIsSerial` | token/refresh.go:56-98 | a step that finishes a kept call is that whole call run serially on the table as it stands; every other step changes nothing; deletion steps and replays orphaned by one are treated in DeletionPlans |
| `Serialisation.InterleavingsSerialise` | store/postgres/session_store.go:114-147 | every interleaved run without account deletion has a serial run of its kept calls, in the order of their last store steps, with the same results and the same final tables |
| `Serialisation.LosersAreNotSerial` | token/refresh.go:94-96 | the answer of a losing rotation occurs in no serial run |
| `Serialisation.InterleavingsRefineFamilies` | token/refresh.go:36-48 | interleaved runs leave the table in the state of the abstract machine run on the kept calls |
| `DeletionPlans.DeletionsSerialise` | auth/account.go:35-48 | every interleaved run, deletions included, has a serial run of its kept calls and deletion steps with the same results and the same final tables; only replays whose row was cascaded away are moved, to just before that removal |
| `DeletionPlans.RemovalsStay` | auth/account.go:35-48 | that serial run has the deletion steps of the interleaved run, in their order |
| `DeletionPlans.OrderStays` | auth/account.go:35-48 | in a run where no replay lost its row to a cascade between its steps, that serial run has the kept calls in the order of their last store steps |
| `DeletionPlans.OrphanCannotStay` | store/postgres/migrations/0001_initial_schema.up.sql:16 | a replay whose row was cascaded away is told reused, and would be told invalid if run serially where it ends |
| `DeletionPlans.OrphanHappens` | store/postgres/migrations/0001_initial_schema.up.sql:16 | a run that contains such a replay |
| `RateLimiters.InMemoryRateLimiter.Allow` | security/ratelimiter.go:44-60 | decides and updates the key's own counter in place; no two keys share a counter |
| `RateLimiters.CountersRefineHistory` | security/ratelimiter.go:49-59 | the counter map is the last window of each key's history, and allows exactly the calls the history records |
| `RateLimiters.HistoryIsOk` | security/ratelimiter.go:50-52 | windows open with a call, hold at most the limit, stay within their length and restart strictly more than a window apart |
| `RateLimiters.ExactRateBound` | security/ratelimiter.go:44-60 | with D = q * (W + 1) + r ticks, a closed interval of length D contains at most (q + 1) * L allowed calls of a key if r = 0, and at most (q + 2) * L - 1 otherwise |
| `RateLimiters.BoundIsAttained` | security/ratelimiter.go:44-60 | for every positive limit and window and every interval some run of calls reaches that bound |
| `RateLimiters.RateBound` | security/ratelimiter.go:44-60 | any closed interval of length D contains at most (ceil(D/W) + 1) * L allowed calls of a key, and one fewer if D > 0 |
| `RateLimiters.NominalNeedsPositiveLimit` | security/ratelimiter.go:50-57 | the bound with the configured limit holds for all runs if and only if the limit is at least one |
| `RateLimiters.TwiceTheLimit` | security/ratelimiter.go:44-60 | at most twice the limit, less one, in any interval as long as the window |
| `RateLimiters.DenialMeansFull` | security/ratelimiter.go:55-57 | a denial implies the limit was used up by that key in the window before it |
| `RateLimiters.KeysAreIndependent` | security/ratelimiter.go:48-53 | a key's answers are those of a limiter serving that key alone |
| `MemoryStores.UserStore.GetByEmail` | store/memory/user_store.go:33-42 | for any visiting order: a user with the address, or none only if there is none |
| `MemoryStores.UserStore.UpdateEmail` | store/memory/user_store.go:54-65 | changes the address of that user only; not found for an unknown id |
| `MemoryStores.UserStore.UpdatePasswordHash` | store/memory/user_store.go:67-78 | changes the hash of that user only; not found for an unknown id |
| `MemoryStores.UserStore.Delete` | store/memory/user_store.go:80-88 | removes that user only; not found for an unknown id |
| `MemoryStores.UserStore.IncrementFailedAttempts` | store/memory/user_store.go:90-100 | adds one to the stored counter and returns the new value |
| `MemoryStores.UserStore.ResetFailedAttempts` | store/memory/user_store.go:102-113 | clears counter and lock |
| `MemoryStores.UserStore.LockAccount` | store/memory/user_store.go:115-125 | sets the lock time and keeps the counter |
| `MemoryStores.VerificationStore.GetByTokenHash` | store/memory/verification_store.go:30-39 | for any visiting order: a token with the hash, or none only if there is none |
| `MemoryStores.VerificationStore.MarkUsed` | store/memory/verification_store.go:41-52 | records the use on that token only |
| `MemoryStores.AuditStore.Record` | store/memory/audit_store.go:22-28 | appends the event |
| `Engines.Engine.SignUp` | auth/signup.go:25-74 | limited, taken or created, with the event |
| `Engines.Engine.RegisterUser` | auth/signup.go:35-74 | past the limiter: taken, or a user with no failures and the event |
| `Engines.Engine.Login` | auth/login.go:40-131 | every branch of a login: limited, unknown, locked, wrong password with counter and lock, or a new family |
| `Engines.Engine.CheckCredentials` | auth/login.go:50-131 | past the limiter: unknown, locked, wrong password or a new family, each with its own effects |
| `Engines.Engine.WrongPassword` | auth/login.go:61-83 | the event, the counter and, from the threshold on, the lock and its event |
| `Engines.Engine.StartFamily` | auth/login.go:86-127 | counter and lock cleared, a row that is its own family, the event |
| `Engines.Engine.Rotate` | token/refresh.go:49-99 | the rotation over the memory store |
| `Engines.Engine.RefreshToken` | cryden.go:81-108 | the rotation with its audit events |
| `Engines.Engine.ListSessions` | cryden.go:117-119 | the user's live sessions, each exactly once |
| `Engines.Engine.Logout` | auth/logout.go:14-47 | unknown, not owned, or revoked with the event |
| `Engines.Engine.RevokeSession` | session/session.go:21-55 | the same, with its own event |
| `Engines.Engine.LogoutAll` | auth/logout.go:50-70 | the user's live sessions revoked, with the event |
| `Engines.Engine.ChangePassword` | auth/password.go:24-70 | unknown, refused, or new hash and all sessions revoked, with the event |
| `Engines.Engine.DeleteAccount` | auth/account.go:15-54 | unknown, refused, or sessions revoked, event recorded, user removed |
| `Engines.Engine.RequestEmailChange` | auth/email.go:32-83 | refused for a taken address, or a token that expires in an hour |
| `Engines.Engine.ConfirmEmailChange` | auth/email.go:87-125 | invalid, expired, user gone, or address changed and token used |
| `EngineRuns.RunKeepsTables` | store/memory/session_store.go:22-121 | every serial run of the engine keeps all tables in order, with unique token hashes |
| `EngineRuns.ScanOrderDoesNotMatter` | store/memory/session_store.go:40-49 | in every reachable state a lookup by hash does not depend on the visiting order |
| `EngineRefinement.EngineRunsProject` | cryden.go:22-108 | every serial run of the engine, account deletion included, leaves the session table of the serial run of its session calls |
| `EngineRefinement.IssuedIsProjected` | cryden.go:28-108 | the refresh tokens in the engine's own replies are exactly those the session calls hand out |
| `EngineRefinement.RefreshVerdict` | cryden.go:77-108 | after any serial run RefreshToken succeeds exactly on a live family's current token, reports reuse exactly on any other token the engine handed out, and is invalid exactly on tokens it never did |
| `AccountLaws.TablesFollowHistory` | store/memory/user_store.go:24-125 | after every serial run the users with their addresses, hashes, counters and lock times, and the email tokens with their deadline and use, are those the history of calls implies |
| `AccountLaws.LimiterFollows` | auth/login.go:40-48 | the engine's rate limiter is in the state its signup and login calls leave, each under its own key |
| `AccountLaws.MembersAreUsers` | auth/account.go:30-50 | the users in the table are exactly those an accepted signup drew and no later DeleteAccount with the right password named |
| `AccountLaws.PasswordFollowsHistory` | auth/password.go:40-52 | a user's stored hash is that of their latest ChangePassword with the right current password, or else of their signup |
| `AccountLaws.SignUpVerdict` | auth/signup.go:25-60 | rate limited, address taken by a member, or accepted; each exactly when the history says so |
| `AccountLaws.LoginVerdict` | auth/login.go:40-88 | a login that is let through, for a known user, is told "locked" if and only if the wrong guesses since the last success number at least the threshold and checkAt is before the lock time of the latest plus the duration; otherwise the password in force decides |
| `AccountLaws.LockEnds` | auth/login.go:56-59 | a right password logs in once that time has come |
| `AccountLaws.PasswordVerdict` | auth/password.go:35-43 | ChangePassword and DeleteAccount: unknown user, wrong password, or accepted; each exactly when the history says so |
| `AccountLaws.NewPasswordRules` | auth/password.go:50-52 | after a successful change and until the next, a login is judged by the new password only |
| `AccountLaws.DeletedCannotLogin` | auth/account.go:48-50 | after a deletion nobody logs in as that user; a login to an address no other user has is refused and opens no session |
| `AccountLaws.RequestVerdict` | auth/email.go:44-46 | an email change is refused exactly for an address a member has |
| `AccountLaws.ConfirmVerdict` | auth/email.go:95-110 | a confirmation is invalid, expired, for a user who left, or accepted: accepted exactly for a requested, unspent token of an existing user up to an hour after the request |
| `AccountLaws.GuessesAreWrongLogins` | auth/login.go:61-64 | the guesses of the lockout bounds are the wrong logins of the history |
| `SessionLaws.RowsFollowHistory` | auth/login.go:101-112 | the sessions table holds exactly the rows that logins and rotations created, with their family, owner, address, agent and creation time |
| `SessionLaws.RevokeVerdict` | session/session.go:21-55 | Logout and session.Revoke: not found exactly for an id no call created, not owned exactly for one created for another user, otherwise accepted: that session alone is revoked and the event recorded; a refusal changes nothing |
| `SessionLaws.AuditFollowsHistory` | store/memory/audit_store.go:22-28 | the whole audit log, event by event with kind, user, address and metadata, is the one the history of calls calls for |
| `Lockout.LockoutHolds` | auth/login.go:56-84 | the stored counter is the number of wrong login guesses since the last success, lock expiry or not; from the threshold on the lock outlasts each guess by its duration |
| `Lockout.GuessPace` | auth/login.go:56-84 | the n-th wrong login guess comes no earlier than the threshold-th plus (n - threshold) durations |
| `Lockout.LockoutBound` | store/memory/user_store.go:90-125 | any closed interval of length D between two successes holds at most threshold + floor(D/duration) wrong login guesses |
| `Lockout.OnlyLoginsAreCounted` | auth/password.go:40-43 | a wrong comparison with a user's hash moves the counter if and only if a login made it; any other leaves the whole state unchanged |
| `Lockout.WrongSplits` | auth/account.go:30-33 | the wrong comparisons in an interval are the login guesses plus those of ChangePassword and DeleteAccount |
| `Lockout.WrongBound` | auth/account.go:30-33 | the lockout bound on all wrong comparisons is off by exactly the latter |
| `Lockout.UnguardedWithoutBound` | auth/password.go:40-43 | for every n, whatever the threshold and duration, a run has n of those in one instant |
| `History.HistoryAgrees` | auth/login.go:61-88 | a live user's counter is the wrong_password events since their last login_success, and account_locked events number the sum over failure streaks of max(0, length - threshold + 1) |
| `Counting.SessionsAreConserved` | cryden.go:81-119 | a user has as many session rows as the log has logins and rotations of theirs |
| `Counting.ListingIsByFamily` | store/memory/session_store.go:51-61 | a listing names each live family of the user exactly once, so its length is their number |
| `EmailChanges.TokensApplyOnceInTime` | auth/email.go:95-114 | each token takes effect at most once, and every applied change was requested for that user and address at most one hour earlier |
| `EmailChanges.EmailFollowsHistory` | auth/email.go:58-68 | a live user's address is that of the last token applied to them, or the one they signed up with |

## Left out

- SQL text, row scanning, isolation levels and driver errors: a Postgres method is one atomic step. `ListByUser` on Postgres (a scan in creation order) is not modelled.
- Families.RunRefines, Families.RotateVerdict, Serialisation.InterleavingsRefineFamilies: the abstract machine of families has no account deletion, which on Postgres makes a family's tokens unknown again. In the engine over memory, `EngineRefinement.RefreshVerdict` covers deletion.
- Serialisation.MoveIsSerial, Serialisation.InterleavingsSerialise: exclude deletion, which `DeletionPlans.DeletionsSerialise` adds.
- ReuseTheorems.DeadFamilyAnswers: excludes deletion, after which a token of the family can be told "invalid".
- Interleaved claims over the memory store, whose `RotateToken` does not recheck the row, and interleaved lockout, email confirmation or Login against ChangePassword: the code does not promise them.
- MemoryStores.UserStore.UpdateEmail: does not model the write of `UpdatedAt`, which nothing reads.
- MemoryStores.UserStore.UpdatePasswordHash: does not model the write of `UpdatedAt`, which nothing reads.
- MemoryStores.AuditStore.Record: does not model the event's `CreatedAt` and id; the order of events is their position in the log.
- `CreatedAt` of users and verification tokens: nothing modelled reads them.
- Access tokens, bcrypt, random generators, loggers, the email sender, configuration defaults: library calls, plumbing and one-branch facts.
- Audit listing with a limit: it would only add an easy member.
- Postgres user and verification stores: the session protocol needs only the users table's keys and hashes.
