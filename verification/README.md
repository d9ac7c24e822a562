# A verified model of the identity provider's backend

The repository is the backend of a single sign-on service: accounts with sessions, one-time codes and password
resets; OAuth clients with assignments, consents, authorization codes and rotating refresh tokens; three mail and
event outboxes; a weekly database backup with retention; and a few small algorithms underneath. This project models
the parts of it that keep state over time and proves what they promise over every run.

## How it is built

**Backups** (`Backup*.dfy`, `Sundays.dfy`). `Backup` is a state machine: the job table, the schedule row, the objects in
the store, the clock, and the program counter of the worker that holds the advisory lock. Every database statement,
transaction and store call is one step, so that a crash, a request of another instance or a change of the clock can fall
between any two of them; puts, gets and deletes may fail, and a failed put or delete may or may not have taken effect.
`BackupSafety` proves the invariant of one step, `BackupRuns` and `BackupSchedule` the promises over runs,
`BackupRecovery` that one undisturbed `Tick` repairs everything a crash can leave behind, `BackupClock` what the wall clock
can do to retention. `BackupFacts` says in columns what the steps read and write. `BackupService` is the code itself, with
its loops and early returns: every effect of every method is proved to be the step of the machine that is due at that
point, so the theorems about runs hold of it, and an undisturbed `Tick` is proved to log exactly the events that
`BackupRecovery` speaks of. What the world does next is a fixed sequence of moments that the service moves along.

**Grants** (`Grants*.dfy`). Each handler is one atomic step on the tables, except for `Login`, `ChangePassword` and
`OAuthAuthorize`, which look at the database before their transaction: those are two steps with a ticket in between, and
anything may happen in the meantime. A transaction that returns an error changes nothing. `GrantsSafety` proves the
joint invariant step by step, `GrantsRuns` and `GrantsResets` the promises over runs, `GrantsCases` what single
operations do and do not achieve, `GrantsWithdrawals` what stays withdrawn, `GrantsFacts` in columns exactly when each
handler takes effect and what it leaves alone, without the predicates the handlers are built from, `GrantsService` that
the statement-by-statement handlers are those steps.

**Outboxes** (`Outbox*.dfy`). The verification mail, password mail and provisioning queues are one machine with the
queue as a parameter. A claimed row is held as a snapshot by its worker, and the snapshots are part of the state: other
workers may claim, finish or fail the same row before the first one writes back. `OutboxFacts` gives each step in columns. `ResetMail`
puts the table of reset tokens beside the password outbox.

**Small cores.** `Scopes` and `Strings` (scope normalization, subset test, `GetMe`'s substring test), `AuditLike`
(escaping for LIKE), `RateLimit` (the fixed-window limiter and its integer printer), `ConsentBackfill` and
`OwnerBackfill` (what the program repairs when it starts).

## Assumptions

- A transaction is atomic: for login, authorization, exchange, rotation, reset, password change and the admin updates
  the lock on the user row justifies it, for exchange, rotation and changes of clients and assignments the lock on the
  client row. For `RevokeApplicationConnection`, `OAuthRevoke`, `AdminDeleteUser`, the middleware and the checks before
  an authorization's transaction it is a choice of the model.
- Crash-stop: only the holder of the advisory lock touches the backup store, and a worker that loses its database
  connection is dead. A put replaces, a delete is idempotent.
- A database statement or transaction that reports an error has left no effect, in the backup worker as in the outboxes; a
  commit whose acknowledgement is lost is not modelled.
- Ids, random codes, tokens and salts are drawn fresh. A hash is its salt together with what was hashed, so two hashes are
  equal only if they were made in the same call; the PKCE check is equality with the challenge.
- Time is an integer count of nanoseconds. Where a promise needs a clock that does not go back, the lemma says so
  (`Forward`, or a `Pass` step with a non-negative duration in the grant store).
- Byte-wise order of UTF-8 strings is the order of their code points. A UUID contains no colon.

## Where the code falls short

Each of these is a theorem with its exact condition, not a change to the model.

- **A failed code exchange does not burn the code.** The deletion at `backend/controllers/oauth.go:350` is rolled back
  with the error, so a code presented with a wrong verifier can be redeemed afterwards (`GrantsCases.ExchangeOnce`).
- **Approving a scope restores a revoked one.** The stored scope of a revoked consent is merged into the new one; nothing
  beyond the request is restored exactly when the old scope lay within it (`GrantsCases.ConsentAfterAuthorization`).
- **A disconnect can be overtaken** by an authorization that was let through before it on the consent it withdraws and
  commits after it, exactly while that request still holds (`GrantsWithdrawals.DisconnectLasts`; a run from the empty store
  is `GrantsWithdrawals.OvertakenFromScratch`). Without a live token a disconnect answers 404 and leaves a live consent
  (`GrantsWithdrawals.DisconnectShuts`).
- **An owner can lock a client open.** An update to `assigned_only` fails exactly when the owner's own assignment is
  soft-deleted, because the unique index counts that row and the lookup does not (`GrantsCases.UpdateClientApplies`,
  `GrantsCases.OwnerLockedOut`), and nothing but assigning the owner again helps (`GrantsCases.OnlyAssigningHelps`). The
  startup backfill passes over such clients for the same reason (`OwnerBackfill.BackfillAssigns`).
- **Overlapping workers lose failures.** `attempts` is a true count throughout a run exactly if no worker writes a failure
  over a count that changed since its claim (`OutboxSafety.CountIsExactWhileFaithful`); a delivery that outlives its
  lease can do that in each of the queues (`OutboxSafety.LateWorkerLosesAFailure`).
- **A clock set back can cost the newest backup**: beyond ten it survives its own closing prune exactly if some other
  success ranks below it (`BackupClock.NewestSurvivesExactly`), and there is a run in which none does
  (`BackupClock.ClockBackCostsTheNewest`).
- **A revoked reset link can wait to be sent again**, with its ciphertext: `RevokeUserResetAccess` supersedes only rows no
  worker holds, and a failed delivery puts the row back (`ResetMail.LinksWorkExactly`, `ResetMail.ClosedLinkWaitsAgain`).
  The link itself is dead for good (`ResetMail.DeadForGood`).
- **A code is swept at the instant it expires** by any authorization, though an exchange would still take it then
  (`GrantsService.Server.DropExpiredCodes`).
- **Consents are backfilled only for pairs without a row**: a grant whose pair has a revoked or narrower consent stays
  uncovered (`ConsentBackfill.BackfillCovers`).
- **A scope of blanks passes the subset test**: `ScopeAllowed` treats only the empty string as no request
  (`Scopes.ScopeAllowed`, `Scopes.BlankRequests`); the handlers normalize first.

## Model

| member | source | states |
|---|---|---|
| `Sundays.SlotsAreWeekly` | backend/backup/config.go:138-146 | The Jakarta Sundays at 02:00, defined by weekday and time of day, are exactly the instants congruent to one of them modulo a week |
| `Sundays.SlotsAWeekApart` | backend/backup/config.go:138-146 | Two different slots are at least a week apart |
| `Sundays.LatestSundayIsASlot` | backend/backup/config.go:138-146 | `LatestSunday` is a slot not in the future and less than a week old; `NextSunday` is a slot in the future |
| `Sundays.LatestSundayUnique` | backend/backup/config.go:139-146 | `LatestSunday(now)` is the one slot s with s <= now < s + a week, both directions |
| `Sundays.LatestSundayMonotone` | backend/backup/config.go:139-146 | A later reading of the clock never gives an earlier slot |
| `Sundays.LatestSundayIdempotent` | backend/backup/config.go:139-146 | The fixed points of `LatestSunday` are exactly the slots, and it is idempotent |
| `Sundays.DueSlotsCollapse` | backend/backup/service.go:239-262 | A due slot is never later than the latest one, however many weeks were missed |
| `BackupSafety.QueriesAgree` | backend/backup/service.go:130-160 | Whenever nothing is running, the newest-first query of `Request` and the oldest-first query of `Tick` select the same job |
| `BackupSafety.ExcessSound` | backend/backup/service.go:396-412 | The prune queries list every interrupted row once and exactly the successes below the newest ten; everything listed ranks below everything kept |
| `BackupSafety.MarkSafe` | backend/backup/service.go:413-424 | A success is marked for pruning only while ten others stay |
| `BackupSafety.SucceedSafe` | backend/backup/service.go:352-365 | Completing the verified job keeps the store bound and never lowers min(10, successes) |
| `BackupSafety.StepSafe` | backend/backup/service.go:179-436 | Every step of the worker, of another instance and of the clock, a crash and a failed call included, keeps the joint invariant of jobs, store and worker position, and never lowers min(10, successes) |
| `BackupRuns.StoreBound` | backend/backup/service.go:396-431 | In every safe state the store holds at most eleven objects |
| `BackupRuns.EveryRunKeepsTheStore` | backend/backup/service.go:179-436 | At every point of every run: at most 11 objects; none without a live row, so none of a deleted job; every success backed by an object with the recorded size and digest; at most one job queued, running or failed |
| `BackupRuns.RetentionNeverDrops` | backend/backup/service.go:396-424 | Between any two points of a run min(10, number of succeeded backups) does not decrease |
| `BackupRuns.RetainedAreNewest` | backend/backup/service.go:396-424 | With a clock that does not go back, nothing pruned or deleted finished later than anything retained |
| `BackupRuns.VictimIsLowest` | backend/backup/service.go:404-412 | Whatever the clock did, with eleven successes the row that goes is exactly the one ranked below all others by recorded finish time |
| `BackupClock.NewestSurvivesExactly` | backend/backup/service.go:396-424 | In every undisturbed `Tick` the backup just verified survives the prune that closes it if and only if there are at most ten, or some other success ranks below it by recorded finish time and id |
| `BackupClock.ClockBackCostsTheNewest` | backend/backup/service.go:396-424 | A run from the empty namespace: ten backups, the clock set back, an eleventh that is uploaded, verified and recorded, and its closing prune, which deletes that one and keeps the ten older ones |
| `BackupSchedule.BeginStamps` | backend/backup/service.go:227-271 | A due transaction stamps exactly one job, with the latest slot, and sets the next run a week after it; one that is not due stamps none and leaves the timetable |
| `BackupSchedule.StepSlots` | backend/backup/service.go:121-123 | Every step keeps `next_run_at` on a slot and never moves it back, and leaves the slots of all jobs alone unless it stamps one |
| `BackupSchedule.StampsIncrease` | backend/backup/service.go:239-262 | Of two slots stamped in one run the later is at least a week after the earlier |
| `BackupSchedule.EveryRunKeepsTheTimetable` | backend/backup/service.go:239-262 | After every run the next run is a Sunday slot and every stamped slot lies a week or more before it |
| `BackupRecovery.CalmTickRecovers` | backend/backup/service.go:179-282 | From every safe state with work to do the undisturbed `Tick`, event by event, makes a verified backup of a job that had not succeeded before, stamped with the latest slot if one was due, and leaves at most ten backups, no job active or half pruned, and a store that holds exactly the successes; row by row, the two prunes remove what their queries list and nothing else |
| `BackupRecovery.CalmTickIdles` | backend/backup/service.go:227-270 | Without work the undisturbed `Tick` prunes and starts nothing: waiting jobs and the schedule of retries stay as they are |
| `BackupRecovery.CalmTickFails` | backend/backup/service.go:276-282 | With work but without an archive the job that was started is failed, one attempt on, due again after its backoff, and no success is lost beyond the opening prune |
| `BackupFacts.RequestExactly` | backend/backup/service.go:125-166 | A request changes nothing exactly while a job is queued or runs; it makes a failed job due at once; otherwise it adds one job without attempts and without a slot |
| `BackupFacts.BeginStartsExactly` | backend/backup/service.go:227-271 | The transaction starts a job exactly if a slot is due or a waiting job has no later next attempt |
| `BackupFacts.BeginExactly` | backend/backup/service.go:227-271 | The started job is the waiting one, or a new one exactly if none waits; it is running with one attempt more, stamped with the latest slot if due; no other row changes |
| `BackupFacts.BeginSchedules` | backend/backup/service.go:229-262 | The schedule row exists afterwards; it moves to a week past the latest slot exactly if it was missing or due |
| `BackupFacts.FailExactly` | backend/backup/service.go:375-394 | The failed job is due again after 2, 4, 8, 16, 32 and then 64 minutes; its attempts, slot and recorded archive stay |
| `BackupFacts.SucceedsExactly` | backend/backup/service.go:344-365 | A row that had not succeeded succeeds at a step exactly if that step is the completion after a verified read back |
| `BackupFacts.VerifiedExactly` | backend/backup/service.go:344-358 | The read back verifies exactly if the object is in the store, comes back unharmed and is what was recorded |
| `BackupFacts.StoreChangesExactly` | backend/backup/service.go:330-431 | The store changes only by the upload of the executed job, the cleanup of a failed upload and the delete of a row that a prune pass has marked |
| `BackupFacts.ForgetExactly` | backend/backup/service.go:428-430 | A row disappears exactly when it is deleted and was last written more than ninety days ago |
| `BackupService.Service.FindNewestActive` | backend/backup/service.go:133-137 | The scan returns the row of the ORDER BY created_at DESC query |
| `BackupService.Service.FindOldestWaiting` | backend/backup/service.go:234-238 | The scan returns the row of the ORDER BY created_at ASC query |
| `BackupService.Service.List` | backend/backup/service.go:398-411 | The listing is the rows in the order finished_at DESC, id DESC |
| `BackupService.Service.Request` | backend/backup/service.go:125-166 | The new state is the machine's request step: busy leaves all as it was, a failed job is queued again, otherwise one job is added |
| `BackupService.Service.Choose` | backend/backup/service.go:227-271 | The tables and the job the transaction's body computes are those of the machine's step |
| `BackupService.Service.CommitBegin` | backend/backup/service.go:227-271 | The committed state is the machine's step; nothing is left to prune, at most ten backups are kept, and no job runs if none was started |
| `BackupService.Service.Prune` | backend/backup/service.go:396-431 | A prune pass that reports no error leaves nothing running or half pruned and at most ten backups; undisturbed, it reports none and its events are exactly one mark, delete and retirement for each listed row |
| `BackupService.Service.Execute` | backend/backup/service.go:300-365 | It reports success exactly if the archive was made and is at least 32 bytes, every write went through, and what the put left in the store came back intact and equal to it; then the row records what the store holds |
| `BackupService.Service.CleanupObject` | backend/backup/service.go:367-373 | The cleanup after a failed upload always ends in the failure path, whether the delete worked or not |
| `BackupService.Service.Fail` | backend/backup/service.go:375-394 | Unless the write itself fails, the job becomes failed with its retry at the backoff for its attempts, and no job is left running |
| `BackupService.Service.Tick` | backend/backup/service.go:179-282 | The lock is released on every path; a `Tick` without an error leaves no job running and at most ten backups. An undisturbed `Tick` reports no error. Without work it starts nothing. With work and an archive, some job that had not succeeded has, at a point of the run before its closing prune, succeeded with that archive recorded and in the store, stamped if a slot was due; at the end no row is active or half pruned and the store holds exactly the successes, at most ten. With work and no archive, the job it started is failed with its backoff |
| `BackupService.Service.Hold` | backend/backup/service.go:200-282 | The events an undisturbed `Tick` logs are exactly the script of the recovery theorems |
| `GrantsSafety.UserClosed` | backend/controllers/admin.go:137-173 | Revoking a user's tokens and deleting its codes makes the grants independent of what happens to that user's row |
| `GrantsSafety.RotateSound` | backend/controllers/oauth.go:377-422 | Rotation and replay keep the invariant of grants |
| `GrantsSafety.UpdateClientSound` | backend/controllers/client.go:202-246 | A change of policy keeps every live token admitted and the owner assigned |
| `GrantsSafety.DeleteUserSound` | backend/controllers/admin.go:204-270 | Removing a user with its clients keeps the invariant for everybody else |
| `GrantsSafety.StepSound` | backend/controllers/oauth.go:328-494 | Every handler keeps the joint invariant of accounts, clients, assignments, consents, codes, tokens and pending tickets |
| `GrantsRuns.EveryRunKeepsCredentials` | backend/controllers/auth.go:379-422 | In every reachable state a live session, a live token and a stored code belong to an active verified user who still has the password they were issued under; a live token and a code have a live consent that covers them; a live token carries the client's present secret and its user is admitted; owners of assigned-only clients are assigned; an OTP exists only for an active unverified user and has at most four wrong attempts |
| `GrantsRuns.EveryRunKeepsFamilies` | backend/controllers/oauth.go:328-375 | Each token belongs to a family that one exchange of one code started, with that code's client, user and scope; that code is gone and started no other family; at most one token of a family is live |
| `GrantsRuns.ExtinctForGood` | backend/controllers/oauth.go:377-422 | A family without a live token never gets one again, whatever follows |
| `GrantsRuns.ReplayEndsTheFamily` | backend/controllers/oauth.go:398-405 | Replaying a rotated or revoked refresh token leaves its family without a live token, for good |
| `GrantsRuns.RotationSucceeds` | backend/controllers/oauth.go:377-422 | For an authenticated client's token, rotation happens exactly when the token is neither revoked nor expired, and then spends it, issues one with the same family, client, user and scope, and touches no other |
| `GrantsRuns.RevocationEndsTheFamily` | backend/controllers/oauth.go:524-534 | The update that filters by family, client and user reaches every token of the family; the user's consent survives it |
| `GrantsRuns.LateCommitsFail` | backend/controllers/user.go:130-167 | Once the password has changed after the check, the second phase of `Login` or `ChangePassword` fails, whatever runs in between |
| `GrantsResets.EveryRunPacesResets` | backend/controllers/password_reset.go:61-91 | After every run a user has at most one usable reset token, it belongs to an active verified account, each token has set at most one password, and a user's tokens were created at least a minute apart and at most five in any rolling hour |
| `GrantsResets.CleaningIsHarmless` | backend/passwordmailqueue/passwordmailqueue.go:186-195 | The seven-day clean-up never changes whether a request is throttled and removes only expired tokens |
| `GrantsCases.ExchangeOnce` | backend/controllers/oauth.go:328-375 | Written out in the columns: an exchange succeeds exactly for a client with its secret, neither deleted nor suspended, a matching unexpired code and an admitted user; it works once; a failed attempt changes nothing, so the code stays redeemable |
| `GrantsCases.ConsentAfterAuthorization` | backend/controllers/oauth_consent.go:66-89 | After a commit exactly the subsets of the union of the stored and the approved scope pass without asking; nothing but the approved scope does exactly when the stored one lay within it |
| `GrantsCases.DisconnectOvertaken` | backend/controllers/connection.go:124-133 | After a disconnect that finds a live token nothing of the pair is covered; a pending authorization brings consent and code back exactly if its account, session and client row still hold |
| `GrantsWithdrawals.DisconnectShuts` | backend/controllers/connection.go:124-133 | A disconnect leaves no live token, code or consent of the pair exactly if it found a live token or there was nothing; without a live token it changes nothing, even if a consent is live |
| `GrantsWithdrawals.OnlyCommitsReopen` | backend/controllers/oauth.go:224-248 | A pair without live token, code and consent stays so at every step of every handler, except exactly the commit of a pending authorization of the pair that still holds |
| `GrantsWithdrawals.DisconnectLasts` | backend/controllers/oauth.go:187-248 | From every reachable state, a disconnect can be undone without the user approving again, by a given ticket and after any further run, if and only if that ticket was pending at the disconnect, had been let through on the stored consent, and still held |
| `GrantsWithdrawals.OvertakenFromScratch` | backend/controllers/oauth.go:187-248 | A run from the empty store in which that happens: registration to exchange, a second request nobody approves, the disconnect, and a live consent and a stored code at the end |
| `GrantsWithdrawals.LogoutIsFinal` | backend/controllers/auth.go:467-478 | After a logout the session signs nobody in, whatever follows |
| `GrantsCases.UpdateClientApplies` | backend/controllers/client.go:202-246 | The update is refused exactly for an open policy on a provisioned client and for a soft-deleted assignment of the owner; otherwise it takes effect, drops the client's codes, and revokes its tokens exactly on a change of policy |
| `GrantsCases.OwnerLockedOut` | backend/controllers/client.go:220-229 | Every usable owner can reach the state in which closing the client fails; assigning the owner again lets it succeed |
| `GrantsCases.OnlyAssigningHelps` | backend/controllers/client.go:220-229 | Nothing else helps: in every run without an assignment of the owner, by itself or by a super admin, no update by anyone makes the client assigned_only |
| `GrantsCases.RegenerateReplaces` | backend/controllers/client.go:315-346 | The secret changes exactly for the caller with the present version, short of 64-bit overflow; the version goes up by one and nothing issued under the old secret survives |
| `GrantsCases.MiddlewareRechecks` | backend/controllers/middleware.go:87-122 | In every safe state the middleware's checks of account, client and assignment never decide, except that a suspended client's live token is refused and revoked |
| `GrantsFacts.VerifyEmailExactly` | backend/controllers/auth.go:157-214 | When the code counts, in columns, what a right and a wrong one leave, and that other users' rows stay |
| `GrantsFacts.ResendExactly` | backend/controllers/auth.go:259-319 | A new code is stored exactly for an active unverified account whose last one is a minute old; its lifetime is the configured one only between five and thirty minutes |
| `GrantsFacts.LoginCommitExactly` | backend/controllers/auth.go:412-422 | A session is made exactly if the account is still active and verified with the very hash that was checked |
| `GrantsFacts.ChangeCommitExactly` | backend/controllers/user.go:130-167 | The change goes through exactly if hash, account and session are as checked; of the user's sessions only the asking one stays live |
| `GrantsFacts.RequestResetExactly` | backend/controllers/password_reset.go:48-101 | A link is made exactly for a usable account with none from the last minute and fewer than five from the last hour; its unused older ones are revoked |
| `GrantsFacts.ConfirmResetExactly` | backend/controllers/password_reset.go:137-199 | The password is set exactly by a link that is unused, unrevoked, younger than fifteen minutes, for a usable account with another password |
| `GrantsFacts.OnlyManagersChange` | backend/controllers/client.go:443-449 | Whoever neither owns the client nor is a super admin changes nothing through any of the five management handlers, nor does anyone on a deleted client |
| `GrantsFacts.UpdateClientExactly` | backend/controllers/client.go:202-246 | The two refusals and, otherwise, the exact change of client, owner's assignment, tokens and codes |
| `GrantsFacts.RegenerateExactly` | backend/controllers/client.go:315-346 | The secret changes exactly for the present version, an unset one counting as 1, short of 64-bit overflow |
| `GrantsFacts.UnassignExactly` | backend/controllers/client_assignment.go:181-199 | Exactly a live assignment can be closed that is not the owner's of an assigned-only client |
| `GrantsFacts.AuthorizeCheckExactly` | backend/controllers/oauth.go:150-221 | A request passes exactly for a signed-in admitted user, a registered redirect URI, a non-empty supported scope, a nonce for openid, and a live covering consent or an approval it may ask for |
| `GrantsFacts.AuthorizeCommitExactly` | backend/controllers/oauth.go:224-248 | Code and consent are stored exactly if account, session and client row are still there; the consent has the union of the scopes |
| `GrantsFacts.WrongSecretChangesNothing` | backend/controllers/oauth.go:424-443 | Without the client's secret, or for a deleted or suspended client, exchange, rotation and revocation leave the store as it was |
| `GrantsFacts.ExchangeExactly` | backend/controllers/oauth.go:328-375 | The exact condition of an exchange and its exact effect: this code goes, this token comes, nothing else changes |
| `GrantsFacts.RotateExactly` | backend/controllers/oauth.go:377-422 | For the client's own token and secret: a revoked one takes exactly its family with it, a live allowed one is replaced, any other changes nothing |
| `GrantsFacts.RevokeExactly` | backend/controllers/oauth.go:502-546 | The tokens revoked are exactly those of the token's family, client and user |
| `GrantsFacts.PassesExactly` | backend/controllers/middleware.go:86-122 | The middleware lets exactly an unrevoked token of a usable account through whose client is live and admits the user |
| `GrantsFacts.DisconnectExactly` | backend/controllers/connection.go:124-133 | It acts exactly if a live token of the pair exists, and then closes the pair and nothing else |
| `GrantsFacts.SetStatusExactly` | backend/controllers/admin.go:137-173 | The account is switched as asked; off closes everything it has, on opens nothing |
| `GrantsFacts.DeleteUserExactly` | backend/controllers/admin.go:204-270 | What remains of each table is exactly what refers neither to the user nor to a client it owned |
| `GrantsService.Server.RequireSession` | backend/controllers/middleware.go:14-45 | It passes exactly the live sessions of usable accounts and revokes the session of a closed one |
| `GrantsService.Server.Logout` | backend/controllers/auth.go:475-478 | Exactly that session is revoked, every other one and everything else is as before, and the session no longer signs anybody in |
| `GrantsService.Server.RequireAuthToken` | backend/controllers/middleware.go:86-122 | It passes exactly the live tokens of usable accounts admitted to an active client; its revocations are the step's |
| `GrantsService.Server.Register` | backend/controllers/auth.go:92-112 | An unverified account with a fresh OTP is added, nothing else changes |
| `GrantsService.Server.VerifyEmail` | backend/controllers/auth.go:157-214 | The account is verified now exactly if it exists, is active and unverified, and its record has not expired, has fewer than five wrong attempts and holds this code; a wrong code raises the count by one or, at the fifth, removes the record; other users' rows stay |
| `GrantsService.Server.JudgeOtp` | backend/controllers/auth.go:176-212 | `VerifiedNow` exactly for the recorded code before its expiry and before the fifth wrong attempt; expired exactly at or past its expiry; otherwise no account changes |
| `GrantsService.Server.Resend` | backend/controllers/auth.go:259-319 | A new OTP replaces the old one exactly for an active unverified account out of its cooldown |
| `GrantsService.Server.Login` | backend/controllers/auth.go:378-422 | Whatever happens between check and transaction, a session is only created for the password that was checked, still current, on a usable account; undisturbed, exactly for an active verified account and its password |
| `GrantsService.Server.CommitLogin` | backend/controllers/auth.go:412-422 | The transaction creates the session exactly if the account is usable and its hash is the one checked |
| `GrantsService.Server.ChangePassword` | backend/controllers/user.go:103-167 | On success the session that asked is signed in with the new password and every other session, token, code and reset token of the user is dead, whatever happened between check and transaction; undisturbed, it succeeds exactly for a live session of a usable account, its present password and a different new one |
| `GrantsService.Server.CommitChange` | backend/controllers/user.go:130-167 | It succeeds exactly if hash, account and session are as checked, and writes what the step says |
| `GrantsService.Server.RequestPasswordReset` | backend/controllers/password_reset.go:48-101 | A token is created exactly for a usable account that is not throttled, and older ones are revoked |
| `GrantsService.Server.LatestReset` | backend/controllers/password_reset.go:61-72 | The newest-first query decides the cooldown: younger than a minute exactly if some creation is |
| `GrantsService.Server.ConfirmPasswordReset` | backend/controllers/password_reset.go:137-199 | `Done` exactly if the token exists, is unused, unrevoked and younger than fifteen minutes, its account is active and verified and has another password; then the password is the new one and no session, token, code or reset token of the user works; otherwise nothing changes |
| `GrantsService.Server.RevokeClientUserGrant` | backend/controllers/application_access.go:48-58 | Tokens and codes of the pair are closed and its consent revoked, all others stay |
| `GrantsService.Server.CreateClient` | backend/controllers/client.go:125-142 | The client is added with its owner assigned, or nothing happens if the owner is gone |
| `GrantsService.Server.UpdateClient` | backend/controllers/client.go:202-246 | The transaction, with its rollback at the unique index, is the step |
| `GrantsService.Server.RegenerateClientSecret` | backend/controllers/client.go:315-346 | The optimistic version check and its writes are the step; refusal changes nothing |
| `GrantsService.Server.DeleteClient` | backend/controllers/client.go:370-401 | It happens exactly for those who manage the client and leaves no covering consent and no live assignment |
| `GrantsService.Server.AssignClientUser` | backend/controllers/client_assignment.go:128-164 | A soft-deleted or inactive row is revived, the pair's earlier grants are revoked |
| `GrantsService.Server.DeleteClientAssignment` | backend/controllers/client_assignment.go:181-199 | The assignment is closed and no live token of the pair is left; the owner of an assigned-only client cannot be removed |
| `GrantsService.Server.PersistConsent` | backend/controllers/oauth_consent.go:66-89 | The pair's consent is live, covers the request, and holds the union of the scopes |
| `GrantsService.Server.Authorize` | backend/controllers/oauth.go:150-248 | Whatever happens between checks and transaction, a returned code is stored for the asked client and scope, for a usable account with a live session and a covering consent; undisturbed, it is returned exactly for a signed-in user whom the client admits, a registered redirect URI, a supported scope, and a stored consent or an approval |
| `GrantsService.Server.CommitAuthorization` | backend/controllers/oauth.go:224-248 | Code and consent are stored exactly if account and session are still good and the client row exists; otherwise nothing is |
| `GrantsService.Server.DropExpiredCodes` | backend/controllers/oauth.go:222-223 | No code is added or changed, and an exchange is accepted afterwards exactly if it was before and its code does not expire at this very instant |
| `GrantsService.Server.IssueTokenPair` | backend/controllers/oauth.go:445-494 | A token is issued exactly if account, client and assignment allow it, with the given family and scope |
| `GrantsService.Server.Exchange` | backend/controllers/oauth.go:328-375 | A token is issued exactly if the client is neither deleted nor suspended and presents its own secret, the code is its, unexpired, with this redirect URI and challenge, and the user is usable and admitted; the transaction with all its rollbacks is the step |
| `GrantsService.Server.Rotate` | backend/controllers/oauth.go:377-422 | Rotation and the detection of reuse both demand the client's own secret and its own token; reuse leaves the family without a live token; refusals change nothing |
| `GrantsService.Server.Revoke` | backend/controllers/oauth.go:502-546 | With the client's own secret, a token of that client leaves its whole family without a live token, and other families, codes and consents as they were; anything else changes nothing |
| `GrantsService.Server.Disconnect` | backend/controllers/connection.go:124-133 | It reports not found exactly without a change; otherwise no live token of the pair is left |
| `GrantsService.Server.UpdateRole` | backend/controllers/admin.go:92-105 | The role is set, the user's tokens are revoked and codes deleted, sessions stay |
| `GrantsService.Server.UpdateStatus` | backend/controllers/admin.go:137-173 | The account is active exactly as asked; a deactivated one has no live session, token, code, OTP or usable reset token |
| `GrantsService.Server.DeleteUser` | backend/controllers/admin.go:204-270 | Deleting table by table removes exactly the user, the clients it owns and every row that refers to them |
| `OutboxSafety.StepSound` | backend/mailqueue/mailqueue.go:220-309 | Every step of every queue keeps the invariant of rows, snapshots and keys |
| `OutboxSafety.EveryRunKeepsRows` | backend/passwordmailqueue/passwordmailqueue.go:366-406 | Overlapping workers included: a live row has attempts left; a secret's next attempt lies before its expiry; its ciphertext exists exactly while it is live; a lock exactly while processing |
| `OutboxSafety.SettledStays` | backend/mailqueue/mailqueue.go:269-309 | Delivered, dead and superseded mail rows and delivered events never change again, in any run |
| `OutboxSafety.DeadWaitsForRetry` | backend/controllers/provisioning_admin.go:38-50 | A dead event leaves that status only through the admin's retry |
| `OutboxSafety.ClaimableWhenReady` | backend/mailqueue/mailqueue.go:195-225 | In every reachable state a row can be claimed at t exactly when it is live and its computed ready time is <= t |
| `OutboxSafety.WakeInTime` | backend/provisioning/provisioning.go:349-372 | The clamped timer rings at most 100 ms after the first row can be claimed, and, short of the recovery round, only when one can |
| `OutboxSafety.EveryPromptRunIsExact` | backend/provisioning/provisioning.go:374-446 | When deliveries end inside their timeout, no two workers hold a row, `attempts` is the number of failures since creation or retry, and no live row has failed as often as allowed |
| `OutboxSafety.CountIsExactWhileFaithful` | backend/mailqueue/mailqueue.go:280-309 | `attempts` equals the failures throughout a run if and only if every failure is written over the count its worker read |
| `OutboxSafety.LateWorkerLosesAFailure` | backend/mailqueue/mailqueue.go:280-309 | In each queue there is a run in which a worker outlives its lease and a failure is lost |
| `OutboxSafety.KeyedForever` | backend/provisioning/provisioning.go:190-210 | Once an assignment has its snapshot event it has exactly that one for good |
| `OutboxFacts.ClaimExactly` | backend/mailqueue/mailqueue.go:220-242 | A claim takes exactly a pending row that is due or one whose lease has run out, leases it and leaves its count alone |
| `OutboxFacts.FailExactly` | backend/mailqueue/mailqueue.go:280-309 | A failure is written only over a row in processing: one attempt more, put back after its delay, or dead after the last attempt or past its expiry; no other row changes |
| `OutboxFacts.DelaysDouble` | backend/mailqueue/mailqueue.go:311-319 | The delays double from 2 s to 256 s for mail and from 5 s to 1280 s for events |
| `OutboxFacts.FinishExactly` | backend/mailqueue/mailqueue.go:269-278 | A settled outcome is written only over a row in processing, whose ciphertext goes with it; no other row changes |
| `OutboxFacts.EnqueueExactly` | backend/passwordmailqueue/passwordmailqueue.go:78-126 | Mail is queued exactly with an expiry in the future; a new code supersedes exactly the user's pending ones |
| `OutboxFacts.RevokeExactly` | backend/passwordmailqueue/passwordmailqueue.go:130-148 | Exactly the user's pending reset links are superseded |
| `OutboxFacts.EmitExactly` | backend/provisioning/provisioning.go:190-210 | The insert is skipped exactly when a row has the key already |
| `OutboxFacts.CleanupExactly` | backend/passwordmailqueue/passwordmailqueue.go:186-195 | Exactly the mail settled for a week goes; of events, exactly those without a key delivered thirty days ago |
| `OutboxService.Dispatcher.Enqueue` | backend/mailqueue/mailqueue.go:77-105 | The row is added exactly with an expiry in the future, and an OTP supersedes the user's pending ones |
| `OutboxService.Dispatcher.Emit` | backend/provisioning/provisioning.go:190-210 | The insert that ignores a conflict on the dedupe key is the step |
| `OutboxService.Dispatcher.ReconcileExistingAssignments` | backend/provisioning/provisioning.go:215-246 | With other instances acting before every statement: every assignment of the clients handled so far has its event; it ends without an error exactly after the last client, and, if no statement fails, with one only at a client that is missing or not assigned_only; events that exist stay; undisturbed, it only adds rows for keys that had none |
| `OutboxService.NothingToAdd` | backend/provisioning/provisioning.go:212-246 | Once every assignment has its event, an undisturbed pass changes nothing |
| `OutboxService.Dispatcher.ClaimOne` | backend/passwordmailqueue/passwordmailqueue.go:267-289 | It claims the oldest claimable row, and none only if there is none |
| `OutboxService.Dispatcher.Finish` | backend/mailqueue/mailqueue.go:269-278 | The conditional write is the step; a write that fails only loses the outcome |
| `OutboxService.Dispatcher.Fail` | backend/provisioning/provisioning.go:428-446 | The conditional write computed from the snapshot is the step, for a row still in processing |
| `OutboxService.Dispatcher.Deliver` | backend/passwordmailqueue/passwordmailqueue.go:291-350 | Once the checks have passed, the message counts as sent exactly if the send succeeded, and `Delivered` is recorded only then; a failed send ends in the failure write, which without interference puts the row back as the step says. A send only starts before its row expires, and other workers and the clock may act before it ends; if all deliveries end in time it ends within the patience of a delivery after the claim |
| `OutboxService.Dispatcher.Check` | backend/mailqueue/mailqueue.go:244-257 | The checks let a delivery go on only before its row expires and, where a code or reset token is looked up, only if it was found active; undisturbed, exactly then; otherwise it ends failed or, mail only, superseded |
| `OutboxService.Dispatcher.DispatchBatch` | backend/mailqueue/mailqueue.go:181-193 | At most a hundred rows; without an error it stops early only when no row can be claimed; undisturbed and with sends that succeed, it settles exactly the oldest hundred ready rows, all of them if there are no more, and leaves the others as they were |
| `OutboxService.Dispatcher.NextWakeDelay` | backend/mailqueue/mailqueue.go:195-218 | The delay lies within 100 ms and 30 s and meets the wake-up promise |
| `OutboxService.Dispatcher.Retry` | backend/controllers/provisioning_admin.go:38-50 | Exactly dead events are retried: pending, claimable at once, attempts zero |
| `ResetMail.LinksWorkExactly` | backend/passwordmailqueue/passwordmailqueue.go:130-148 | In every run, the token of each waiting reset-link row is unused and unrevoked throughout if and only if no failed delivery writes a row back whose token was closed while the worker held it, and no clean-up takes the token of a waiting row |
| `ResetMail.ClosedLinkWaitsAgain` | backend/passwordmailqueue/passwordmailqueue.go:377-406 | A run in which that happens: claimed, revoked by a password change, failed, and pending again with its ciphertext |
| `ResetMail.DeadForGood` | backend/passwordmailqueue/passwordmailqueue.go:130-148 | A token that is used, revoked or gone never becomes usable again, so such a link never works |
| `ResetMail.SpendExactly` | backend/controllers/password_reset.go:154-186 | A link sets a password exactly while its token is unused, unrevoked and unexpired; the user's other unused tokens are revoked, other users' stay |
| `ResetMail.OfficeRunsTheOutbox` | backend/passwordmailqueue/passwordmailqueue.go:78-148 | The outbox beside the token table runs as the outbox machine does, so the theorems about that machine hold of it |
| `RateLimit.Limiter.Handle` | backend/controllers/rate_limit.go:21-64 | The handler's map update and verdict are those of the specification, purge and capacity check included |
| `RateLimit.FullExactly` | backend/controllers/rate_limit.go:33-46 | A capacity refusal happens exactly when the key has no window and 8192 other keys have unexpired ones |
| `RateLimit.EveryRun` | backend/controllers/rate_limit.go:21-64 | With a clock that does not go back: never more than 8192 keys; verdicts agree with an unbounded per-key counter except for capacity refusals; any interval of one window length admits at most 2 * limit requests per key |
| `RateLimit.LimitedOnlyWhenUsedUp` | backend/controllers/rate_limit.go:48-60 | A request is refused for its rate only if `limit` requests of its key got through within the last window length: the first ones of a window are admitted |
| `RateLimit.ReverseInPlace` | backend/controllers/rate_limit.go:75-77 | The swap loop reverses the slice |
| `RateLimit.FmtInt` | backend/controllers/rate_limit.go:66-79 | It prints the decimal digits, and nothing for a negative number |
| `RateLimit.DecimalDenotes` | backend/controllers/rate_limit.go:66-79 | The printed digits denote the number, without leading zero |
| `Scopes.NormalizeScope` | backend/utils/security.go:39-50 | It returns the sorted listing of the set of words |
| `Scopes.NormalizeIdempotent` | backend/utils/security.go:39-50 | Normalizing twice is normalizing once |
| `Scopes.NormalizeCanonical` | backend/utils/security.go:39-50 | Same normal form exactly for the same set of words |
| `Scopes.MergedScopeIsUnion` | backend/controllers/oauth_consent.go:83-83 | The merged consent scope names exactly the union |
| `Scopes.ScopeAllowed` | backend/utils/security.go:52-63 | It holds exactly for a non-empty request whose words are among the allowed |
| `Scopes.BlankRequests` | backend/utils/security.go:52-63 | A normalized request is empty exactly when it names nothing; a raw one of blanks is not |
| `Scopes.GetMeTestIsMembership` | backend/controllers/user.go:41-48 | On every normalized scope the padded-substring test is membership of the word |
| `Strings.SortSet` | backend/utils/security.go:47-49 | The keys of a set in strictly increasing order, whatever order they are visited in |
| `AuditLike.EscapeIsOnePass` | backend/controllers/audit.go:301-305 | The three successive replacements equal one pass that escapes each special character once |
| `AuditLike.SearchFindsExactly` | backend/controllers/audit.go:248-258 | The LIKE pattern made from any search text matches exactly the texts that contain it, and is well formed |
| `ConsentBackfill.KeyInjective` | backend/database/database.go:203-203 | The text keys of two pairs are equal exactly for equal pairs |
| `ConsentBackfill.FoldGrants` | backend/database/database.go:202-220 | Folding tokens in one by one gives each pair exactly the words of all its tokens and its earliest time |
| `ConsentBackfill.CandidatesOf` | backend/database/database.go:194-239 | One candidate per pair with a token, with the union scope and the earliest time, in order of client and user |
| `ConsentBackfill.CandidatesUnique` | backend/database/database.go:194-239 | The candidates depend only on the set of tokens, not on their order or the map's |
| `ConsentBackfill.Store.Backfill` | backend/database/database.go:165-192 | Existing rows stay, every other pair with an unexpired grant gets its summary, nothing else is added |
| `ConsentBackfill.BackfillCovers` | backend/database/database.go:165-192 | After the backfill a grant that is not revoked and not wholly expired is covered exactly when its scope is non-empty and its pair had no row or one that covered it |
| `ConsentBackfill.BackfillGrantsNoMore` | backend/database/database.go:165-239 | A new consent names only words that some grant of the pair had which was neither revoked nor wholly expired |
| `ConsentBackfill.BackfillOnce` | backend/database/database.go:165-192 | Running it again later changes nothing |
| `OwnerBackfill.BackfillOwners` | backend/database/database.go:138-163 | Every live client without any assignment row gets its owner's, nothing else changes |
| `OwnerBackfill.BackfillAssigns` | backend/database/database.go:138-163 | Owners of assigned-only clients are assigned afterwards exactly if they were in every such client that had a row at all, soft-deleted ones counted |
| `OwnerBackfill.BackfillKeepsGrants` | backend/database/database.go:138-163 | No grant loses what it rests on |

## Left out

- HTTP binding, cookies, CORS, error messages, audit descriptions, the in-memory audit channel: no invariants of their own.
- SMTP, webhook requests, the object store's protocol, `pg_dump`, age, JWT, RSA, bcrypt and AES-GCM: nondeterministic
  outcomes or abstract values; the access token's own expiry, `last_used_at` and `last_seen_at` are not fields of the model.
- Backup workers that outlive a lost database connection: the code fences them on database writes but not on store writes.
- The order of interrupted rows within one prune pass: the query names none, the model fixes one.
- The version check of the dump tool before an export: a failed export covers it.
- A database commit whose acknowledgement is lost: see Assumptions.
- The order in which a provisioning receiver applies events.
- The cooldown between OTP mails as a promise over runs: its record is deleted with the OTP.
- `GetApplicationConnections`, which folds tokens into a listing, and the other read-only handlers.
- `parseOAuthPrompt`, `validateRedirectURIs`, `normalizeClientScopes` with arguments (it is only called without any),
  configuration parsing, avatar upload, pagination, login geolocation, the super-admin bootstrap.
- The row locks themselves: a transaction is one atomic step, see Assumptions.
- Update in place of single rows: tables are immutable maps that the methods replace, which the original's row updates
  refine without aliasing.
- The frontend, the documentation and the deployment scripts.
