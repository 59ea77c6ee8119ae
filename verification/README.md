# Verification of the authentication CLI

A Dafny model of a command-line authentication program: several CLI processes that share one
PostgreSQL database and one Redis server, log users in with a password and optionally a one-time
code, hold sessions, enrol users in two-factor authentication, lock accounts after repeated
failures, and bring the database schema up to date when they start.

`dafny verify dfyconfig.toml` checks everything.

## How it is put together

- **One process** (`Program.dfy`) is a state machine that waits for the answer to exactly one
  request at a time (a database statement, a Redis call, the clock, the random source, the user)
  and whose next state depends on that answer alone. It covers the whole program from start to exit.
- **The world** (`World.dfy`) is any number of such processes, the two tables (`Tables.dfy`), the
  lockout keys of each user (`Lockout.dfy`) and one clock. A run is any sequence of answered
  requests and clock ticks, so every interleaving of the processes' requests is a run. A request
  may fail, with or without having taken effect, at any point.
- **Theorems over all runs**: `Invariants`, `SessionHistory`, `HeldTokens`, `TokenLife`,
  `Provenance`, `LoginChain`, `Enrolment`, `Typed`, `Commands`, `LockoutRuns`, `Charges` and
  `Registration`. `Witnesses` builds runs event by event for what cannot be ruled out.
- **Each operation seen from outside** (`Transcripts.dfy`): which requests one call makes, in which
  order and with which arguments, and what it makes of the answers, written down without the state
  machine; from one validation up to `Application`, the whole process from start to exit.
- **The code as it runs**: the Redis repository (`LoginSecurity`), the PostgreSQL repositories and
  the unit of work (`Repositories`), the three services with the maps they update in place
  (`Services`), the handlers with their prompt loops (`Handlers`) and the shell (`Shell`). The
  services, handlers and the shell talk to a `Port` (`Ports`) that only accepts the request
  `Program` expects next, gives back an arbitrary answer of the right kind and logs both. Every
  method's contract says two things: it leaves the process where `Program` says, and what it added
  to the log is a transcript of its operation with the result it returns. So program, code and
  transcript cannot differ in any request, argument or result.
  `Conversation.RunsAreConversations` closes the gap to the runs: in every run of many processes,
  each one is where its own log has taken it, and its requests and answers are among those a port
  allows.
- **Migrations** (`MigrationFiles`, `Migrator`) and **stored secrets** (`Base64`, `SecretCipher`)
  stand on their own.

## Assumptions

- There is one clock, in whole milliseconds, that never goes back. Reading it cannot fail.
- Tokens come out fresh and non-empty, no two generated tokens have the same hash, and identifiers
  are fresh. Challenge identifiers and session tokens come from the same generator.
- All processes use the same attempt limit, lockout duration, timeouts and encryption key.
- `Config.Lawful` is what the run theorems need of the configuration: a limit of at least one
  attempt, a lockout of at least one millisecond, and decryption that undoes encryption, which
  `SecretCipher.RoundTrip` shows for the cipher. `Lockout.LocksExactlyWithAMillisecond` shows what
  the second is for: the lockout duration is cut to whole milliseconds before Redis sees it
  (internal/repository/loginsecurity/redis.go:78), while the configuration accepts any positive
  duration (internal/config/config.go:201-211). Shorter than a millisecond, no account ever locks.
- Password verification, the hash, the cipher's sealing and the one-time-code check (section 5.2 of
  RFC 6238) are functions of which nothing else is known. A password that verifies and a code that
  is accepted are what "shown" means below.
- A migration runner that could not give its lock back may hold it until its process is gone,
  because closing its connection only returns it to the pool
  (internal/database/postgres/migrations.go:38-44). `Migrator.CanFinish` starts from a free lock.
- Statements are atomic. The login transaction reads the user first and then updates and inserts
  together when it commits, which is what PostgreSQL's read-committed level guarantees.

## Properties that do not hold

Each of these is shown by a run, and the condition under which it holds is proved for all runs.

- A login does not always report the login before it: two logins of one user report the same one
  when both read the user before either commits (`Witnesses.LoginsThatReportTheSame`). It does if
  and only if no login of that user commits in between (`LoginChain.PreviousLoginIsLatestWhenRead`).
- A session can be created without a code while the user row says that two-factor is on
  (`Witnesses.LoginWithoutCodeWhileOn`). That is so if and only if it was turned on after the login
  read the row and not off since (`Enrolment.CodelessLoginWhileOn`).
- A pending enrolment can outlive the command that began it (`Witnesses.SetupThatIsLeftPending`).
  `Enrolment.EnrolmentCleansUp` says exactly when.

## Model

| member | source | states |
|---|---|---|
| `Lockout.InvariantHolds` | internal/repository/loginsecurity/redis.go:14-25 | whatever happens to a user's two keys, the counter stays below the limit, is absent while the user is blocked, and no block outlasts the lockout duration |
| `Lockout.FailuresAreConserved` | internal/repository/loginsecurity/redis.go:14-25 | failures the script counted are the counter, plus the limit for every block set, plus what resets erased |
| `Lockout.RateBound` | internal/repository/loginsecurity/redis.go:14-25 | in any stretch of time T with R resets the script counts at most limit * (T / duration + 1 + R) failures |
| `Lockout.RateBoundIsMet` | internal/repository/loginsecurity/redis.go:14-25 | for every T some sequence without resets reaches that bound, so it cannot be lowered |
| `Lockout.OpenRepliesBound` | internal/repository/loginsecurity/redis.go:18-24 | replies that leave the account open number at most (limit - 1) for every reset, expiry and the start, less what the counter already held |
| `Lockout.BlockLasts` | internal/repository/loginsecurity/redis.go:15-17 | a block that no reset touches lasts its whole duration, and failures meanwhile leave both keys as they are |
| `Lockout.LocksExactlyWithAMillisecond` | internal/repository/loginsecurity/redis.go:18-24 | an account can become blocked at all if and only if the duration is at least a millisecond |
| `LoginSecurity.KeysNeverCollide` | internal/repository/loginsecurity/redis.go:93-99 | no two users share a Redis key, and no counter key is a block key |
| `LoginSecurity.RedisRepository.IsBlocked` | internal/repository/loginsecurity/redis.go:59-65 | answers whether the user's automaton is blocked now, or fails |
| `LoginSecurity.RedisRepository.RecordFailureScript` | internal/repository/loginsecurity/redis.go:14-25 | the script command by command: its reply and the keys it leaves, for a live block, a first or later failure, the limit, and an expiry PSETEX refuses |
| `LoginSecurity.RedisRepository.RecordFailure` | internal/repository/loginsecurity/redis.go:67-84 | moves exactly this user's automaton by one failure, with the duration cut to milliseconds; a lost request changes nothing, a lost reply has changed it |
| `LoginSecurity.RedisRepository.Reset` | internal/repository/loginsecurity/redis.go:86-91 | leaves this user's automaton clean and every other user's as it was |
| `LoginSecurity.MillisecondsRoundDown` | internal/repository/loginsecurity/redis.go:78 | the duration Redis is given is the configured one in whole milliseconds, less than one short of it |
| `LockoutRuns.AccountFollows` | internal/service/auth/service.go:119-143 | in every run of any processes a user's keys behave as the automaton does on that user's failures and resets alone |
| `LockoutRuns.AccountRateBound` | internal/service/auth/service.go:251-262 | the rate bound, for any window of any run, over the checks and recordings of all processes |
| `LockoutRuns.AccountConservation` | internal/service/auth/service.go:251-262 | conservation of failures in every run, with the counter below the limit and absent while a block stands |
| `LockoutRuns.LateFailuresAreInFlight` | internal/service/auth/service.go:129-138 | failures recorded during a block are paid for by attempts that had passed the check before it |
| `LockoutRuns.InFlightBound` | internal/service/auth/service.go:169-191 | with P processes, at most P - 1 failures are recorded during a block after the one that set it |
| `LockoutRuns.CodeLoopPrompts` | internal/handler/auth/handler.go:99-131 | with counter c at the start, the code loop prompts at most (limit - 1) * (1 + resets + expiries) + 1 - c times, whatever other processes do |
| `Charges.EveryWrongCredentialIsRecorded` | internal/service/auth/service.go:251-262 | in every run and for every user, the wrong passwords and wrong codes found behind an open gate are exactly as many as the failures recorded plus the processes whose very next request records one |
| `Charges.PasswordDecides` | internal/service/auth/service.go:129-142 | once the gate is open, the password that was typed and the row that was read decide the next request: recording a failure of that user, drawing a challenge, or clearing the failures on the way to the session |
| `Charges.CodeDecides` | internal/service/auth/service.go:180-198 | a code that does not match is recorded next, one that matches clears the failures next on the way to the session, one that cannot be checked does neither |
| `Tables.ByNameIsTheRow` | internal/repository/user/postgres.go:56-58 | looking a user up by name finds the user of that name |
| `Tables.CommitLoginKeepsSound` | migrations/002_create_sessions.sql:1-11 | the login transaction keeps all keys, unique indexes and foreign keys |
| `Tables.UserStatementsKeepSound` | migrations/001_create_users.sql:1-18 | registering, enabling and disabling keep them, and the CHECK that the flag is on exactly when a secret is stored |
| `Tables.RevokeIsLocalAndOnce` | internal/repository/session/postgres.go:74-89 | revoking works at most once on a session and changes no other session's standing |
| `Tables.CleanupKeepsStanding` | internal/repository/session/postgres.go:91-98 | deleting expired sessions makes none valid and none invalid |
| `Repositories.UserRepository.FindByUsername` | internal/repository/user/postgres.go:56-58 | the row of that name, not found, or a failure |
| `Repositories.UserRepository.FindByID` | internal/repository/user/postgres.go:60-62 | the row found is the only one with that key, the one its own name finds, and has a secret exactly when two-factor is on; not found only when no row has the key |
| `Repositories.UserRepository.Create` | internal/repository/user/postgres.go:37-54 | inserts the row and nothing else, or refuses a taken name or identifier, or fails with or without effect |
| `Repositories.UserRepository.UpdateLastLogin` | internal/repository/user/postgres.go:64-73 | sets one user's last login, not found when there is no such user |
| `Repositories.UserRepository.EnableTOTP` | internal/repository/user/postgres.go:75-88 | turns two-factor on and stores the secret only for a user who has it off, else a conflict |
| `Repositories.UserRepository.DisableTOTP` | internal/repository/user/postgres.go:90-103 | turns it off and erases the secret only for a user who has it on, else a conflict |
| `Repositories.SessionRepository.Create` | internal/repository/session/postgres.go:33-47 | adds the row; a duplicate hash or identifier is reported as a conflict and nothing else is; an unknown user or a fault as a failure |
| `Repositories.SessionRepository.FindByTokenHash` | internal/repository/session/postgres.go:49-72 | the row found is the only one with that hash, belongs to a user there is, and decides at any moment whether the session is valid; not found only when no row has the hash |
| `Repositories.SessionRepository.Revoke` | internal/repository/session/postgres.go:74-89 | marks an open session revoked, and reports not found for one that is missing or already revoked |
| `Repositories.SessionRepository.DeleteExpired` | internal/repository/session/postgres.go:91-98 | from the given time on no answer about a valid session changes, every session still to expire stays, and only those are left |
| `Repositories.UnitOfWork.WithinTransaction` | internal/repository/transaction/postgres.go:20-42 | last login and session row change together or not at all at whatever step it fails; success means they did; only a lost commit reply can report failure after the fact |
| `Invariants.RunsAreConsistent` | internal/service/session/service.go:43-131 | in every run: tables keep their constraints, each session row is as it was issued and only expired ones are missing, a token hash is bound to one user and one process, both enrolment maps stay inverse, and each process's memory fits the place it is waiting at, with no login challenge at the prompt and exactly one in the code loop |
| `SessionHistory.ValidIffHistory` | internal/service/session/service.go:91-96 | at any moment the tables make a token valid if and only if the run holds a committed login that issued it, its expiry is still to come, and no revocation of it took effect |
| `SessionHistory.IssuedOnce` | internal/service/session/service.go:43-78 | a token is issued by one login only |
| `SessionHistory.DeadStaysDead` | internal/service/session/service.go:91-96 | an issued token that once fails to validate never validates again |
| `SessionHistory.ClosedSince` | internal/repository/session/postgres.go:74-89 | once a revocation has succeeded the session stays closed to further ones |
| `SessionHistory.RevokedOnce` | internal/service/session/service.go:107-131 | of all attempts to revoke one session, by any processes, only one succeeds |
| `SessionHistory.LogoutIsLocal` | internal/service/session/service.go:124-130 | a revocation makes its own session revoked and changes the standing of no other |
| `HeldTokens.HeldTokenIsOwnAndOpen` | internal/cli/state.go:14-40 | a token a process holds was issued to that process, and its row is unrevoked or gone after expiry |
| `HeldTokens.NoSharedTokens` | internal/handler/auth/handler.go:134-135 | no two processes hold the same token |
| `HeldTokens.LookupNeverFindsRevoked` | internal/service/session/service.go:84-93 | looking the local token up, to validate it or to log out, never finds a revoked row, and finds none only after the session has expired |
| `HeldTokens.RefusalMeansExpiry` | internal/handler/session/handler.go:28-45 | at whatever stage a validation refuses the local token, its session has expired |
| `HeldTokens.LogoutFailsOnlyAfterExpiry` | internal/service/session/service.go:107-131 | a logout that is answered reports a session no longer good only after it has expired |
| `TokenLife.TokenIsKeptWhileGood` | internal/cli/state.go:30-40 | a process that holds a token keeps it until it logs out, exits or the session expires, whatever commands it runs and whatever fails |
| `TokenLife.ValidationDecides` | internal/service/session/service.go:80-105 | validating, made of three requests, passes its clock reading if and only if at that moment the run holds a committed login that issued the token, its expiry is to come and no revocation of it took effect |
| `TokenLife.LogoutRevokes` | internal/service/session/service.go:107-131 | in every run, a logout that succeeds leaves the session of the token the process held revoked, and no later moment finds that token valid |
| `HeldTokens.ValidationIsSound` | internal/service/session/service.go:80-105 | when validation gets as far as the user, the session was valid for that user at the moment the clock was read |
| `LoginChain.LastLoginIsLatest` | internal/repository/user/postgres.go:64-73 | a user's last login is always the time of the latest committed login, or none |
| `LoginChain.LatestUnchangedExactly` | internal/service/session/service.go:53-70 | of two moments of a run the latest login of a user is the same one if and only if none of that user committed in between |
| `LoginChain.PreviousLoginIsLatestWhenRead` | internal/service/session/service.go:53-77 | the previous login a login reports is the latest committed when the user was read, and is still the latest at its own commit if and only if no login of that user came between |
| `Witnesses.InterleavedLoginsReportTheSame` | internal/service/session/service.go:58-77 | in every run in which two processes have come to the transaction of a login of one user, both may read before either commits; both then succeed and report the same previous login, which for the second is not its latest |
| `Witnesses.LoginsThatReportTheSame` | internal/service/session/service.go:43-78 | and a run of two processes from an empty database gets there |
| `Witnesses.LoginWithoutCodeWhileOn` | internal/service/auth/service.go:119-143 | a run from an empty database in which a session is created without a code while the user row says that two-factor is on |
| `Enrolment.CodelessLoginWhileOn` | internal/service/auth/service.go:121-142 | a login without a code rests on a row read with two-factor off, and it is on at the commit if and only if it was turned on after that read and not off since |
| `Provenance.LoginProvenance` | internal/service/auth/service.go:119-198 | every completed login was preceded, in the same process, by a password shown for that user, and either a row read with two-factor off or an unexpired challenge issued after it and a code matching the secret in the row read for it |
| `Provenance.RedeemedOnce` | internal/service/auth/service.go:145-234 | a challenge completes at most one login |
| `Setups.BeginKeepsInverse` | internal/service/totp/service.go:99-105 | beginning an enrolment keeps both maps inverse and replaces the user's older one, given that a session hash keeps its owner |
| `Setups.BeginKeepsInverseExactly` | internal/service/totp/service.go:99-105 | beginning keeps inverse maps inverse if and only if the session, where it is on file already, is on file for the same user |
| `Setups.BeginNeedsStableOwners` | internal/service/totp/service.go:99-105 | maps for which it does not |
| `Setups.RemoveKeepsInverse` | internal/service/totp/service.go:237-240 | removing an enrolment keeps the maps inverse and touches no other user |
| `Setups.CancelIsExact` | internal/service/totp/service.go:154-166 | cancelling removes exactly the enrolment begun from that session; the hash comparison never fails once the entry is found |
| `Enrolment.EnablesAndDisablesAlternate` | internal/repository/user/postgres.go:75-103 | across all processes a user's successful enables and disables alternate, and the flag is on exactly when a secret is stored |
| `Enrolment.StoredSecretWasConfirmed` | internal/service/totp/service.go:113-152 | the stored secret decrypts to the one whose code was accepted in the latest enable, in a session of that same user |
| `Typed.StoredSecretWasTypedFor` | internal/handler/totp/handler.go:42-67 | while two-factor is on, the stored secret is that of the setup the user confirmed by a code typed at the enrolment prompt before, and that code matches it |
| `Enrolment.EnrolmentCleansUp` | internal/handler/totp/handler.go:42-67 | leaving the enrolment leaves a pending setup if and only if the session was refused or the code could not be checked, or the secret not encrypted or stored |
| `Witnesses.FailedStoreLeavesPending` | internal/service/totp/service.go:143-149 | in every run in which a confirmed secret is about to be stored the store may fail, and then the command ends with the setup still pending |
| `Witnesses.SetupThatIsLeftPending` | internal/handler/totp/handler.go:63-65 | and a run from an empty database gets there |
| `Enrolment.DisableProvenance` | internal/service/totp/service.go:183-215 | every request to turn two-factor off was preceded, in the same process, by its session being accepted, a row of that session's user being read, a password that fits that row and a code that matches its secret |
| `Typed.DisablingWasTyped` | internal/handler/totp/handler.go:70-87 | and that password and that code are the first and the second line typed at one form of the same process before |
| `Commands.ChangesFollowCommands` | internal/cli/shell.go:122-168 | in every run whatever changes an account, its failures, a session or two-factor is asked for under the one command meant for it, the last the process was given |
| `Commands.CommandsBegin` | internal/cli/completer.go:9-10 | a command not open to a process that does or does not hold a token changes nothing; one that is open asks its own first question, about the token held where there is one |
| `Registration.NamesAreValid` | internal/service/auth/service.go:81-117 | every registered name, and every name on its way to be, satisfies the username rules |
| `Registration.SpellingsReachTheAccount` | internal/service/auth/service.go:264-273 | what is typed at login reaches an account if and only if it normalises to its name, and every registered name is its own normal form |
| `Registration.InsertionWasTyped` | internal/service/auth/service.go:81-117 | every request to insert a user comes from one form: both passwords the same and valid, the name normalised and valid and found free, the hash the answer to hashing the password typed |
| `Registration.AccountsAreAsRegistered` | internal/service/auth/service.go:81-117 | every account in the table goes back to such a form, and its name and its hash are still those of it |
| `Registration.CodesHaveDigits` | internal/service/totp/service.go:217-235 | a code reaches the OTP library trimmed, and only if it is decimal digits of the right number; any other is wrong |
| `Text.ValidUsernamesAreNormal` | internal/service/auth/service.go:264-273 | trimming and lower-casing leave a valid username as it is |
| `Text.TrimSpaceIsExact` | internal/service/auth/service.go:271-273 | trimming gives the text without the space at both ends: nothing else goes, and none stays |
| `Text.NormalForm` | internal/service/auth/service.go:271-273 | normalising a name lower-cases each character of the trimmed name and changes nothing else |
| `Conversation.RunsAreConversations` | internal/cli/shell.go:73-171 | in every run each process is where its own log of requests and answers has taken it, asked what a port lets it ask, and was answered as a port may answer |
| `Services.SessionService.FinalizeLogin` | internal/service/session/service.go:43-78 | draws a token, reads the clock, draws an identifier, reads the user and commits one session made of exactly these; success hands out that token, the clock reading plus the timeout, and the user and last login as read before the commit, and nothing else is success |
| `Services.SessionService.ValidateSession` | internal/service/session/service.go:80-105 | asks for the session of this token, then the clock, then the user of that session, each only if the answer before allows it; every outcome on exactly the answer that settles it |
| `Services.SessionService.Logout` | internal/service/session/service.go:107-131 | success means that the last request revoked the row found for this very token as of the clock reading just before, and was done; every other outcome on exactly the answer that settles it, and always the prompt without a token |
| `Services.TotpService.BeginSetup` | internal/service/totp/service.go:77-111 | after the session was validated, files in both maps the secret drawn, for the user that the validation answered, this session and the clock reading plus the timeout; or leaves the maps alone and reports exactly what went wrong |
| `Services.TotpService.ConfirmSetup` | internal/service/totp/service.go:113-152 | after the session was validated, the setup on file for its user decides: expired, already enabled, a wrong code, or a code that matches its secret, which alone leads to storing that secret encrypted under a fresh nonce for that user; the setup goes on success, expiry or an account already enabled and stays otherwise |
| `Services.TotpService.CancelSetup` | internal/service/totp/service.go:154-166 | in-place form of the cancel the exactness lemma is about |
| `Services.TotpService.ClearPendingSetups` | internal/service/totp/service.go:168-173 | leaves both maps empty |
| `Services.TotpService.ValidateEncryptedCode` | internal/service/totp/service.go:175-181 | the verdict on the code for the moment the clock is read, without reading it when the secret does not decrypt |
| `Services.TotpService.Disable` | internal/service/totp/service.go:183-215 | turns two-factor off exactly when the session was validated, the row then read has it on, the password given fits that row and the code given matches the secret in it; each error on the answer that calls for it |
| `Services.AuthService.Register` | internal/service/auth/service.go:81-117 | each input error exactly when its rule is broken, in that order and without a request; otherwise looks the normalised name up, hashes the password given, draws an identifier and inserts the row made of these, and reports what the answers say |
| `Services.AuthService.LoginWithPassword` | internal/service/auth/service.go:119-143 | finds the normalised name and checks its block; behind an open gate a password that does not fit the row is recorded and the answer decides between wrong credentials, locked and failed, and one that fits leads to a challenge or, with two-factor off, to a session |
| `Services.AuthService.CompleteTOTPLogin` | internal/service/auth/service.go:145-198 | for a live challenge, reads its user and checks the block; behind an open gate a code that matches the secret read clears the failures and makes the session, one that does not is recorded; the challenge survives only a wrong code and an internal failure |
| `Services.AuthService.PruneChallenges` | internal/service/auth/service.go:221-225 | the loop removes exactly the expired challenges |
| `Services.AuthService.BeginTOTPLogin` | internal/service/auth/service.go:212-234 | adds one challenge for this user under the identifier drawn, that expires the timeout after the clock reading, and drops exactly those that have expired by then |
| `Services.AuthService.FinishLogin` | internal/service/auth/service.go:236-249 | clears this user's failures first and only then makes the session, whose details success hands out |
| `Services.AuthService.FailedLogin` | internal/service/auth/service.go:251-262 | asks to record a failure of this user and reports the lock, the failure it was given, or that recording failed, as the answer says |
| `Handlers.AuthHandler.Login` | internal/handler/auth/handler.go:63-91 | the name typed first and the password typed second go to the login, and codes to the challenge of the user whose row was read; a session that comes out of it is the token held afterwards, else the token stays; no challenge is left |
| `Handlers.AuthHandler.CompleteTOTPLogin` | internal/handler/auth/handler.go:93-132 | any number of wrong codes, each tried against this same challenge and recorded, and then the attempt that ends it; the challenge is there while it asks and gone afterwards |
| `Handlers.TotpHandler.Enable` | internal/handler/totp/handler.go:31-68 | begins the setup, then takes wrong codes as long as they are wrong and one that ends it, each confirmed for the session the setup was begun from; maps and token cell end as the program says on every way out |
| `Handlers.TotpHandler.Disable` | internal/handler/totp/handler.go:70-106 | the line typed first goes in as the password and the second as the code, and neither when one is blank; the token is cleared exactly when the session or its user is gone, or the session is revoked or expired |
| `Handlers.SessionHandler.WhoAmI` | internal/handler/session/handler.go:28-45 | validates the token held, and clears it exactly when the session or its user is gone, or the session is revoked or expired |
| `Handlers.SessionHandler.Logout` | internal/handler/session/handler.go:47-61 | revokes the session of the token held, and clears the token whatever the server answers |
| `CommandShell.Shell.Execute` | internal/cli/shell.go:122-168 | carries out the command given and no other, in the dialogue that is that command's, and comes back to a prompt where the token cell and both services' maps are what the program says and no challenge is pending |
| `CommandShell.Shell.Run` | internal/cli/shell.go:73-171 | from such a prompt the lines read and their dialogues make up a shell session: commands that may be used are carried out, the rest passed over, and it ends by exit, the end of input or a failure to read; the program has then forgotten everything |
| `CommandShell.Shell.Close` | internal/cli/shell.go:66-71 | token, setups and challenges are all gone |
| `CommandShell.RunApplication` | cmd/cli/main.go:61-108 | from start to exit, under every sequence of answers: expired sessions are removed as of the time read, a shell session follows if that was done, and nothing is left behind |
| `MigrationFiles.LeadingZero` | internal/database/postgres/migrations.go:85-88 | leading zeros do not make a different version |
| `MigrationFiles.ValueIsPlaceValue` | internal/database/postgres/migrations.go:85-88 | reading digits one after the other gives the number they write in decimal, each digit times its power of ten |
| `MigrationFiles.AtoiExactly` | internal/database/postgres/migrations.go:85-88 | a text is read as a number if and only if it is decimal digits, with a sign or without, that write this number and it fits 64 bits |
| `MigrationFiles.NumberIsVersion` | internal/database/postgres/migrations.go:80-92 | a file whose name begins with the number n in decimal and an underscore has version n if n is positive and fits, and is refused if not |
| `MigrationFiles.List` | internal/database/postgres/migrations.go:70-100 | accepts a directory if and only if it has a migration, all are named after positive versions and no version comes twice; then the list is strictly increasing and holds exactly the migrations, and files numbered in decimal come in the order of their numbers; an error names what is wrong |
| `MigrationFiles.OrderDoesNotMatter` | internal/database/postgres/migrations.go:70-100 | for any reordering of the directory acceptance and the resulting list are the same |
| `Migrator.RunsConverge` | internal/database/postgres/migrations.go:30-125 | after any attempts by any processes, each failing or killed anywhere, the recorded versions are a prefix of the list and the schema is what exactly those files make |
| `Migrator.NothingIsUndone` | internal/database/postgres/migrations.go:53-66 | what has taken effect is never undone or repeated, and once everything has no attempt changes the database |
| `Migrator.SuccessIsComplete` | internal/database/postgres/migrations.go:38-68 | an attempt that ends well leaves every file recorded, and no two processes work at the same time |
| `Migrator.LockIsGivenBack` | internal/database/postgres/migrations.go:45-47 | after an unlock that succeeds nobody holds the lock |
| `Migrator.CanFinish` | internal/database/postgres/migrations.go:53-66 | from whatever is left behind one process can still complete the upgrade, report success and give the lock back, if and only if each file to come runs on the schema before it |
| `Migrator.Connection.Migrate` | internal/database/postgres/migrations.go:30-68 | follows the steps of the run theorems under every answer, with unlock and close on every way out |
| `Migrator.Connection.ApplyMigration` | internal/database/postgres/migrations.go:102-125 | one transaction per file, rolled back unless its commit succeeds |
| `Base64.RoundTrip` | internal/security/secret_cipher.go:49-53 | decoding undoes encoding, also when line breaks have been added |
| `Base64.SymbolsAreTheTable` | internal/security/secret_cipher.go:49 | the symbols are those of Table 1 of RFC 4648 in its order |
| `Base64.KnownEncodings` | internal/security/secret_cipher.go:49 | examples of section 10 of RFC 4648, with no, one and two padding characters |
| `SecretCipher.RoundTrip` | internal/security/secret_cipher.go:42-66 | decrypting gives back what was encrypted, for every plaintext and nonce |
| `SecretCipher.OnlyEncryptionsDecrypt` | internal/security/secret_cipher.go:52-66 | a stored text decrypts to a plaintext if and only if it spells an encryption of it under some nonce |
| `SecretCipher.StoredLength` | internal/security/secret_cipher.go:42-50 | the text has 4 * ceil((28 + n) / 3) characters and fits its 512-character column if and only if n is at most 356 |

## Left out

- Terminal, readline, QR codes, printed messages, command history and completion: a prompt is an
  answer that may be text, an interrupt, the end of input or a failure; the lines of one form are
  one answer; splitting and lower-casing a command line happens before it.
- Cancellation by a signal: it shows as input that cannot be read.
- bcrypt, AES-GCM, SHA-256, the random source and the OTP library: functions with the laws above.
- SQL text, drivers, pooling and URL parsing: a statement is its effect on the tables, or a failure.
- Columns only displayed (registration, creation and update times) and column widths other than
  that of the stored secret.
- Redis persistence, flushing Redis by hand, and clocks that disagree.
- Configuration loading and the env-file reader: only the limits and timeouts they produce.
- Locks inside one process: each process runs one command at a time.
- The dummy password check for unknown users, which changes nothing.
- Generating an identifier cannot fail in the program; the model also allows that it does.
- The handler's check for an empty challenge identifier, which the services never hand out, is in
  `Program` but not in `Handlers`.
- Migrations added later with a version below one already applied, and the 32-bit width of the
  version column.
- How far the text of a migration is more than a name: whether it runs on a schema is a parameter.
