# Verified model of the door-access protocol

This project models the parts of the door-access system in which many components
have to agree, and proves properties of them for all inputs and all runs:

- the audit log: its serialiser, hash chain, verifier and concurrent appends
  (`AuditPayload`, `AuditChain`, `AuditAppend`, `AuditTamper`);
- the signed unlock command, from the service through the signer to the
  controller's replay ring and relay (`JsonText`, `SignerProtocol`,
  `FirmwareCommand`, `CommandAgreement`, `ServiceCommand`, `WsLink`,
  `RelayDriver`, `Actuation`, `ReplayRuns`, `ControllerRuns`, `JsonReader`);
- refresh-token families on the server and the app's refresh lock (`TokenTable`,
  `TokenInterleaving`, `TokenRuns`, `AuthService`, `RefreshLock`, `LostAnswer`);
- the DER reader for key attestation (`Der`, `AuthorizationList`,
  `KeyAttestation`), against sections 8.1.2, 8.1.3 and 10.1 of X.690;
- the controller hub, the rate budgets and the proximity window (`Hub`,
  `SlidingWindow`, `RateLimit`, `UnlockService`, `Proximity`).

`Text` and `MachineInts` hold what these share. `dafny verify dfyconfig.toml`
checks everything.

## How the system is modelled

- **Text.** A `string` is a UTF-8 encoding, one `char` for each byte.
- **Hashes.** SHA-256 and HMAC-SHA256 are arbitrary functions, never assumed
  injective. Results that need more end in "or here is a collision (or a preimage
  of the all-zero genesis hash)", where the witness is among the strings that were
  really hashed.
- **Signatures.** Ed25519 verification is an arbitrary predicate; the only
  assumption, named `Unforgeable`, is that what verifies has been signed.
- **Objects.** A class of the source whose fields change is a class here, and its
  methods are proved equal to functions on values. Protocols are state machines
  over those functions, one step for each SQL statement, await point, message or
  tick.
- **Random values** (token hashes, families, command ids) are chosen from outside
  and required to be unused.
- **Time** is a parameter of each step. The proximity check uses real numbers, as
  rounding is not the point there; the relay's counter is 32 bits wide and wraps.

## What the proofs found

Where code and documentation differ, the model follows the code.

- `seq` is drawn before the advisory lock is taken, so two honest transactions can
  take the lock in the opposite order and the verifier then rejects the log
  (`AuditAppend.HonestLogRejected`). `AuditAppend.CommittedLogVerifies` gives the
  exact condition.
- Changing a row's `seq` moves it in the verifier's scan: the first bad row is then
  the moved row, or the successor that misses it (`AuditTamper.MovedEditIsNamed`). A
  negative `seq` takes the row out of the scan, and out of notice if it was the
  newest (`AuditTamper.HiddenRowIsNamed`).
- The serialised timestamp has no era and the serialised address no network mask;
  these two are the only parts of a row that the hash does not fix
  (`AuditPayload.PayloadDeterminesRow`).
- The signer and the firmware write different bytes exactly when a string contains
  backspace, tab, newline, form feed or carriage return, and a NUL ends the string
  on the controller (`CommandAgreement.ByteAgreement`, `DeliveredBytes`). Nothing
  that `UnlockService` builds contains any of these (`ServiceCommand.RebuiltExactly`).
- `validate_command` takes `True` and `False` for integers, as Python does. The
  firmware writes no booleans, so no such object stands behind a pulse
  (`Actuation.NoBooleanIsHonoured`).
- The replay ring ignores empty command ids and forgets after sixteen commands:
  `Actuation.HonouredExactlyWhen` is the exact condition for a second pulse, and
  `ReplayRuns` has a run for each of the two cases.
- `refresh` is several statements. Two lookups of one token before either marks it
  fork the family (`TokenInterleaving.TwoLookupsFork`, `TokenRuns.ForkHappens`). A
  family revoked while a refresh is under way can come back
  (`TokenInterleaving.StaysDeadIff`, `TokenRuns.RevivalHappens`): every revoked row
  stays revoked, as `tokens.py` promises, but the refresh adds a live row to the
  family (`TokenRuns.NewRowRevives`).
- A hardware list without a root of trust hands every reported value over to the
  software list, and a security level outside 0..2 counts as hardware unless
  StrongBox is required (`KeyAttestation.AcceptedExactlyWhen`).
- The unlock limit counts every `door.unlock%` row and a success writes three: one
  after another, exactly `(limit + 1) / 3` unlocks fit in a minute, two for the
  default limit of 6 (`UnlockService.SerialUnlocks`, `SerialUnlocksIsReached`).
- The in-memory buckets of `RateLimiter` are written and never read
  (`RateLimit.RateLimiter.CheckLogin`).

## Model

| member | source | states |
|---|---|---|
| AuditPayload.PayloadDeterminesRow | backend/db/migrations/005_audit_chain.sql:38-69 | Two rows serialise alike if and only if they agree on every field, era and network mask aside, even though the event type may contain the separator. |
| AuditPayload.HashInputDeterminesRow | backend/db/migrations/005_audit_chain.sql:127-133 | Appending the 32-byte previous hash keeps that equivalence, for the row and the hash together. |
| AuditPayload.OneFreeField | backend/db/migrations/005_audit_chain.sql:52-68 | A separated list with one field that may contain the separator still has only one reading. |
| AuditPayload.PayloadInFull | backend/db/migrations/005_audit_chain.sql:52-68 | The payload is the eleven texts in the migration's order, with one separator between each two. |
| AuditChain.Walk | backend/db/migrations/005_audit_chain.sql:181-213 | The loop's verdict names the least failing position, the reason and the rows checked. |
| AuditChain.VerifyAuditChain | backend/db/migrations/005_audit_chain.sql:154-213 | Started anywhere, the verifier accepts exactly when every row from there continues its predecessor and has its hash. |
| AuditChain.VerdictIsChained | backend/db/migrations/005_audit_chain.sql:181-213 | The verdict is the pointwise chain predicate, and there is only one verdict for a scan. |
| AuditChain.StartsFrom | backend/db/migrations/005_audit_chain.sql:172-179 | A start past 0 continues from the hash of the last row with a lower number, and from genesis if there is none; any other start from genesis. |
| AuditChain.HeadIsLast | backend/db/migrations/005_audit_chain.sql:224-230 | The published head is of the row with the greatest number, and missing only for an empty log. |
| AuditChain.SameEndSameRecords | backend/db/migrations/005_audit_chain.sql:181-211 | Two chains of any lengths from genesis with the same last hash hold the same records, or a hashed string collides or hits genesis. |
| AuditChain.AnchoredHeadFixesLog | backend/db/migrations/005_audit_chain.sql:181-230 | Tamper evidence: two logs that verify from 0 and share the published head agree row for row on every recorded field, or a collision or genesis preimage is at hand. |
| AuditChain.DeletionIsNamed | backend/db/migrations/005_audit_chain.sql:190-207 | Deleting an inner row is named at the next row as a previous-hash mismatch, or a collision or genesis preimage is at hand. |
| AuditChain.VerifyInTwoParts | backend/db/migrations/005_audit_chain.sql:170-213 | A verification from 0 holds exactly when the rows before k verify and a verification from k holds. |
| AuditChain.DetachKeepsVerdicts | backend/db/migrations/005_audit_chain.sql:170-213 | Dropping a prefix changes no verdict for any start after the first row that is left. |
| AuditChain.DetachedStartIsAccused | backend/db/migrations/005_audit_chain.sql:175-178 | At or before that row the verifier falls back to genesis and accuses it, or a genesis preimage is at hand. |
| AuditTamper.ScanShape | backend/db/migrations/005_audit_chain.sql:181-182 | Whatever order the database gives to equal numbers, a table with one changed row is scanned as the other rows in order with that row at a place of its number. |
| AuditTamper.EditIsNamed | backend/db/migrations/005_audit_chain.sql:170-213 | An honest log, one row edited, its number still between its neighbours': every verification from 0 names that row as modified, or its hashed string collides or hits genesis. |
| AuditTamper.MovedEditIsNamed | backend/db/migrations/005_audit_chain.sql:170-213 | An edit of the number that moves the row: moved back, the row itself is named where it stands now; moved on, the successor at its old place; on a tie, whichever the database's order makes it. |
| AuditTamper.HashColumnsAreNamed | backend/db/migrations/005_audit_chain.sql:170-213 | A row whose record is the same but whose hash columns are not is named at its place, with the reason that fits, whatever the hash function; a change of the era or the mask alone goes unnoticed. |
| AuditTamper.RewriteIsNamed | backend/db/migrations/005_audit_chain.sql:170-213 | A row whose record is rewritten in place, with any hash columns, is named, or the row after it is; only the newest row can pass. |
| AuditTamper.MovedRewriteIsNamed | backend/db/migrations/005_audit_chain.sql:170-213 | The same for a rewritten row that moves. |
| AuditTamper.HiddenRowIsNamed | backend/db/migrations/005_audit_chain.sql:170-213 | A row whose number becomes negative leaves the scan: its successor is named, and without one the log verifies with a row fewer. |
| AuditTamper.BySeqIsScan | backend/db/migrations/005_audit_chain.sql:181-182 | Rows with different numbers have one order, the one that the log is verified in. |
| AuditAppend.AuditLog.AuditHashChain | backend/db/migrations/005_audit_chain.sql:104-137 | Whatever hashes the caller sent, the stored row continues the visible head. |
| AuditAppend.AuditLog.Append | backend/db/migrations/005_audit_chain.sql:104-137 | One session: an insert adds exactly the chained row under the next number and keeps the log valid. |
| AuditAppend.AuditLog.Verify | backend/db/migrations/005_audit_chain.sql:154-213 | One session: every log that can be built verifies from any start. |
| AuditAppend.HeadReadIsExclusive | backend/db/migrations/005_audit_chain.sql:117-125 | Over every interleaving, two transactions are never both between taking the lock and ending. |
| AuditAppend.CommittedLogVerifies | backend/db/migrations/005_audit_chain.sql:104-137 | Over every interleaving of draw, lock, head read, insert, commit and abort, the committed log verifies if and only if its rows took the lock in sequence order (the "only if" up to a collision or genesis preimage). |
| AuditAppend.HonestLogRejected | backend/db/migrations/004_audit_log.sql:29 | For every hash function and row there is an honest run after which the verifier rejects the log, unless a hashed string collides or hits genesis. |
| AuditAppend.InTurnVerifies | backend/db/migrations/005_audit_chain.sql:119-136 | Rows chained in turn, in ascending order, form one chain from genesis. |
| JsonText.ReadPyText | backend/signer/protocol.py:37-47 | One JSON string reader inverts Python's writer on every string. |
| JsonText.ReadFwText | firmware/esp32/src/acs_command.cpp:13-29 | The same reader inverts the firmware's writer. |
| JsonText.WritersAgree | firmware/esp32/src/acs_command.cpp:13-29 | The two writers agree on a string if and only if it has none of the five characters with a short escape. |
| JsonText.SortSorts | backend/signer/protocol.py:43-46 | Sorting by key yields the members in order and loses or invents none. |
| JsonText.SortedUnique | backend/signer/protocol.py:43-46 | A set of members has only one sorted arrangement. |
| JsonReader.DumpsReads | backend/signer/protocol.py:37-47 | Round trip over every JSON value, nested ones included: a JSON reader written without regard to the printer gives back what was dumped, keys sorted. |
| JsonReader.BytesDetermineObject | backend/signer/protocol.py:37-47 | Two objects have the same signed bytes if and only if they are the same up to the order of their keys. |
| SignerProtocol.FirstFaultRefuses | backend/signer/protocol.py:54-75 | The signer refuses a command for the first of six faults of its members, in the order of its checks, and accepts it if and only if it has none. |
| SignerProtocol.SignedExactlyWhen | backend/signer/server.py:57-81 | A request is answered with a signature if and only if it asks to sign an object without a fault, and the signature is over that object's bytes. |
| FirmwareCommand.ParseUnlockCommand | firmware/esp32/src/acs_command.cpp:33-59 | The parser succeeds exactly when `Parsed` does and otherwise leaves the command as it was. |
| FirmwareCommand.ParsedExactlyWhen | firmware/esp32/src/acs_command.cpp:33-59 | A payload parses to a command if and only if its nine members have their types and these values, strings up to the first NUL, and `cmd` is "unlock". |
| FirmwareCommand.AppendJsonString | firmware/esp32/src/acs_command.cpp:13-29 | The loop appends exactly the escaped, quoted string. |
| FirmwareCommand.FormatBody | firmware/esp32/src/acs_command.cpp:61-85 | The formatter writes exactly the nine members in alphabetical order. |
| FirmwareCommand.CanonicalCommandBytes | firmware/esp32/src/acs_command.cpp:61-95 | The buffer receives domain and body, or, if they do not fit, nothing and length 0. |
| CommandAgreement.SameMembers | backend/signer/protocol.py:37-47 | An object printed by the signer and one written by the firmware that read the same are the same object. |
| CommandAgreement.MembersAgree | firmware/esp32/src/acs_command.cpp:61-95 | The same object is written alike exactly when no string in it has a short escape. |
| CommandAgreement.ByteAgreement | backend/signer/protocol.py:37-47 | For every signable object and firmware command: equal bytes if and only if the object has exactly the nine known members with the command's values, and no short escape occurs. |
| CommandAgreement.DeliveredBytes | firmware/esp32/src/acs_command.cpp:33-95 | A command that arrives unchanged is rebuilt byte for byte if and only if its strings contain no NUL, backspace, tab, newline, form feed or carriage return. |
| ServiceCommand.SameObject | backend/app/services/unlock_service.py:152-164 | What the service builds is a dict with exactly the members that the firmware writes for it. |
| ServiceCommand.RebuiltExactly | backend/app/services/unlock_service.py:152-164 | The controller parses every command that the service builds and rebuilds the signer's bytes. |
| ServiceCommand.FitsBuffer | firmware/esp32/src/acs_ws.cpp:23 | Those bytes never exceed the controller's 512-byte buffer. |
| ServiceCommand.SignedWhenShort | backend/signer/protocol.py:54-75 | The signer accepts what the service builds if and only if its lifetime is between 1 and 30 seconds. |
| WsLink.CheckSignature | firmware/esp32/src/acs_ws.cpp:165-178 | The check succeeds exactly when the rebuilt bytes fit the buffer and the signature verifies over them. |
| WsLink.WsLink.CommandAlreadySeen | firmware/esp32/src/acs_ws.cpp:249-256 | The ring answers exactly whether the non-empty id is among the last sixteen commands honoured. |
| WsLink.WsLink.RememberCommand | firmware/esp32/src/acs_ws.cpp:258-261 | Overwriting the oldest slot keeps the ring equal to the sixteen most recent commands. |
| WsLink.WsLink.HandleCommand | firmware/esp32/src/acs_ws.cpp:143-218 | The relay is pulsed and the id remembered exactly when the decision is to open; the relay is then on for the command's duration or 3 seconds, whichever is less, and that is what is acknowledged. |
| WsLink.FirstFaultDecides | firmware/esp32/src/acs_ws.cpp:143-218 | The decision is the first of eight faults in the order of the checks, each stated in the command, the clock and the history; a command without one is honoured, and a payload that does not parse is ignored. |
| WsLink.RingIsRecent | firmware/esp32/src/acs_ws.cpp:249-261 | Membership in the sixteen slots is membership in the recent history. |
| WsLink.RingAdvances | firmware/esp32/src/acs_ws.cpp:258-261 | The slot invariant survives every remembered command, for histories of any length. |
| Actuation.EveryPulseIsJustified | firmware/esp32/src/acs_ws.cpp:143-218 | With any network, every relay pulse comes from an object that the signer validated, for this controller, of at most 10 s and 30 s lifetime, between issue - 5 s and expiry + 5 s. |
| Actuation.SignedIsJustified | backend/signer/protocol.py:54-75 | The signer's checks on its object carry over to the command in the controller's hands. |
| Actuation.ReplayNeedsSixteenOthers | firmware/esp32/src/acs_ws.cpp:189-213 | Between resets a non-empty id is honoured again only after at least sixteen other commands. |
| Actuation.NoCommandTwice | firmware/esp32/src/acs_ws.cpp:189-213 | With at most seventeen commands in any 40 s, no id is ever honoured twice. |
| Actuation.SameIdSameCommand | firmware/esp32/src/acs_ws.cpp:189-213 | Two pulses with one id lie within lifetime plus twice the skew of each other. |
| Actuation.HonouredExactlyWhen | firmware/esp32/src/acs_ws.cpp:189-213 | What a controller fresh from reset would open for, one with a history opens for if and only if the id is empty or last occurred more than sixteen commands ago. |
| Actuation.NoBooleanIsHonoured | backend/signer/protocol.py:60-71 | No pulse is justified by an object that contains a boolean. |
| ReplayRuns.EmptyIdIsNotRemembered | firmware/esp32/src/acs_ws.cpp:249-256 | For every current order of the service, emptied of its id, there is a run from the start in which the signer signs it once and the controller honours it twice. |
| ReplayRuns.EighteenCanReplay | firmware/esp32/src/acs_ws.cpp:189-213 | Seventeen is exact: any seventeen commands with different ids that are honoured in one window let the first be honoured again, with one object signed for each id. |
| ReplayRuns.NumberedCommands | backend/app/services/unlock_service.py:152-164 | Seventeen such commands exist for every current order of the service. |
| ControllerRuns.EnergisedIsJustified | firmware/esp32/src/main.cpp:107-131 | Link and relay together: with ticks less than G ms apart, whenever the relay is energised, a justified pulse began less than 3000 + G ms ago. |
| RelayDriver.Relay.Pulse | firmware/esp32/src/acs_relay.cpp:23-29 | A pulse energises the relay and sets the wrapped deadline after the requested duration or 3 seconds, whichever is less, which it also returns. |
| RelayDriver.Relay.Tick | firmware/esp32/src/acs_relay.cpp:31-39 | The signed 32-bit comparison is the modular one, and switches off exactly when due. |
| RelayDriver.DueIsReal | firmware/esp32/src/acs_relay.cpp:31-39 | Within 2^31 ms of the deadline, the wrapped comparison is the unbounded one. |
| RelayDriver.WrapIsHarmless | firmware/esp32/src/acs_relay.cpp:23-44 | For runs of any length, the driver agrees with one whose time never wraps as long as ticks are at most 2^31 ms apart (or less than that, if pulses may have no length). |
| RelayDriver.HoldsForItsDuration | firmware/esp32/src/acs_relay.cpp:23-39 | The relay stays on until its last pulse has lasted as long as was requested, or 3 seconds. |
| RelayDriver.OffInTime | firmware/esp32/src/main.cpp:107-131 | With ticks less than G ms apart, the relay is off 3000 + G ms after its last pulse. |
| RelayDriver.SlowTickMisses | firmware/esp32/src/acs_relay.cpp:31-39 | The bound is exact for every requested duration, positive or zero: with ticks a millisecond further apart, some run leaves the relay on. |
| TokenTable.TokenRepository.Use | backend/app/db/repositories/tokens.py:63-67 | Sets the mark of one row unless it is set, and nothing else. |
| TokenTable.TokenRepository.RevokeOne | backend/app/db/repositories/tokens.py:69-76 | Revokes one row unless it is revoked, and nothing else. |
| TokenTable.TokenRepository.RevokeAllOf | backend/app/db/repositories/tokens.py:78-96 | Row by row: the family's rows are revoked unless they were, no other row changes, and the result is the number of rows changed. |
| TokenTable.TokenRepository.RevokeAllOn | backend/app/db/repositories/tokens.py:98-109 | Row by row: the device's rows are revoked unless they were, no other row changes, and the result is the number of rows changed. |
| TokenTable.LookupFinds | backend/app/db/repositories/tokens.py:43-61 | With unique hashes, every row is found by its hash and kind. |
| TokenTable.ChainIffForkless | backend/app/services/auth_service.py:155-202 | Where parents are spent and roots unique, families are single parent chains, all used but the last, if and only if no token has two refresh children. |
| TokenTable.ChainHasOneUsable | backend/app/services/auth_service.py:155-202 | A chain has at most one refresh token that is neither used nor revoked. |
| TokenInterleaving.StepKeepsInv | backend/app/services/auth_service.py:74-241 | Every statement of every request keeps the table sound and never changes a mark once set. |
| TokenInterleaving.EveryInterleaving | backend/app/services/auth_service.py:185-193 | Over all interleavings: a child's parent is used and revoked, a family has one user, device and root, and between any two moments no mark changes. |
| TokenInterleaving.ForkIff | backend/app/services/auth_service.py:155-202 | Families are chains if and only if no token was rotated by two requests. |
| TokenInterleaving.OverlapIsBeforeMark | backend/app/services/auth_service.py:155-187 | A lookup that finds a token already held comes before the other request's mark; later it is a replay. |
| TokenInterleaving.NoOverlapNoFork | backend/app/services/auth_service.py:155-202 | In every run without such overlapping lookups, every family is a chain with at most one usable refresh token. |
| TokenInterleaving.OverlapForks | backend/app/services/auth_service.py:185-193 | Two requests that both found a token live fork the family when they finish. |
| TokenInterleaving.TwoLookupsFork | backend/app/services/auth_service.py:155-193 | From every sound state, any usable token can be forked. |
| TokenInterleaving.StaysDeadIff | backend/app/services/auth_service.py:155-241 | A fully revoked family stays so in every continuation if and only if no request that found it live is still under way. |
| TokenInterleaving.SerialFamilies | backend/app/services/auth_service.py:155-202 | With requests one at a time, every family is always a chain with at most one usable refresh token. |
| TokenInterleaving.SerialEnd | backend/app/services/auth_service.py:155-241 | Between requests, a family that is over gets no token and no life again. |
| TokenRuns.ForkHappens | backend/app/services/auth_service.py:112-193 | From the empty table, one login and two overlapping refreshes end in a family that is no chain. |
| TokenRuns.RevivalHappens | backend/app/services/auth_service.py:112-241 | From the empty table: a login, a refresh under way, a logout that revokes the whole family, and the refresh then adds a live token to it. |
| TokenRuns.NewRowRevives | backend/app/services/auth_service.py:155-241 | Whenever a dead family comes back, its old rows are all still revoked and a new row is the live one. |
| AuthService.AuthService.Login | backend/app/services/auth_service.py:112-153 | Fails with the first check that fails and then changes nothing; otherwise does exactly what a login request does alone. |
| AuthService.FirstFaultRefusesLogin | backend/app/services/auth_service.py:112-136 | A login is refused for the first of six faults of the user, the password and the device, in the order of the checks, and passes if and only if it has none. |
| AuthService.AuthService.Refresh | backend/app/services/auth_service.py:155-202 | Does exactly what a refresh request of the interleaved model does alone. By the row presented: tokens are issued if and only if it is unused, unrevoked, unexpired and its user and device allowed, and then it is retired and two rows added; a used one revokes the whole family; anything else leaves the table as it was. |
| AuthService.RefreshByRow | backend/app/services/auth_service.py:155-202 | The same of the request as a function of the table, for every table with unique hashes. |
| AuthService.AuthService.Logout | backend/app/services/auth_service.py:224-241 | Revokes exactly the session's family or device and counts the rows; the family is over either way. |
| AuthService.AuthService.ResolveAccessToken | backend/app/services/auth_service.py:205-222 | Opens a session with the row's own user, device, id and family if and only if the row is unrevoked, unexpired, allowed and, in strict mode, attested; the two refusals are told apart. |
| AuthService.RefreshAlone | backend/app/services/auth_service.py:155-202 | The whole effect of one uninterrupted refresh, for each way it can end. |
| AuthService.AloneIsARun | backend/app/services/auth_service.py:74-202 | Running a request alone is a run of the interleaved machine. |
| AuthService.DeadFamilyResolvesNothing | backend/app/services/auth_service.py:205-212 | No access token of a family that is over opens a session. |
| RefreshLock.RefreshOnce | android/app/src/main/java/com/evtimov/doors/data/api/ApiClient.kt:123-147 | Succeeds exactly when a token is stored and the server answers, and then stores the new pair; otherwise the store is untouched. |
| RefreshLock.Intercept | android/app/src/main/java/com/evtimov/doors/data/api/ApiClient.kt:95-121 | After a 401 the session survives exactly when the path is not an /auth/ one, a token is stored and the server answers; the store then holds the new pair, and otherwise nothing. |
| RefreshLock.StoredTokenIsSent | android/app/src/main/java/com/evtimov/doors/data/api/ApiClient.kt:95-137 | A thread of the state machine that meets a 401 sends exactly the stored token, from inside the lock. |
| RefreshLock.NoTokenEndsSession | android/app/src/main/java/com/evtimov/doors/data/api/ApiClient.kt:95-125 | Without a stored token it sends nothing and ends the session. |
| RefreshLock.AnswerDecides | android/app/src/main/java/com/evtimov/doors/data/api/ApiClient.kt:109-147 | A rotation is stored, any other answer ends the session; the lock is free either way. |
| RefreshLock.EventKeepsSafe | android/app/src/main/java/com/evtimov/doors/data/api/ApiClient.kt:95-147 | Every step of the app, the server and everybody else keeps the invariant of the composed protocol. |
| RefreshLock.NeverReplayed | android/app/src/main/java/com/evtimov/doors/data/api/ApiClient.kt:95-147 | With any number of threads and no lost answers, the server never takes a request of the app for a replay, and the stored refresh token is used only while the lock holder rotates it. |
| RefreshLock.LostAnswerReplays | android/app/src/main/java/com/evtimov/doors/data/api/ApiClient.kt:137-147 | From every such state, one lost answer with another thread at the lock makes reuse detection fire. |
| LostAnswer.LostAnswerHappens | android/app/src/main/java/com/evtimov/doors/data/api/ApiClient.kt:95-147 | Such a state is reached from the start by one login and one rotation, so a single lost answer is enough in a whole run. |
| Der.ReadSequence | backend/app/core/attestation.py:87-93 | The loop returns the values from the start to the end of the input, or the first error, and ends on every input. |
| Der.ReadsEncoding | backend/app/core/attestation.py:64-84 | Reading undoes encoding, in the short form and in long forms of up to four octets. |
| Der.ReadIsEncoding | backend/app/core/attestation.py:64-84 | Whatever is read is an encoding, and the octets consumed are exactly it. |
| Der.SequenceIsInverse | backend/app/core/attestation.py:87-93 | The reader succeeds with given values if and only if the input is a concatenation of encodings of them: its spans tile the input. |
| Der.BigEndianInverse | backend/app/core/attestation.py:96-97 | Reading an integer undoes writing it in any number of octets that can hold it. |
| AuthorizationList.ReadDigits | backend/app/core/attestation.py:181-187 | The loop over a multi-byte tag yields the base-128 number and the offset after it. |
| AuthorizationList.ScanAuthorizationList | backend/app/core/attestation.py:166-214 | The two nested loops end on every input and compute the walk over items, which the following rows describe. |
| AuthorizationList.DigitsInverse | backend/app/core/attestation.py:181-187 | Every tag number has base-128 digits that read back as it. |
| AuthorizationList.ScanMeetsEncoding | backend/app/core/attestation.py:166-214 | On every list of items, however tags and lengths are written, the walk visits exactly those items in order. |
| AuthorizationList.CutBodyCounts | backend/app/core/attestation.py:190-212 | On a list cut off inside the body of its last item, that item counts with the octets that are there. |
| AuthorizationList.CutTagIsIgnored | backend/app/core/attestation.py:190-191 | A list cut off after a tag ends before that item. |
| AuthorizationList.IndefiniteIsEmpty | backend/app/core/attestation.py:192-197 | The length octet of the indefinite form is taken for an empty body. |
| AuthorizationList.RootInFields | backend/app/core/attestation.py:203-208 | On every body: it can be read if and only if it starts with an encoding of a sequence, names a root if and only if that has three fields, and then the lock is TRUE exactly for the octet 255 and the state is the third field's number. |
| AuthorizationList.AuthTypeOfMeans | backend/app/core/attestation.py:211-213 | An item gives an auth type if and only if it has tag 504 and its body starts with an encoding of one value, whose number it is. |
| AuthorizationList.ReportsLast | backend/app/core/attestation.py:166-214 | It fails exactly when the body of a root-of-trust or auth-type item does not encode what it should, and otherwise reports the last of each and whether any item waives authentication. |
| AuthorizationList.RootOfMeans | backend/app/core/attestation.py:203-208 | The root reported of an item is the one that its encoded fields show. |
| KeyAttestation.OctetsParse | backend/app/core/attestation.py:144-163 | A KeyDescription is read back from each of its encodings. |
| KeyAttestation.AcceptedExactlyWhen | backend/app/core/attestation.py:144-320 | On every encoding, in the values encoded: accepted if and only if the challenge is answered, the level is allowed, the lists can be read, and the last root of trust of the list in force has boot state 0 and lock TRUE, and no item waives authentication. |
| KeyAttestation.FirstFaultDecides | backend/app/core/attestation.py:277-320 | Every verdict: malformed if and only if a list that is read does not encode what it should; otherwise the first of six faults in the values encoded, in the order of the policy, or accepted. |
| Hub.ControllerHub.Register | backend/app/ws/hub.py:49-60 | The new session holds its code, and exactly the unfinished commands of the one before fail. |
| Hub.ControllerHub.Unregister | backend/app/ws/hub.py:62-68 | Removes the session only if it still holds its code, and fails its own unfinished commands. |
| Hub.OnlineExactlyWhen | backend/app/ws/hub.py:49-74 | Over every run, from the history of connections: a session is registered for a code if and only if it was the last to connect with it and has not ended since. |
| Hub.EndGoesOffline | backend/app/ws/hub.py:62-91 | When a registered session ends, its code is offline and commands for it are refused; no other code changes. |
| Hub.WaitersFail | backend/app/ws/hub.py:49-68 | Whoever waits on a session that ends or is superseded fails with the reason of that event; futures of other sessions stay. |
| Hub.WaiterRaises | backend/app/ws/hub.py:49-103 | A caller who waits then raises that reason when it wakes. |
| Hub.ControllerHub.BeginCommand | backend/app/ws/hub.py:83-98 | Offline codes are refused; otherwise a new future waits under the command's id in the registered session. |
| Hub.CommandGoesOut | backend/app/ws/hub.py:83-98 | The whole effect of a command on the hub: refused for an unregistered code, and otherwise a task and a future of its own in the registered session. |
| Hub.PendingExactlyWhen | backend/app/ws/hub.py:92-103 | Over every run, a session has a pending entry for a command if and only if a call for it is under way there: no entry outlives its call. |
| Hub.ControllerHub.EndCommand | backend/app/ws/hub.py:97-103 | Returns or raises as the future ended, or times out, even if the future has ended meanwhile; an unfinished future is cancelled, and the entry always dropped. |
| Hub.TimeoutCancels | backend/app/ws/hub.py:99-103 | A timeout raises and cancels the future unless it has ended. |
| Hub.ControllerHub.Resolve | backend/app/ws/hub.py:105-109 | Ends the unfinished future of that id in that session, and nothing else. |
| Hub.StepKeepsInv | backend/app/ws/hub.py:49-109 | Every step keeps the registry consistent and never changes how a future ended. |
| Hub.EveryRun | backend/app/ws/controller_ws.py:130-171 | In every run, unfinished futures belong to the session registered for their code, and a command returns only an acknowledgement with its own id from its own socket. |
| Hub.CompletesOnce | backend/app/ws/hub.py:49-109 | A future that has ended stays as it ended in every continuation. |
| Hub.OldSocketIsInert | backend/app/ws/controller_ws.py:130-171 | Messages and disconnection of a superseded session change nothing at all. |
| Hub.LiveSocketAnswers | backend/app/ws/hub.py:105-109 | The registered session's acknowledgement ends the future of its command and no other. |
| Hub.AnswerReturns | backend/app/ws/hub.py:97-109 | The waiting caller returns exactly that acknowledgement when it wakes. |
| RateLimit.RateLimiter.Remember | backend/app/core/ratelimit.py:48-55 | The bucket keeps exactly the entries still in the window and ends with the new one. |
| RateLimit.RateLimiter.RecordLoginFailure | backend/app/core/ratelimit.py:114-127 | One row for the user, and one for the address if there is one; the buckets of the same subjects take an entry each. |
| RateLimit.RateLimiter.CheckLogin | backend/app/core/ratelimit.py:63-96 | A login is let through if and only if both subjects are under the limit in the table; the reported count is the greater of the two. |
| RateLimit.DelayDoubles | backend/app/core/ratelimit.py:57-61 | The delay is nothing without a failure, starts at the base, doubles with every failure and stops at the maximum. |
| RateLimit.RefusedExactlyWhen | backend/app/db/repositories/rate_limit.py:30-45 | A subject is refused if and only if as many of its failures as the limit lie strictly less than a window back; older rows and other subjects play no part. |
| SlidingWindow.LimitReached | backend/app/db/repositories/rate_limit.py:46-62 | The same for any limit over any rows, as the unlock budget counts them. |
| RateLimit.LoginBudget | backend/app/core/ratelimit.py:63-127 | With at most k logins of a subject in flight, every window holds at most limit + k - 1 of its failures. |
| RateLimit.LoginBudgetIsReached | backend/app/api/auth.py:77-114 | For every limit and k some run reaches exactly limit + k - 1; with one at a time, exactly the limit. |
| UnlockService.Unlock | backend/app/services/unlock_service.py:71-226 | A command is sent if and only if every check passes; otherwise the first of eight faults decides what the caller and the log are told. The trail starts with the request, logs the grant before sending, and ends with exactly one closing event. |
| UnlockService.AttemptAlone | backend/app/services/unlock_service.py:88-226 | A call of `unlock` is an attempt of the interleaved model: it adds as many counted rows as its trail has `door.unlock%` events, and passes the check exactly when no check up to the budget refuses it. |
| UnlockService.UnlockBudget | backend/app/services/unlock_service.py:88-141 | However attempts interleave, fewer than the limit get through in any minute that holds their requests and checks. |
| UnlockService.SerialUnlocks | backend/app/db/repositories/rate_limit.py:46-62 | One after another, at most (limit + 1) / 3 get through, as each leaves three counted rows. |
| UnlockService.UnlockBudgetIsReached | backend/app/services/unlock_service.py:88-141 | For every limit, some interleaving lets limit - 1 attempts through in one minute. |
| UnlockService.SerialUnlocksIsReached | backend/app/services/unlock_service.py:88-226 | For every limit, some run of complete attempts, one after another, lets (limit + 1) / 3 through in one minute. |
| Proximity.VerifyProximity | backend/app/core/proximity.py:66-92 | The loop without early exit answers with the latest matching slot, and raises for a wrong key length, a slot outside 64 bits or text that is not ASCII. |
| Proximity.RecentlyHeardIsAccepted | backend/app/core/proximity.py:52-63 | Complete: for every rotation and maximum age, a beacon heard within the maximum age is accepted. |
| Proximity.AcceptedExactlyWhen | backend/app/core/proximity.py:52-92 | Exact, in rotation and maximum age alone: the identifier of the slot k rotations back is accepted if and only if 0 <= k and k <= 1 or (k - 1) rotations are less than the maximum age, a collision aside. |
| Proximity.VerifyMeans | backend/app/core/proximity.py:66-92 | For every text presented: the check raises for the first of four faults, and otherwise accepts exactly the latest slot in the window with that identifier and reports its age. |
| Proximity.CleanedIsCore | backend/app/core/proximity.py:79 | Cleaning takes white space off both ends and then `=` off the right, and nothing else. |
| Proximity.AcceptedIsRecent | backend/app/core/proximity.py:66-92 | Sound: an accepted slot began less than the maximum age and two rotations ago, and its reported age is within one rotation of the true one, or two slots share an identifier. |
| Proximity.MessageInjective | backend/app/core/proximity.py:43-49 | Different slots have different messages. |
| Proximity.BeaconMessage | firmware/esp32/src/acs_beacon.cpp:50-56 | The firmware's buffer, filled byte by byte, is the server's message for the slot. |
| Proximity.Beacon.Tick | firmware/esp32/src/acs_beacon.cpp:29-48 | Before the clock is set nothing is advertised; afterwards, the identifier of the slot that the server computes for that second. |
| Proximity.ShiftedByte | firmware/esp32/src/acs_beacon.cpp:53-56 | The shifted and masked byte is the big-endian digit. |

## Left out

- Cryptography itself: SHA-256, HMAC, Ed25519, Argon2, certificate chain signatures, Play Integrity, base64.
- PostgreSQL as an engine: roles, grants, deny triggers, partitions, snapshots. A transaction's statements see what has been committed.
- The timestamps `infinity` and `-infinity`.
- Lone surrogates in JSON strings, and ArduinoJson's deserialiser; a payload is the object that was parsed.
- FastAPI routers, Pydantic models beyond the length and pattern of codes, configuration, pools, admin app, scripts.
- Lower-casing of user names: they are in lower case already when they reach the model of the limiter.
- Unicode white space in a presented beacon identifier; `strip()` removes ASCII white space.
- Floating-point rounding of the server's clock in the proximity check.
- A session's user name, display name and admin flag, which are copied from the user's row.
- Permission windows: PostgreSQL converts time zones, and `within_window` is an input.
- Lost HTTP responses and OkHttp retries, which `NeverReplayed` excludes; `LostAnswer` shows why.
- TokenStore: the app's threads change the store as steps of a state machine, so the class shows a single thread only.
- Hub.ControllerHub: futures and sessions are positions in sequences instead of objects that share references.
- TokenTable.TokenRepository: rows are values in a sequence, and a statement rewrites the sequence.
- Rate-limit rows are never deleted in the model; a clean-up of expired rows can only lower the counts.
- The clean-up of WebSocket heartbeats, LEDs, OTA updates, enrolment, Android UI, Keystore and BLE scanning.
- `_parse_authorization_list`, which nothing calls.
- UnlockService.Unlock: the logged reason of a signer failure is without the text of the exception.
- Wall-clock padding of answers and constant-time comparison.
