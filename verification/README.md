# Veervrat: a verified model of accounts, content and permissions

This project models the parts of the Veervrat monorepo whose rules no single function shows, and proves
what they guarantee.

- **Accounts.** Users, sign-in identities, sessions, tokens, pending signups and the Redis lockout move
  together. `AuthSpec` gives every operation of the account service as a function of the tables;
  `AuthRepository`, `AuthService` and `UsersService` are the classes that perform them call by call, each
  method proved to leave the tables its operation describes and to answer as it says; `AuthServer` serves any
  request with them and is proved to take one step of a run. `AuthInvariant`, `AuthHistory`, `AuthRuns`,
  `AuthGuarantees`, `AuthIdentity`, `AuthProfile`, `AuthLockout` and `AdminUsers` prove what holds in every
  state of every run, one request at a time, from the empty store; `AuthCleanUp` proves that no request notices
  the clean-up job; `AuthJourneys` and `AuthRecovery` prove what one operation makes possible for the next, each link
  and proof with its time written out; `AuthSuspension` follows a suspension along runs until it is lifted;
  `AuthEdges` gives runs from the empty store that end in the rare answers.
- **Accounts, column by column.** Beside the operations stands a second description of them, by table instead of by
  operation, in which every limit is a number: `AuthRows` and `AuthNewcomers` say what any request does to each user
  row and each waiting signup, `AuthSessions`, `AuthTokens` and `AuthAccounts` what it does to each session, token and
  identity, and `AuthAnswers` how it is answered and, if it is refused, for which reason. Every request of every kind
  is proved to obey it.
- **Accounts under concurrency.** `Interleaving` takes one repository call as one atomic step and lets the steps
  of any number of requests interleave with each other and with every other write. `Provenance` proves that
  every change of an address was proved, asked for and confirmed, and that nothing else moves one; `ProofUse` that
  a stamp serves one pass, a pass one request and a request one token, that an identity vouches only while linked,
  and that a spent token changes nothing more; `Uninterrupted` proves that the steps, taken without a break, are
  the operations above.
- **The lockout.** `Lockout` models the Redis commands and proves when an address is locked, for exactly how long,
  and the rate bound, with the one proviso it needs; `AuthLockout` carries both over to whole runs of the service.
- **Transformations.** The CSV reader (`Csv`), the Tiptap sanitiser and its text flattener (`Tiptap`), with a reading
  of documents apart from the sanitiser that says exactly what it keeps (`TiptapContent`), and the message catalog
  (`Messages` on values, `MessageObjects` in place).
- **The age gate** (`Age`, over the calendar in `Calendar`), **permissions** (`Permissions`: the engine, and a table
  per role that decides every action on every resource), **chat rooms** (`Chats`) and **blogs with the writes sent to
  their search index** (`Blogs`).

`dafny verify dfyconfig.toml` checks everything.

## How the model reads the code

- A row's id and its secret token are one fresh number, handed out in order. `bcrypt` is a constructor that
  matches the password it was made from and no other; its cut-off at 72 bytes is not modelled.
- A request reads the clock once, except where `Interleaving` and `Lockout` read it at each step; Redis and the
  service share one clock. Times are milliseconds, and a TTL in days or hours is a fixed number of them, so a
  change to or from daylight saving between the two ends is not modelled.
- Lower-casing is ASCII; trimming uses JavaScript's white space.
- A unique index refuses the write that would break it. The indexes are those of `User.email`,
  `User.username` and `(provider, providerAccountId)`.
- Deletion is the anonymisation of `users.service.ts` and `users.repository.ts`: pseudonym, no birth date, no
  pending address, no password, no session, the accounts kept.
- Random strings, the policy documents on file, whether two people are related and what the search index
  answers are arguments.
- Accepting an invitation gives the VRATMITRA role; the invitation's own checks are not modelled.

## Where the code does less than is said of it

Each of these is a lemma with the exact condition, most with a run or a date that reaches it.

- The lockout lets an eleventh failed check into one window when a key runs out between the `HINCRBY` and the
  `EXPIRE` of one recording, since the count is then lost (`Lockout.ElevenInOneWindow`); eleven is the most.
- A lock that has been set is lost when the hour given to its key ends before the last `EXPIRE` of the same recording,
  which takes an hour between two commands; in no other case does it last less than 900 s (`Lockout.LockLasts`).
- Registration never meets the index on EMAIL identities, but it can meet the one on names, which it does not
  look up, and the one on addresses for a deleted user's pseudonym (`AuthIdentity.RegisterCollidesIff`; runs that
  reach both: `AuthEdges.NameMayBeInUse`, `AuthEdges.PseudonymMayBeInUse`).
- A first password fails on the identity index when a deleted user still holds the address
  (`AuthIdentity.FirstPasswordCollidesIff`; a run that reaches it: `AuthEdges.FirstPasswordMayCollide`).
- An unused email-change token of a deleted user names no pending address
  (`AuthGuarantees.ChangeTokensNamePending`; a run that reaches it: `AuthEdges.TokenMayNameNothing`).
- The last administrator can delete their own account (`AdminUsers.AdminRemainsIff`; a run that does:
  `AuthEdges.LastAdminMayLeave`).
- On 29 February the age gate also accepts those born on 1 March eighteen years before (`Age.AgeRule`,
  `Age.LeapDayGraceHappens`). It reads the years 0 to 99 as 1900 to 1999, which changed an answer until
  30 December 2017 and no longer does (`Age.AgeRuleIff`, `Age.MisreadUntil2017`).
- Overrides of messages depend on the order they are listed in exactly when one key extends another
  (`Messages.OrdersAgreeIffPrefixFree`).
- The blog index of this commit makes none of the writes sent to it and answers every search with an error
  (apps/api/src/modules/search/blogs-index.service.ts:20-32), so after any run it is as it should be exactly while
  nothing is published (`Blogs.IgnoringIndexAgreesIff`; a run that leaves it behind:
  `Blogs.IgnoringIndexFallsBehind`). An index that makes them ends in step (`Blogs.EveryRunEndsInStep`).
- Seeding that index at start-up repairs it exactly when it holds nothing that is not published
  (`Blogs.SeedingRepairsIff`).

## Model

| member | source | states |
|---|---|---|
| `Text.NormalizeIdempotent` | apps/api/src/modules/auth/auth.service.ts:171 | The canonical form of an address is its own canonical form and its own lower case, so stored addresses can be compared exactly. |
| `Text.NormalizeIs` | apps/api/src/modules/auth/auth.service.ts:171 | It is what lies between the white space at the two ends, in lower case. |
| `Csv.SplitCsvRows` | apps/api/src/database/seed-utils.ts:17-64 | The index loop, quote state and all, computes the reading that the round trips below are about. |
| `Csv.ParseIs` | apps/api/src/database/seed-utils.ts:17-64 | For any content at all that reading is, counted without a quote state: a character is inside quotes if and only if an odd number of quotes stands before it, commas and line breaks outside quotes end fields and lines, a doubled quote counts once, and an unterminated last line is kept if and only if some field of it is not empty. |
| `Csv.RoundTrip` | apps/api/src/database/seed-utils.ts:17-64 | Any document in the form of RFC 4180, section 2, quoted or bare cells and either line break per line, reads back as its table. |
| `Csv.RoundTripUnterminated` | apps/api/src/database/seed-utils.ts:58-61 | The same without a break after the last line, which is kept exactly when some field of it is not empty. |
| `Csv.ParsePrintParse` | apps/api/src/database/seed-utils.ts:17-64 | For any content at all, reading, printing with quotes and reading again gives what the first reading gave. |
| `Calendar.CivilOf` | apps/api/src/common/age/age.ts:13-25 | Every day number has a valid year, month and date, and that date has that day number. |
| `Calendar.DayOrder` | apps/api/src/common/age/age.ts:24-27 | Comparing day numbers is comparing dates. |
| `Age.AgeRule` | apps/api/src/common/age/age.ts:8-27 | On every clock from 2018 on, for every birth date: old enough if and only if the eighteenth birthday is today or past by the calendar, or today is 29 February and the birth date 1 March eighteen years before. |
| `Age.AgeRuleIff` | apps/api/src/common/age/age.ts:8-27 | For every birth date and every clock, the same holds if and only if re-reading a year from 0 to 99 as one in the 1900s does not move the birth date past the boundary, or the boundary past it. |
| `Age.StaysOldEnough` | apps/api/src/common/age/age.ts:24-27 | Once old enough, old enough at every later time, for any birth date, from the year 118 on. |
| `Age.LeapDayGraceHappens` | apps/api/src/common/age/age.ts:11-15 | The extra day is real: born on 1 March 2006, accepted on 29 February 2024. |
| `Age.MisreadUntil2017` | apps/api/src/common/age/age.ts:25 | The last day on which that happens is 30 December 2017. |
| `Age.WebAgrees` | apps/web/lib/age.ts:11-34 | On every valid date of a year up to 9999, as the date input writes it, the web copy decides as the server does, given the same today. |
| `Tiptap.SanitizeMarks` | apps/api/src/common/tiptap/sanitize.ts:71-90 | The loop keeps exactly the allowed marks, cleaned, in order. |
| `Tiptap.NodeFixpoint` | apps/api/src/common/tiptap/sanitize.ts:92-141 | A node survives unchanged if and only if it meets the schema at every depth: types, marks, URLs, heading levels, mentions, and no other field. |
| `Tiptap.DocFixpoint` | apps/api/src/common/tiptap/sanitize.ts:153-167 | What the sanitiser returns meets the schema and is left alone by it; a document is left alone only if it meets the schema. |
| `Tiptap.DocText` | apps/api/src/common/tiptap/sanitize.ts:92-167 | The text of the result is, in order, exactly the input text nodes reachable through allowed containers only. |
| `TiptapContent.DocExactly` | apps/api/src/common/tiptap/sanitize.ts:71-167 | For any JSON at all, what the sanitiser returns is the one document meeting the schema that reads as the input does: every allowed block in its place, headings at their level, each text with its bold, its italic and its links to the web with the address they had, each image and mention with its own address, entity and label, whatever other fields the nodes carried. |
| `TiptapContent.MarksExactly` | apps/api/src/common/tiptap/sanitize.ts:71-90 | The marks kept of any list are in final shape and read as the list does: its bold, its italic and its safe links, in order, each link with its own address. |
| `Tiptap.Walk` | apps/api/src/common/tiptap/sanitize.ts:172-179 | The walk pushes the text parts of a node, in document order, after those it is given. |
| `Tiptap.TiptapToPlainText` | apps/api/src/common/tiptap/sanitize.ts:171-181 | The flattener computes the plain text the next row is about. |
| `Tiptap.PlainTextIsTheWords` | apps/api/src/common/tiptap/sanitize.ts:171-181 | Its words are the words of the text parts, in order, with one space between and none at either end. |
| `Messages.FlattenMessages` | apps/web/lib/content-editor/messages.ts:7-15 | The filling of `out` computes the dotted map the next row is about. |
| `Messages.FlattenIsTextAt` | apps/web/lib/content-editor/messages.ts:7-15 | With non-empty, dot-free key segments, a dotted key is present exactly when the catalog has a text at its path, and holds that text. |
| `Messages.SetPathText` | apps/web/lib/content-editor/messages.ts:43-53 | Writing one path puts its text there, removes what lay under or across it, and leaves every unrelated path as it was. |
| `Messages.UnderIsPrefix` | apps/web/lib/content-editor/messages.ts:43-44 | One dotted key lies under another exactly when its segments extend the other's. |
| `Messages.OverrideLaw` | apps/web/lib/content-editor/messages.ts:38-55 | For prefix-free overrides in any order: flattening the overridden catalog is the flattened base, minus keys that extend or are extended by an override, updated with the overrides. |
| `Messages.OrdersAgreeIffPrefixFree` | apps/web/lib/content-editor/messages.ts:43-53 | For any base and any overrides whose keys spell paths: the order in which they are listed makes no difference if and only if none lies under another. |
| `Messages.ClashingOrdersDiffer` | apps/web/lib/content-editor/messages.ts:43-53 | Any two listings that end in two keys one of which lies under the other give different results, whatever the base and the rest. |
| `Messages.BuildValueIndex` | apps/web/lib/content-editor/messages.ts:19-29 | The index maps each trimmed, non-empty value to the keys that hold it, in order, and to no other. |
| `Messages.ClickedKeys` | apps/web/lib/content-editor/messages.ts:19-34 | Looking a text up gives exactly the keys whose trimmed value is the trimmed text, in order. |
| `Messages.KeysWithInOrder` | apps/web/lib/content-editor/messages.ts:19-29 | The keys found in one listing after another are those found in each, in order, each once for every entry that holds the text. |
| `MessageObjects.MessageObject.WritePath` | apps/web/lib/content-editor/messages.ts:44-52 | Writing a path in place turns the object's catalog into the one `Messages.SetPath` describes. |
| `MessageObjects.DeepCopy` | apps/web/lib/content-editor/messages.ts:42 | The copy has the same catalog and shares no object with the original. |
| `MessageObjects.ApplyOverrides` | apps/web/lib/content-editor/messages.ts:38-55 | The result is the base with every override applied, and the base, which the method may not write to, is as it was. |
| `Lockout.LockoutStore.CheckLockout` | apps/api/src/modules/auth/auth.service.ts:1114-1138 | Locked exactly while the stored lock runs, with the remaining seconds rounded up. |
| `Lockout.LockoutStore.RecordFailedLogin` | apps/api/src/modules/auth/auth.service.ts:1140-1173 | The commands leave the address's hash as one recording does, key expiry between them included, and touch no other address; what a recording does is the next three rows. |
| `Lockout.LockLasts` | apps/api/src/modules/auth/auth.service.ts:1154-1160 | After a recording that finds nine failures counted, the address is locked at a later moment if and only if that is less than 900 000 ms after the lock was set, the lost lock aside. |
| `Lockout.FewerDoNotLock` | apps/api/src/modules/auth/auth.service.ts:1154-1172 | A recording that finds fewer locks nothing. |
| `Lockout.CountLasts` | apps/api/src/modules/auth/auth.service.ts:1146-1153 | It counts one failure, and the count stands for exactly 3 600 000 ms from its `EXPIRE`. |
| `Lockout.LockoutStore.ClearLockout` | apps/api/src/modules/auth/auth.service.ts:1175-1181 | The hash of the address is gone, and only that one. |
| `Lockout.RateBound` | apps/api/src/modules/auth/auth.service.ts:258-306 | Logins one at a time, none successful: every half-open window of 900 s holds at most 10 failed checks of one address, whatever the timing, key expiry or letter case, if no key runs out between the `HINCRBY` and the `EXPIRE` of one recording. |
| `Lockout.RateBoundAnyTiming` | apps/api/src/modules/auth/auth.service.ts:1140-1173 | With no such proviso the bound is 11. |
| `Lockout.ElevenInOneWindow` | apps/api/src/modules/auth/auth.service.ts:1154-1160 | For every address there is a run that reaches 11. |
| `Lockout.TenInARowLock` | apps/api/src/modules/auth/auth.service.ts:258-306 | Logins one at a time, none successful: ten failed checks in a row, each less than 900 s after the one before, lock the address for 900 s from the last of them, whatever came before. |
| `Lockout.LocksTakeTen` | apps/api/src/modules/auth/auth.service.ts:1140-1173 | Fewer than ten failed checks lock nothing, and no lock outlasts the last failure recorded by more than 900 s. |
| `AuthLockout.StoreMatches` | apps/api/src/modules/auth/auth.service.ts:258-306 | In any run of the service, the hash stored for an address is the one its sign-ins lead to: no other request touches it. |
| `AuthLockout.SignInsAreRateBounded` | apps/api/src/modules/auth/auth.service.ts:258-306 | In any run of the service, while nobody signs in to an address, no 900 s hold more than 10 sign-ins to it turned away for wrong credentials. |
| `AuthLockout.TenWrongPasswordsLock` | apps/api/src/modules/auth/auth.service.ts:258-306 | In any run of the service in which nobody signs in to an address: once ten sign-ins in a row have been turned away, each less than 900 s after the one before, any password, the right one included, is answered by the lock if and only if less than 900 s have passed since the last of them. |
| `AuthLockout.FewerPasswordsDoNotLock` | apps/api/src/modules/auth/auth.service.ts:258-306 | With fewer than ten turned away, none is. |
| `AuthRepository.Repository.CreateUser` | apps/api/src/modules/auth/auth.repository.ts:62-95 | User and first account are written together, or, when a unique index would break, not at all. |
| `AuthRepository.Repository.ApplyEmailChange` | apps/api/src/modules/auth/auth.repository.ts:303-317 | The user's address and EMAIL account move together, or, when a unique index would break, not at all. |
| `AuthRepository.Repository.ReleaseIdentityClaims` | apps/api/src/modules/auth/auth.repository.ts:332-334 | No account of the user is left, and every other account is as it was. |
| `AuthRepository.Repository.ConsumeSessionReauthentication` | apps/api/src/modules/auth/auth.repository.ts:395-401 | The proof is cleared, and true is returned, exactly when it was there and recent enough. |
| `AuthRepository.Repository.ConsumePendingSignup` | apps/api/src/modules/auth/auth.repository.ts:141-148 | The signup is deleted on being read and returned only in time. |
| `AuthRepository.Repository.InvalidateTokens` | apps/api/src/modules/auth/auth.repository.ts:498-503 | The same tokens, none of the user and kind unused any more, those marked otherwise saying what they said, and every other token as it was. |
| `AuthService.Service.Register` | apps/api/src/modules/auth/auth.service.ts:160-255 | Leaves the tables and answers as the operation: age before duplicates, a deleted holder's claim released, user, account and token. |
| `AuthService.Service.Login` | apps/api/src/modules/auth/auth.service.ts:258-321 | The same for sign-in: lockout first, one failure counted for every wrong pair, verified and unsuspended only, lockout cleared. |
| `AuthService.Service.StartGoogleSignup` | apps/api/src/modules/auth/auth.service.ts:336-364 | The same for the pending signup: age, name, policies, then the row. |
| `AuthService.Service.ClaimUsername` | apps/api/src/modules/auth/auth.service.ts:1193-1204 | The loop finds the name `AuthSpec.ClaimUsername` describes. |
| `AuthService.Service.HandleGoogleLogin` | apps/api/src/modules/auth/auth.service.ts:366-496 | The same for the way back from Google: sign-in, link token, or a new user from a pending signup only. |
| `AuthService.Service.LinkGoogleAccount` | apps/api/src/modules/auth/auth.service.ts:498-571 | The same for linking: token, password, identity, account, token spent, address verified only on Google's word, session. |
| `AuthService.Service.VerifyEmail` | apps/api/src/modules/auth/auth.service.ts:583-602 | The same for verification. |
| `AuthService.Service.ResendVerification` | apps/api/src/modules/auth/auth.service.ts:619-662 | The same for resending, earlier tokens spent first. |
| `AuthService.Service.ForgotPassword` | apps/api/src/modules/auth/auth.service.ts:677-727 | The same for asking for a reset, with its three answers: no account, a reset sent, a first password to set. |
| `AuthService.Service.ResetPassword` | apps/api/src/modules/auth/auth.service.ts:729-770 | The same for a reset or first password: stored, token spent, address verified, every session ended. |
| `AuthService.Service.ChangePassword` | apps/api/src/modules/auth/auth.service.ts:774-802 | The same for a change: every session ended, one new. |
| `AuthService.Service.AssertRecentlyAuthenticated` | apps/api/src/modules/auth/auth.service.ts:830-852 | The same for the proof: a right password, else a recent stamp, which is spent. |
| `AuthService.Service.ReauthenticateWithGoogle` | apps/api/src/modules/auth/auth.service.ts:862-872 | The same for the stamp: only for an identity linked to this user. |
| `AuthService.Service.DisconnectAccount` | apps/api/src/modules/auth/auth.service.ts:904-923 | The same for disconnecting. |
| `AuthService.Service.RequestEmailChange` | apps/api/src/modules/auth/auth.service.ts:925-977 | The same for asking for an address, proof spent even when refused afterwards. |
| `AuthService.Service.ConfirmEmailChange` | apps/api/src/modules/auth/auth.service.ts:979-1024 | The same for confirming it, a deleted holder's claim released. |
| `AuthService.Service.ValidateSession` | apps/api/src/modules/auth/auth.service.ts:1033-1054 | The same for a session: extended, or deleted when run out or its holder gone. |
| `AuthService.Service.CompleteOnboarding` | apps/api/src/modules/auth/auth.service.ts:1058-1076 | The same for the choice of name. |
| `UsersService.Users.UpdateOwnProfile` | apps/api/src/modules/users/users.service.ts:80-109 | The same for the profile: name looked up, date of birth checked again, then both written, the index on names permitting. |
| `UsersService.Users.AnonymiseAccount` | apps/api/src/modules/users/users.service.ts:280-299 | The same for deletion. |
| `UsersService.Users.SelfDelete` | apps/api/src/modules/users/users.service.ts:302-313 | The same for deleting oneself, after a proof. |
| `UsersService.AdminUsers.UpdateRoles` | apps/api/src/modules/admin-users/admin-users.service.ts:62-76 | The same for roles: taken, then given. |
| `UsersService.AdminUsers.SetSuspended` | apps/api/src/modules/admin-users/admin-users.service.ts:126-136 | The same for suspension, which ends every session. |
| `UsersService.AdminUsers.ForceLogout` | apps/api/src/modules/admin-users/admin-users.service.ts:138-144 | The same for a forced logout. |
| `UsersService.AdminUsers.Anonymise` | apps/api/src/modules/admin-users/admin-users.service.ts:146-158 | The same for an administrator's deletion. |
| `AuthServer.Server.Serve` | apps/api/src/modules/auth/guards/session.guard.ts:18-35 | Whatever request is served, signed in or not, the tables and the answer are those of one step of a run, and the invariant holds again. |
| `AuthServer.Server.ServeFirst` | apps/api/src/modules/auth/auth.controller.ts:57-160 | Serving requests one after the other from the empty tables answers each as the run does and ends in the tables the run reaches, so what is proved of runs holds of the server. |
| `AuthInvariant.InvRegister` | apps/api/src/modules/auth/auth.service.ts:160-218 | Registration keeps the invariant of the tables. |
| `AuthInvariant.InvGoogleLogin` | apps/api/src/modules/auth/auth.service.ts:366-496 | So does every way back from Google. |
| `AuthInvariant.InvLinkGoogle` | apps/api/src/modules/auth/auth.service.ts:498-571 | So does linking. |
| `AuthInvariant.InvResetPassword` | apps/api/src/modules/auth/auth.service.ts:729-770 | So does a reset, first password included. |
| `AuthInvariant.InvRequestEmailChange` | apps/api/src/modules/auth/auth.service.ts:925-977 | So does asking for an address: one token, naming the pending address. |
| `AuthInvariant.InvConfirmEmailChange` | apps/api/src/modules/auth/auth.service.ts:979-1024 | So does confirming one: user and EMAIL account stay in step. |
| `AuthInvariant.InvDisconnect` | apps/api/src/modules/auth/auth.service.ts:904-923 | So does disconnecting: a login remains. |
| `AuthInvariant.InvAnonymiseAccount` | apps/api/src/modules/users/users.service.ts:280-299 | So does deletion. |
| `AuthInvariant.InvUpdateOwnProfile` | apps/api/src/modules/users/users.repository.ts:252-275 | So does a change of the profile. |
| `AuthInvariant.InvCleanUpExpired` | apps/api/src/database/cleanup-expired.ts:30-50 | So does the clean-up of everything that has run out. |
| `AuthInvariant.ChangeNeverCollides` | apps/api/src/modules/auth/auth.service.ts:993-1021 | After the two checks and the release, moving the address breaks no unique index. |
| `AuthRuns.StepKeepsInv` | apps/api/src/modules/auth/auth.service.ts:160-1087 | Every request, whoever makes it, keeps: identities and addresses unique; at most one EMAIL account each, at the user's address; a login for every live user; at most one unused token per user and kind; a live user's unused email-change token names the pending address. |
| `AuthRuns.After` | apps/api/src/modules/auth/auth.repository.ts:290-349 | So all of that holds in every state a run from the empty store reaches. |
| `AuthRuns.StepFollows` | apps/api/src/modules/auth/auth.repository.ts:410-416 | No request takes back a user row, a deletion, the end of a session, or the use or removal of a token; a token kept says what it said; and every birth date a request brings in, for a new user, a signup or a live user, is one the gate lets through. |
| `AuthGuarantees.EveryUserIsOldEnough` | apps/api/src/modules/auth/auth.service.ts:173-178 | In every state of every run, corrections of the date of birth included, and at every later time, each live user and each pending signup meets the minimum age. |
| `AuthGuarantees.OldSessionsStayRefused` | apps/api/src/modules/auth/auth.service.ts:764-801 | After a reset, password change, forced logout, suspension or deletion, no session the user held before is accepted again in the run, suspension lifted or not, and asking with one changes nothing. |
| `AuthGuarantees.AdmittedIff` | apps/api/src/modules/auth/auth.service.ts:1033-1054 | A signed-in request gets past the door if and only if its session is known and unexpired and its holder neither deleted nor suspended. |
| `AuthGuarantees.SessionsRollOver` | apps/api/src/modules/auth/auth.service.ts:1050-1053 | A session let in is, with nothing in between, let in again if and only if no more than 30 days have passed. |
| `AuthGuarantees.TokensActOnce` | apps/api/src/modules/auth/auth.repository.ts:447-459 | Once a token has been acted on, every later request with it, of whatever kind, is refused and changes nothing. |
| `AuthGuarantees.CleanUpTakesNothingUsable` | apps/api/src/database/cleanup-expired.ts:16-19 | The tables just before and just after the clean-up, compared at any later moment with no request in between: exactly the same sessions are let in, tokens may be acted on and pending signups redeemed. |
| `AuthCleanUp.StepUnnoticed` | apps/api/src/database/cleanup-expired.ts:16-19 | Every request is answered alike on the tables and on those with some of what has run out removed, and leaves tables that differ by no more; only a link that has run out may be called unknown instead of expired. |
| `AuthCleanUp.CleanUpGoesUnnoticed` | apps/api/src/database/cleanup-expired.ts:30-50 | So in any run: whatever comes before a clean-up and after it, every later request is answered as in the run without it, that one difference apart. |
| `AuthGuarantees.ChangeTokensNamePending` | apps/api/src/modules/auth/auth.service.ts:954-964 | In every reachable state an unused email-change token names its user's pending address if and only if that user is live. |
| `AuthProfile.BirthDateChangesIff` | apps/api/src/modules/users/users.service.ts:89-107 | A request changes a live user's date of birth if and only if it is an edit of the profile in an admitted session of that user, under a free name, with another date, which qualifies; it is then the date asked for. |
| `AuthProfile.CorrectionGrantedIff` | apps/api/src/modules/users/users.service.ts:80-109 | Such an edit is answered as done if and only if the state it meets grants it. |
| `AuthProfile.BirthDateAlong` | apps/api/src/modules/users/users.repository.ts:252-270 | Along any run, from any of its states to any later one, while a user lives, the date of birth on file is the last correction granted in between, or the date there was if there was none. |
| `AuthIdentity.OnlySigningUpMakesUsers` | apps/api/src/modules/auth/auth.service.ts:446-486 | A request makes at most one user, and only registering, or coming back from Google with an unexpired pending signup whose birth date qualifies, makes any. |
| `AuthIdentity.SignupsWorkOnce` | apps/api/src/modules/auth/auth.repository.ts:141-148 | In a run, a pending signup makes at most one user. |
| `AuthIdentity.RegisterCollidesIff` | apps/api/src/modules/auth/auth.service.ts:180-208 | Registration fails on a unique index if and only if it gets that far and the name is in use or the address is held by a deleted row; on no address but a pseudonym, and never on the EMAIL identity. |
| `AuthIdentity.ConfirmSucceedsIff` | apps/api/src/modules/auth/auth.service.ts:979-1024 | Confirming never fails on a unique index, and succeeds if and only if the token is usable and unexpired, its user live, and no user row holds the pending address. |
| `AuthIdentity.ConfirmMovesBoth` | apps/api/src/modules/auth/auth.repository.ts:303-317 | After it, user and EMAIL account are at the address that was pending. |
| `AuthIdentity.LiveClaimIsInUse` | apps/api/src/modules/auth/auth.service.ts:946-953 | A live user's claim on an address is always visible through the user row too: the second refusal is never reached. |
| `AuthIdentity.FirstPasswordCollidesIff` | apps/api/src/modules/auth/auth.service.ts:753-763 | A first password fails on a unique index if and only if a deleted user's EMAIL account still holds the address. |
| `AuthIdentity.DisconnectIffLoginRemains` | apps/api/src/modules/auth/auth.service.ts:904-923 | Removing a login is granted if and only if the user has one of that provider and can still sign in without it; it is not found if and only if there is none. |
| `AuthIdentity.ClaimedNameIsFirstFree` | apps/api/src/modules/auth/auth.service.ts:1193-1204 | The claimed name is the chosen one if no live user has it, else the first free numbered variant, else, all being taken, the first 22 characters of it with the random ending. |
| `AuthIdentity.VariantsAre` | apps/api/src/modules/auth/auth.service.ts:1193-1204 | A numbered variant is the name, cut after 25 characters, an underscore and the number in decimal; the random ending follows the first 22. |
| `AuthJourneys.LoginSucceedsIff` | apps/api/src/modules/auth/auth.service.ts:258-321 | A session of a user starts if and only if the address is not locked out and address and password are that user's, verified and unsuspended. |
| `AuthJourneys.RegisterVerifyLogin` | apps/api/src/modules/auth/auth.service.ts:210-218 | Whoever registers is kept out until the link has been followed, which works for exactly 24 hours, and then gets in with the password chosen. |
| `AuthJourneys.ResetThenLogin` | apps/api/src/modules/auth/auth.service.ts:729-770 | After a reset, or a first password, exactly the new password gets the user in, the address being verified by it. |
| `AuthJourneys.ChangeThenVerify` | apps/api/src/modules/auth/auth.service.ts:774-802 | A change takes exactly the current password, after which exactly the new one is right; the caller keeps a session. |
| `AuthJourneys.LinkedIdentitySignsIn` | apps/api/src/modules/auth/auth.service.ts:379-421 | A linked Google identity signs its live, unsuspended user in whatever else comes with it, and refuses a suspended user, or a deleted one with no signup pending, changing nothing. |
| `AuthJourneys.GoogleSignupThenReturn` | apps/api/src/modules/auth/auth.service.ts:366-486 | Whoever a Google sign-in makes is live, at the address reported and in the session started, and that identity signs them in from then on. |
| `AuthJourneys.LinkThenReturn` | apps/api/src/modules/auth/auth.service.ts:498-571 | Linking takes the password of the user the token was issued to, and from then on the token's identity signs that user in. |
| `AuthJourneys.AskThenConfirm` | apps/api/src/modules/auth/auth.service.ts:925-1024 | A request granted can be confirmed if and only if it is within the hour and not for the empty address, and the user is then at the canonical form of the address asked for. |
| `AuthJourneys.AskingAgainReplaces` | apps/api/src/modules/auth/auth.service.ts:954-964 | Asking again makes every earlier link worthless. |
| `AuthJourneys.DeleteThenRegister` | apps/api/src/modules/auth/auth.service.ts:184-196 | Whoever deletes their account can register with the same address again, under any name not in use. |
| `AuthRecovery.ForgotAnswers` | apps/api/src/modules/auth/auth.service.ts:677-727 | Asking for a reset is answered by whether a live user is at the canonical address and has a password; exactly then one token is issued, good for 3 600 000 ms, every earlier one of that user is spent and nothing else changes; with nobody there nothing changes at all. |
| `AuthRecovery.ForgotThenReset` | apps/api/src/modules/auth/auth.service.ts:694-763 | That token resets to any password if and only if it is followed within 3 600 000 ms and, for a first password, no deleted user still claims the address. |
| `AuthRecovery.ForgettingAgainReplaces` | apps/api/src/modules/auth/auth.service.ts:694-705 | Every earlier reset token of that user is refused from then on. |
| `AuthRecovery.ForgotThenLogin` | apps/api/src/modules/auth/auth.service.ts:677-770 | From having forgotten the password to being in again: after the reset exactly the new password starts a session. |
| `AuthRecovery.ResendAnswers` | apps/api/src/modules/auth/auth.service.ts:619-662 | Asking for another link is answered alike whoever asks; one good for 86 400 000 ms is issued if and only if a live, unverified user with an EMAIL account is at the address, the earlier ones being spent. |
| `AuthRecovery.ResendThenVerify` | apps/api/src/modules/auth/auth.service.ts:583-662 | It verifies the address for exactly that time, and no earlier one does. |
| `AuthRecovery.OfferThenLink` | apps/api/src/modules/auth/auth.service.ts:423-571 | Coming back from Google with an identity nobody holds, at a live user's address, issues a token that links the identity and signs in with that user's password and no other, for exactly 900 000 ms. |
| `AuthRecovery.BeginThenReturn` | apps/api/src/modules/auth/auth.service.ts:336-486 | A signup begun is completed within 900 000 ms, under the name, the birth date and the address given, unless some row has taken the name. |
| `AuthRecovery.PassAnswers` | apps/api/src/modules/auth/auth.service.ts:830-852 | A sensitive request passes with the right password, leaving a proof by Google where it is, or else with such a proof at most 600 000 ms old, which it uses up, and in no other way. |
| `AuthRecovery.ProveThenPass` | apps/api/src/modules/auth/auth.service.ts:830-872 | A proof by Google lets exactly one sensitive request of that session through, within 600 000 ms. |
| `AuthSuspension.SuspensionGrantedIff` | apps/api/src/modules/admin-users/admin-users.service.ts:126-136 | A suspension, or its end, is granted if and only if an admitted administrator asks for it about somebody else on file; the target's flag is then the one asked for and no other column of any row has changed. |
| `AuthSuspension.StaysSuspended` | apps/api/src/modules/admin-users/admin-users.service.ts:126-136 | No other request ends a suspension. |
| `AuthSuspension.SuspensionHolds` | apps/api/src/modules/admin-users/admin-users.service.ts:126-136 | Along any run, from a granted suspension to the request that lifts it, the user is suspended. |
| `AuthSuspension.SuspendedIsKeptOut` | apps/api/src/modules/auth/auth.service.ts:1033-1048 | No session of a suspended user is let in. |
| `AuthSuspension.SuspendedCannotSignIn` | apps/api/src/modules/auth/auth.service.ts:258-306 | No sign-in starts a session of a suspended user; the right password on a verified address, no lock being in force, is answered by the suspension, and nothing changes. |
| `AuthSuspension.SuspendedCannotReturn` | apps/api/src/modules/auth/auth.service.ts:379-421 | Nor does coming back through a linked Google identity. |
| `AuthSuspension.SuspendedIsToldSo` | apps/api/src/modules/auth/auth.service.ts:300-302 | So at every moment of any run between the two: the right password is answered by the suspension. |
| `AuthSuspension.LiftedGetsIn` | apps/api/src/modules/admin-users/admin-users.service.ts:126-136 | Once it is lifted, the password that was right before is right again. |
| `AuthRows.StepRows` | apps/api/src/modules/auth/auth.repository.ts:224-345 | Whatever the request and however it is answered, each user row there was is afterwards, in every column, what the table of `AuthRows` says of request and answer: verified, pending and present address, name, birth date, roles, suspension and deletion. |
| `AuthNewcomers.StepMakes` | apps/api/src/modules/auth/auth.repository.ts:62-225 | The rows that are new are exactly those a sign-up makes, one at most, holding the canonical address, the name and birth date chosen, and the VRATARTHI role alone. |
| `AuthNewcomers.StepPendings` | apps/api/src/modules/auth/auth.repository.ts:122-160 | A signup waits, as it was chosen, for whoever comes back with it or until a job finds it run out, 900 000 ms after it began; only beginning one adds one. |
| `AuthSessions.StepSessions` | apps/api/src/modules/auth/auth.repository.ts:363-416 | Each session there was is afterwards what the table says: ended, rolled over 2 592 000 000 ms, with its proof set, taken or kept; the only new one is the one the answer names, of the user it names. |
| `AuthTokens.StepTokens` | apps/api/src/modules/auth/auth.repository.ts:418-503 | A request issues at most one token, of the user, kind, content and time in the table, and spends the earlier ones of that user and kind; any other leaves every token as it was, but for the one acted on and those a clean-up finds run out. |
| `AuthAccounts.StepAccounts` | apps/api/src/modules/auth/auth.repository.ts:187-360 | Each identity there was is afterwards what the table says: let go, renamed, with its password set, cleared or kept; at most one is new, whose and with what the table says as well. |
| `AuthAnswers.StepAnswers` | apps/api/src/modules/auth/auth.service.ts:160-1087 | Every request is refused if and only if the table gives a reason on the state it meets, and with that reason. |
| `AuthAnswers.StepIsAnswered` | apps/api/src/modules/auth/auth.service.ts:160-1087 | A request that is not refused gets the answer the second table says. |
| `AdminUsers.ActorStaysAdmin` | apps/api/src/modules/admin-users/admin-users.service.ts:62-157 | An active administrator comes out of every administrative action, on whomever, an active administrator. |
| `AdminUsers.AdminRemainsIff` | apps/api/src/modules/admin-users/admin-users.service.ts:62-157 | Whatever request is made, an active administrator remains, unless, and only unless, an admitted user with a proof that holds and a free pseudonym deletes their own account and no other administrator is active. |
| `AdminUsers.AdminRemainsAlong` | apps/api/src/modules/admin-users/admin-users.repository.ts:114-134 | So along any run in which that does not happen. |
| `AuthEdges.SomebodyIs` | apps/api/src/common/age/age.ts:24-27 | The five runs below are about people there are: whoever was born on 1 January 1970, say, all through 1 January 2020. |
| `AuthEdges.LastAdminMayLeave` | apps/api/src/modules/users/users.service.ts:302-313 | A run from the empty store after which the one administrator has deleted the account and none is left. |
| `AuthEdges.TokenMayNameNothing` | apps/api/src/modules/users/users.repository.ts:198-230 | A run that leaves an unused email-change token for an address nobody waits for. |
| `AuthEdges.NameMayBeInUse` | apps/api/src/modules/auth/auth.service.ts:198-208 | A run in which the second to register under a name is refused by the unique index. |
| `AuthEdges.PseudonymMayBeInUse` | apps/api/src/modules/auth/auth.service.ts:180-208 | A run in which registering the address a deleted account went under is refused by the unique index. |
| `AuthEdges.FirstPasswordMayCollide` | apps/api/src/modules/auth/auth.service.ts:755-763 | A run, for every ordinary address, in which a user who deleted the account and came back through Google is refused a first password by the unique index. |
| `Uninterrupted.ReauthenticateAlone` | apps/api/src/modules/auth/auth.service.ts:862-883 | The steps of a re-authentication, uninterrupted, do to the tables what the operation does. |
| `Uninterrupted.SensitiveAlone` | apps/api/src/modules/auth/auth.service.ts:830-852 | So do those of a proof. |
| `Uninterrupted.RequestAlone` | apps/api/src/modules/auth/auth.service.ts:925-977 | So do those of a request for an address, on every path. |
| `Uninterrupted.ConfirmAlone` | apps/api/src/modules/auth/auth.service.ts:979-1024 | So do those of a confirmation, on every path. |
| `Provenance.NextKeeps` | apps/api/src/modules/auth/auth.repository.ts:269-401 | Every atomic step of every request in flight, and every other write, keeps what the theorems below need. |
| `Provenance.EveryChangeWasAskedForAndConfirmed` | apps/api/src/modules/auth/auth.service.ts:925-1024 | However requests interleave: every change of an address was asked for by its user, for that address, after the user had passed a proof for it in the same session, and was confirmed with the token issued for that very request, to that user for that address, unexpired when checked. |
| `Provenance.AddressesMoveByJustifiedChanges` | apps/api/src/modules/auth/auth.repository.ts:303-317 | And addresses move in no other way: in each step of any run a user's address stays, or the user is deleted under a pseudonym, or the step makes exactly one such change, of that user to that address. |
| `ProofUse.EachPassServesOneRequest` | apps/api/src/modules/auth/auth.service.ts:925-964 | However requests interleave: a request for an address goes through only on a proof passed before it, by the same user, in the same session and for that address, and no two go through on one pass. |
| `ProofUse.ProofsAreSpentOnce` | apps/api/src/modules/auth/auth.service.ts:830-872 | However requests interleave: every proof passed through Google spends a stamp of its own, put on the same session by a Google identity that was linked to the same user in the tables it was checked in, at most ten minutes old when the clock was read. |
| `ProofUse.OneStampOneRequest` | apps/api/src/modules/auth/auth.service.ts:841-852 | So one re-authentication lets at most one request for an address through. |
| `ProofUse.RequestsAreNotShared` | apps/api/src/modules/auth/auth.service.ts:954-964 | Two changes of an address rest on one request for it only if they were confirmed with one token. |
| `ProofUse.SpentTokensChangeNothing` | apps/api/src/modules/auth/auth.repository.ts:447-459 | However requests interleave: the token of every change was unused when its confirmation found it, and once it is used or gone, no confirmation that looks for it later changes anything with it. |
| `Permissions.RolesAddUp` | apps/api/src/common/permissions/has-permission.ts:37-438 | Two sets of roles together open what either opens, and nothing else. |
| `Permissions.MoreRolesNeverDeny` | apps/api/src/common/permissions/has-permission.ts:37-438 | No role turns an allow into a deny. |
| `Permissions.TheDecision` | apps/api/src/common/permissions/has-permission.ts:37-438 | For every user, resource and action, the decision is the one of the tables: what is open with no role, and what each role held opens, by action, resource, ownership, guides, drafts, visibility and status. |
| `Permissions.NoRoleOpensExactly` | apps/api/src/common/permissions/has-permission.ts:18-397 | With no role, exactly that role-free table is open: what one wrote, was sent or is in, and what the environment grants. |
| `Permissions.VratarthiOpensExactly` | apps/api/src/common/permissions/has-permission.ts:47-312 | Giving VRATARTHI to anybody, whatever other roles they hold, opens exactly its table; closing an ERC, for one, only while no vratmitra is active. |
| `Permissions.VratmitraOpensExactly` | apps/api/src/common/permissions/has-permission.ts:285-312 | Giving VRATMITRA to anybody, whatever other roles they hold, opens exactly its table of actions, each on a resource that names them as vratmitra. |
| `Permissions.TheRoleAloneOpensNothing` | apps/api/src/common/permissions/has-permission.ts:287-295 | Somebody who signed up and then gets VRATMITRA gets nothing on a resource that does not name them as a vratmitra. |
| `Permissions.StaffOpensExactly` | apps/api/src/common/permissions/has-permission.ts:400-438 | Giving ADMIN or MODERATOR to anybody opens exactly that role's table of actions. |
| `Permissions.StrangersGetNothing` | apps/api/src/common/permissions/has-permission.ts:47-397 | A member who is no staff gets nothing on a resource that is not theirs, does not name them and was not sent to them, beyond what is open to any member. |
| `Permissions.GatesIgnoreWhoAsks` | apps/api/src/common/permissions/has-permission.ts:18-45 | A gated feature opens by the grant and the environment alone: not by any role or identity. |
| `Permissions.AdminsAloneManageUsers` | apps/api/src/common/permissions/has-permission.ts:402-421 | Managing users takes ADMIN, whatever the resource. |
| `Permissions.ClosingAlone` | apps/api/src/common/permissions/has-permission.ts:97-105 | A vratarthi closes an ERC of their journey if and only if it has no active vratmitra, unless they are that vratmitra. |
| `Chats.RoomOpensIff` | apps/api/src/modules/chats/chats.service.ts:54-82 | A room opens exactly to a user its name is made of, together with one other, while the two are related. |
| `Chats.DerivedRoomIsTheirs` | apps/api/src/modules/chats/chats.service.ts:84-87 | The room of two people does not depend on who asks, names them in dictionary order, is theirs, and is no other pair's. |
| `Chats.ChatsRepository.CreateMessage` | apps/api/src/modules/chats/chats.repository.ts:10-38 | A message is appended under one more than the room's highest number. |
| `Chats.ChatsRepository.GetMessages` | apps/api/src/modules/chats/chats.repository.ts:40-61 | A page holds at most the limit and at most 200, in ascending order, rows of this room above the number only, none more often than it was written; a row left out means the page is full and holds nothing above it. |
| `Chats.ChatsService.SendMessage` | apps/api/src/modules/chats/chats.service.ts:19-33 | Refused exactly without the room; what is stored is a document the sanitiser leaves alone; a refusal stores nothing. |
| `Chats.AscendingSorts` | apps/api/src/modules/chats/chats.repository.ts:48 | The order of a page is ascending, and a permutation of the rows, whatever their numbers. |
| `Chats.SendKeepsNumbers` | apps/api/src/modules/chats/chats.repository.ts:10-38 | Sends one at a time keep every room's numbers 1 to n. |
| `Chats.PageIsNext` | apps/api/src/modules/chats/chats.repository.ts:40-61 | In such a room a page is the next messages, none left out. |
| `Chats.ReaderHasAPrefix` | apps/api/src/modules/chats/chats.service.ts:35-43 | Whoever sends what in between, a reader paging by the last number seen has a prefix of the room. |
| `Chats.ReaderCatchesUp` | apps/api/src/modules/chats/chats.service.ts:35-43 | Once sending stops, as many fetches with limits of at least one as messages are missing bring all of it. |
| `Blogs.BlogsService.Create` | apps/api/src/modules/blogs/blogs.service.ts:72-77 | A new blog is a draft with a sanitised body, for VRATARTHI and VRATMITRA alone, and nothing is sent to the index. |
| `Blogs.BlogsService.Update` | apps/api/src/modules/blogs/blogs.service.ts:79-95 | Only the author's, only sanitised; title, body and draft flag are those asked for or as they were, the row is dated when a draft is published, and the one write sent brings its id in step. |
| `Blogs.BlogsService.RemoveBlog` | apps/api/src/modules/blogs/blogs.service.ts:97-106 | The same for removal. |
| `Blogs.BlogsService.OnModuleInit` | apps/api/src/modules/blogs/blogs.service.ts:33-49 | From any index and any writes still to be made: those sent give every published blog its current entry, and leave every other id as it was. |
| `Blogs.NextRow` | apps/api/src/modules/blogs/blogs.service.ts:79-106 | A row changes on its author's edit, to what was asked for, on its author's removal, and on nothing else. |
| `Blogs.NextNewRow` | apps/api/src/modules/blogs/blogs.service.ts:72-77 | A row that is new is a draft of whoever wrote it, a VRATARTHI or VRATMITRA, under the title given, with the body made safe. |
| `Blogs.BlogAlong` | apps/api/src/modules/blogs/blogs.service.ts:79-95 | Along any run, a blog reads as its author last asked for, until the author edits or removes it, whatever anybody else does. |
| `Blogs.SeedingRepairsIff` | apps/api/src/modules/blogs/blogs.repository.ts:108-113 | That puts the index right if and only if it held nothing that is not published. |
| `Blogs.EveryRunEndsInStep` | apps/api/src/modules/blogs/blogs.service.ts:58-106 | Whatever is created, edited and removed, by whomever, across restarts and however far the index is behind, the writes sent, once made, leave it exactly what it should be; every body stored is one the sanitiser leaves alone, and every published blog is dated. |
| `Blogs.AgreementMeans` | apps/api/src/modules/blogs/blogs.service.ts:58-68 | After any run the writes sent leave a blog in the index if and only if it is published, with its current title and exactly the words of its current body. |
| `Blogs.IgnoringIndexAgreesIff` | apps/api/src/modules/search/blogs-index.service.ts:20-32 | After any run an index that ignores its writes, beside the same table, lacks exactly what is published: it is as it should be if and only if nothing is. |
| `Blogs.IgnoringIndexFallsBehind` | apps/api/src/modules/search/blogs-index.service.ts:20-32 | Such runs there are: whoever may write, whatever the title and the document, drafts a blog and publishes it. |
| `Blogs.BlogsService.Search` | apps/api/src/modules/blogs/blogs.service.ts:125-133 | Whatever ids the index answers with, those published now are returned, in the index's order; nothing for fewer than two characters; unavailable when the index is. |
| `Blogs.SettledSearchDropsNothing` | apps/api/src/modules/blogs/blogs.repository.ts:99-105 | After any run, of an index that has made its writes and answers with ids it holds, a search drops none. |

## Left out

- Registration's, linking's and other operations' side effects: mail, audit, error reporting, consent rows, the
  linking of pending invitations and the user search index.
- The shape of request bodies (address format, password and name rules): any string may arrive.
- `completeFramework`, one row; the display name, gender and language of a profile.
- `Text.NormalizeIdempotent`: lower-casing is of ASCII letters only, where the service lower-cases all of Unicode.
- The script that wipes every user.
- Truly concurrent `createMessage`, token use and pending signups: the code reads, then writes; these are taken one
  operation at a time.
- Two administrators suspending each other at the same moment, each validated before the other's write: outside the
  one-at-a-time runs of `AdminUsers`.
- `MessageObjects.MessageObject.WritePath`: walks the path by recursion where the original loops over its parts;
  integer-like keys, which JavaScript lists first, and `__proto__` as a segment are not modelled.
- `Chats.ChatsRepository.GetMessages`: a negative limit, which the database reads from the end, and one that is no
  number.
- `AuthService.Service.DisconnectAccount`: which of several accounts of one provider the listing has first is an
  argument.
- Key order inside a Tiptap object.
- `Tiptap.NodeFixpoint`: the limits on a mention's label and id count code points, where the sanitiser counts UTF-16
  units.
- `TiptapContent.DocExactly`: the same limits are read the same way.
- `Blogs.EveryRunEndsInStep`: a write lost on its way to the index, by a restart for one, is not among the events; what
  starting up then repairs is `Blogs.SeedingRepairsIff`.
- `Age.WebAgrees`: what `Number` makes of a string that is not a run of digits is an argument; local midnights are
  compared as day numbers.
- `Lockout.LockoutStore.CheckLockout`: Redis errors, on which the service lets the login through, and a corrupt
  stored value.
- `Permissions.RolesAddUp`: the first layer's switch is given as a table from actions to rules and a check of each rule.
- Journeys, ERC items, invitations, notifications, comments and the remaining list and detail queries.
