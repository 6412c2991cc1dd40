# The identity provider, modelled and proved

A Dafny model of the RokuSec identity provider: who exists and what they may do
(tenants, applications, users, groups, roles, permissions), how someone signs in
(password, risk decision, step-up, callback code), how a passkey is enrolled, and the
small components around them (policy cache, simulation tickets, base64url, passkey
import, forwarded-hop search). `dafny verify dfyconfig.toml` checks all of it.

## How it is put together

- **Values.** `Models.dfy` holds the rows. A `Store` is a `Directory` (ten tables) and an
  `Auth` (sessions, challenges, callback codes, activation codes, passkeys). Every
  transaction is a function from the store before to the store after and an answer:
  `Admin.dfy`, `Login.dfy`, `Enrollment.dfy`, `Seed.dfy`, `Passkeys.dfy`.
- **The database.** `Database.dfy` is a class with one field per table. The service classes
  (`LoginService`, `EnrollmentService`, `AdminService`, `TenantService`, `SeedService`) assign
  its rows in place, loop where the program loops, and roll back where it raises after a
  write; each method is proved to do exactly what its transaction's function says.
- **The directory.** `DirectoryInvariant.dfy` says what the tables promise of each other.
  `AdminInvariant` and `SeedInvariant` prove what keeps it, `AdminIsolation` and
  `AdminNoninterference` that tenants do not touch or hear each other, `AdminFounding` what a
  new tenant takes from the others, `AdminPurging` the same of whole runs, `AdminRuns` of runs
  from the bearer token on, `AdminEffects` what requests do to permissions, `AdminFlag` what
  they and seeds do to the admin flag, `AdminUndo` who holds a role after a request and what
  one undoes of another.
- **Signing in.** `Machine.dfy` is the service as a state machine whose steps are single
  transactions, so a login is five of them with anyone else in between. `MachineInvariant`,
  `MachineSteps`, `MachineFrame` and `MachineTheorems` prove what every run keeps, in any
  directory, valid or not; `MachineOrder` says which runs keep the directory valid,
  `MachineEnrollment` when an offer to enroll lapses; `Hiding` compares two runs.
- **Reading the theorems.** A world carries the log of the run. Evidence such as
  `PasswordShown` or `FactorAt` is a place in that log, so "every session is justified" means
  that the log contains the check, the ruling and the factor that justify it.

Time is a number that never goes back, and each step has one. Hashes, bcrypt, HMAC, WebAuthn
verification, JSON and address parsing are function values nothing is assumed of unless a lemma
says so (`CounterRule`, `ReadsBack`). Random tokens and generated ids are arguments; a run is
allowed only if a token, callback code or challenge id it draws is not one already used. The
risk engine and the policy service are arguments that may also be missing.

## Where the program differs from what it says

- Derived ids are built by replacing '-' with '_', and a bootstrap takes any row it finds under
  one. Creating tenant `a-b` after `a_b` succeeds and leaves `a-b` administered through `a_b`'s
  group. `BootstrapKeepsValidIffUnclaimed` and `CreateTenantKeepsValidIffUnclaimed` say exactly
  when this does not happen; `TwinTenantIsCreatedBroken` and `HyphenMeetsUnderscore` are the input.
- "The flag can never disagree" with the admin group holds after the flag is set. In a valid directory
  two things undo it, and nothing else does: an accepted edit of the user's place in that group
  (`ValidAgreementAfterIff`), and a seed that lists an unflagged user in it (`SeedKeepsAgreementIff`,
  `SeedingUndoesADemotion`; `DiegoIsReadmitted` is the input). Where a tenant was created over
  another's group, its maker may also delete it (`AgreementAfterIff`, `MakerDeletesTheAdmins`).
- "Ids cannot be probed" holds but for ids that are unique across the platform: a create learns
  whether one is taken, and nothing else does (`NonInterference`; `FoundingInterferesIff` lists what a
  new tenant takes).
- "An unknown client_id fails like an unknown application" fails exactly when an enabled application is
  called `unknown:` and that id (`UnknownClientFailsIff`), and any operator can create one
  (`StandInIsReachable`).
- A policy from the cache is fresher than the lifetime only if the read did not fail
  (`FailedReadsAreUnbounded`), and an invalidation is overtaken exactly by a read made before it of a
  policy no longer in force (`InvalidationIsSeenIff`; `InvalidationCanBeOvertaken` is the input).
- The offer to enroll is meant to lapse once the user has a passkey. The refusal undoes the closing of
  the window and the verification does not ask, so it lapses exactly for the sessions that had not
  been handed options (`OfferLapsesIff`): a session enrolls at most one passkey, a user may enroll
  several (`TwoSessionsStoreTwoPasskeys` is the input).

## Model

| member | source | states |
|---|---|---|
| Authz.EffectiveIsExact | src/rba_idp/authz.py:45-67 | a scope is returned exactly when some chain user, group, role, permission on that application grants it |
| Authz.PermissionNeedsAccess | src/rba_idp/authz.py:70-89 | permissions are non-empty exactly when some held role carries one; sign-in itself needs only a role |
| Authz.RemovalsNeverEnlarge | src/rba_idp/authz.py:45-112 | losing rows of the four relations never adds a role or a scope for anyone |
| Authz.ReplacementIsExact | src/rba_idp/services/admin.py:896-952 | after a role's set is replaced, its holders have their other roles' scopes plus the new set, everyone else exactly what they had |
| AdminInvariant.ExecuteKeepsValid | src/rba_idp/services/admin.py:550-996 | every tenant-scoped request, accepted or refused, keeps keys, foreign keys, uniqueness, tenant containment of links, own-application permissions and reachable consoles |
| AdminInvariant.ExecuteIsStable | src/rba_idp/services/admin.py:550-996 | no request removes or moves a user or an application, or changes which tenants are the platform |
| AdminInvariant.PatchTenantKeepsValid | src/rba_idp/services/admin.py:524-541 | editing a tenant keeps the directory valid, domains single-owner |
| AdminInvariant.CreateTenantKeepsValidIffUnclaimed | src/rba_idp/services/admin.py:482-522 | a created tenant leaves the directory valid exactly when none of its derived ids was in use; a refused one changes nothing |
| AdminInvariant.CreateTenantIsStable | src/rba_idp/services/admin.py:482-522 | creating a tenant moves nobody and makes no tenant the platform |
| AdminIsolation.WritesStayHome | src/rba_idp/services/admin.py:550-996 | a request acting on one tenant leaves every row of every other tenant as it was |
| AdminIsolation.UserLooksTheSame | src/rba_idp/services/admin.py:142-180 | a user's public form depends on the tenant's own rows only |
| AdminIsolation.GroupLooksTheSame | src/rba_idp/services/admin.py:264-307 | so does a group's, with its members and roles |
| AdminIsolation.RoleLooksTheSame | src/rba_idp/services/admin.py:228-250 | so does a role's, with its permissions |
| AdminIsolation.TenantLooksTheSame | src/rba_idp/services/admin.py:196-215 | so does the tenant's own |
| AdminNoninterference.NonInterference | src/rba_idp/services/admin.py:315-996 | on two stores that agree on a tenant, its operator's request is answered alike exactly when the platform-wide claims it reaches agree, and then the stores still agree; requests that create nothing always are |
| AdminPurging.RunsDoNotInterfere | src/rba_idp/services/admin.py:315-996 | in any run of requests, tenants created over free ids, tenants edited and users signing in, what is answered about one tenant is what would be answered if every other tenant's were removed, exactly when no lookup across tenants it makes was moved |
| AdminPurging.EditsAreNeverDisturbed | src/rba_idp/services/admin.py:543-968 | operators who create nothing and want no domains hear exactly what they would hear alone |
| AdminNoninterference.ClaimsShow | src/rba_idp/services/admin.py:618-637 | a platform-wide claim that differs is visible in the answer |
| AdminFounding.FoundingStaysHome | src/rba_idp/services/admin.py:482-522 | creating a tenant over ids nobody has leaves every other tenant's rows as they were |
| AdminFounding.FoundingAddsDerived | src/rba_idp/seed.py:242-271 | to the platform-wide keys it adds exactly the derived ids, and the console's client id |
| AdminFounding.FoundingInterferesIff | src/rba_idp/services/admin.py:618-637 | an operator of another tenant is then answered differently exactly when their request asks for one of those ids or that client id |
| AdminFounding.FoundingTakesDomainsIff | src/rba_idp/services/admin.py:368-377 | and an edit of another tenant exactly when it wants one of the new tenant's domains and was free to have it |
| AdminFounding.ReshapeMatchesIff | src/rba_idp/services/admin.py:524-541 | on two stores that agree on a tenant, editing it is answered alike exactly when the wanted domains are owned elsewhere on both or neither, and then they still agree |
| AdminEffects.PermissionsStayHome | src/rba_idp/authz.py:45-89 | in a valid directory access and permissions exist only on applications of the user's own tenant |
| AdminEffects.RemovingNeverGrants | src/rba_idp/services/admin.py:738-793 | deleting a group or role, or removing a member or an assignment, gives nobody a role or a permission |
| AdminEffects.SettingPermissionsIsExact | src/rba_idp/services/admin.py:896-952 | an accepted PUT gives each holder the other roles' scopes plus exactly the wanted ones, and changes nobody else |
| AdminFlag.SettingTheFlagAgrees | src/rba_idp/services/admin.py:350-365 | creating a user, or patching the flag, ends with flag and admin-group membership equal and other memberships unchanged |
| AdminFlag.AgreementAfterIff | src/rba_idp/services/admin.py:550-996 | after any request, in any directory and for any user of any tenant: setting the flag ends in agreement if the admin group is there, an accepted edit of the user's place in it flips it, deleting the group leaves exactly the flagged in disagreement, nothing else changes it |
| AdminFlag.ValidAgreementAfterIff | src/rba_idp/services/admin.py:738-747 | in a valid directory the group is there and cannot be deleted, so only the edit of the user's place undoes the flag |
| AdminFlag.MakerDeletesTheAdmins | src/rba_idp/services/admin.py:738-747 | a tenant is created over a group another tenant made under its admin group's id; the maker deletes it and the flags disagree |
| AdminFlag.SeedKeepsAgreementIff | src/rba_idp/seed.py:410-456 | a seed that commits keeps a user's agreement exactly unless the flag is off and the specs list the user, by id and address, in the admin group |
| AdminFlag.SeededUserAgreesIff | src/rba_idp/seed.py:206-236 | a user the seed creates agrees exactly when the flag it gives says whether it lists the admin group |
| AdminFlag.TenantsKeepAgreement | src/rba_idp/services/admin.py:482-541 | creating a tenant, over whatever ids, and editing one keep every user's agreement |
| AdminFlag.SeedingUndoesADemotion | src/rba_idp/seed.py:206-236 | an operator an admin demotes is put back into the admin group by the next seed that lists them there, with the flag still off |
| AdminFlag.DiegoIsReadmitted | src/rba_idp/seed.py:370-371 | the shipped operator, demoted, is such a user |
| AdminEffects.TwinTenantIsCreatedBroken | src/rba_idp/seed.py:242-271 | a tenant whose id mangles like a furnished one's is created without complaint and leaves the directory invalid |
| AdminEffects.CreatedIsFurnished | src/rba_idp/seed.py:242-271 | every created tenant has the rows its twin would take over |
| AdminEffects.FurnishingAgain | src/rba_idp/seed.py:143-203 | ensuring rows that are there changes nothing |
| AdminEffects.HyphenMeetsUnderscore | src/rba_idp/seed.py:70-79 | "a-b" and "a_b" are such a pair |
| AdminUndo.DeletingUndoesCreatingAGroup | src/rba_idp/services/admin.py:686-747 | a group just created is no admin group; deleting it restores the whole store |
| AdminUndo.DeletingUndoesCreatingARole | src/rba_idp/services/admin.py:831-894 | deleting a role just created restores the whole store |
| AdminUndo.LastSetWins | src/rba_idp/services/admin.py:896-952 | a PUT after an accepted PUT is accepted, answered and stored as if the first had not been |
| AdminUndo.WhoHoldsIsExact | src/rba_idp/services/admin.py:350-365 | after any request, any user holds exactly the roles they held less those it takes (unless another group still gives them) plus those it gives; the requests that do either, and to whom, are listed |
| AdminRuns.AuthorizeExactly | src/rba_idp/services/admin.py:426-461 | exactly who may act where: own console and permission; elsewhere only from the platform with tenants:read, on a tenant that exists |
| AdminRuns.RefusalDoesNotProbe | src/rba_idp/services/admin.py:426-461 | without the platform right, naming any other tenant is refused alike |
| AdminRuns.RunsStayHome | src/rba_idp/services/admin.py:426-541 | any interleaving of resolving, authorizing and acting under sessions of users of any set of non-platform tenants changes no other tenant's rows and no tenant |
| Seed.SeedIsIdempotent | src/rba_idp/seed.py:410-456 | a second seed with the same specs changes nothing, whatever random values it draws |
| Seed.SeedIsInflationary | src/rba_idp/seed.py:85-271 | seeding removes, re-owns and renames nothing |
| Seed.RunTwice | src/rba_idp/seed.py:85-236 | any list of ensure steps is idempotent |
| SeedInvariant.RunKeepsValidIffSound | src/rba_idp/seed.py:85-271 | a run that commits leaves a valid directory exactly when each row it linked belonged where the link says |
| SeedInvariant.SeedKeepsValidIffSound | src/rba_idp/seed.py:410-456 | the same of the whole seed |
| SeedInvariant.SeedKeepsValidWithOneOwner | src/rba_idp/seed.py:410-456 | seeding keeps the directory valid when every id, in it and in the specs, is asked for by one owner only |
| SeedInvariant.BootstrapKeepsValidIffUnclaimed | src/rba_idp/seed.py:242-271 | bootstrapping a tenant with nothing of its own keeps the directory valid exactly when no derived id is taken |
| SeedInvariant.BootstrapLinks | src/rba_idp/seed.py:242-271 | a bootstrapped tenant's admin group holds the admin role, the role every console scope, and the tenant points at both |
| Tenancy.DomainIsTheRest | src/rba_idp/tenancy.py:28-33 | the domain is what follows the last '@' of the normalised address if something precedes it |
| LoginFacts.ConsoleFailuresAreUniform | src/rba_idp/services/login.py:200-274 | on any store every console failure before the risk engine has one answer, and whoever reaches the engine had domain, console, user, password and role right |
| LoginFacts.ConsoleReachesTheEngineIff | src/rba_idp/services/login.py:200-274 | where an address has one user, the engine is reached exactly by those who had them right |
| LoginFacts.AppFailuresNameNobodyUnproved | src/rba_idp/services/login.py:244-274 | an application login names a user in a refusal only after the right password |
| LoginFacts.KnownClientResolves | src/rba_idp/main.py:710-720 | a known client id stands for its application |
| LoginFacts.UnknownClientFailsIff | src/rba_idp/main.py:710-720 | an unknown one fails like an unknown application exactly when its stand-in id is not an enabled application |
| LoginFacts.StandInIsReachable | src/rba_idp/services/admin.py:618-638 | in any store any operator can bring it about that it does not, by creating an application under the stand-in id |
| LoginFacts.RedirectsOnlyWhereRegistered | src/rba_idp/services/login.py:89-95 | a redirect is the registered one or none, and none exactly when nothing is registered or another was named |
| LoginFacts.SignOutEndsOne | src/rba_idp/services/login.py:584-591 | after signing out that token does not load and every other does as before |
| LoginFacts.ExchangeHandsOver | src/rba_idp/services/login.py:529-567 | after an exchange the new token loads what the old one did, the old one does not load and the code does not work again |
| LoginFacts.CallbackRedeemsIff | src/rba_idp/services/login.py:736-761 | the code a sign-in hands out buys that user a token with the session's expiry exactly if the redirect matched, both are unexpired and the user enabled |
| LoginFacts.StepUpOpensIff | src/rba_idp/services/login.py:763-793 | a refusal's challenge is never open and its answer names none; any other is open exactly until its lifetime has passed |
| LoginFacts.OutagesAskForAFactor | src/rba_idp/services/login.py:335-381 | with no answer from an engine that is not off, the action is the configured step-up, never ALLOW or BLOCK, nobody is trusted to enroll and nothing is called unusual |
| LoginFacts.ShownReasons | src/rba_idp/main.py:744-762 | of an answer's reasons the browser sees exactly the account's own pause |
| LoginFacts.AlwaysPasskeyIsNeverAllowed | src/rba_idp/services/login.py:115-118 | always asking for the passkey turns ALLOW into a step-up and leaves anything stricter |
| Enrollment.TypingDoesNotMatter | src/rba_idp/services/enrollment.py:61-67 | a typed code is normalised to the code exactly when it is the code but for case and separators |
| Enrollment.NormalisingTwice | src/rba_idp/services/enrollment.py:61-63 | normalising is idempotent |
| MachineSteps.StepKeepsInv | src/rba_idp/services/login.py:172-869 | every step of every request keeps the invariant of logins, challenges, sessions, codes, passkeys and activation codes, in any directory |
| MachineSteps.RunKeepsInv | src/rba_idp/services/login.py:172-869 | so does every run |
| MachineSteps.IssueStep | src/rba_idp/services/login.py:608-624 | a session is opened only for a login whose check, ruling and look for a passkey are in the log |
| MachineSteps.FinishStep | src/rba_idp/services/login.py:809-847 | completing a challenge consumes it and opens one session for its user and application |
| MachineSteps.RedeemStep | src/rba_idp/services/login.py:529-567 | an exchange spends the code, ends the old session and opens one with its user, application and expiry |
| MachineSteps.SessionVerifyStep | src/rba_idp/services/enrollment.py:135-143 | enrolling with a session spends its mark |
| MachineSteps.ActivationVerifyStep | src/rba_idp/services/enrollment.py:170-177 | enrolling with an activation code consumes it |
| MachineSteps.ManageStep | src/rba_idp/services/admin.py:543-996 | admin requests between the steps of a login keep the invariant too |
| MachineSteps.AddTenantStep | src/rba_idp/services/admin.py:482-522 | so does creating a tenant, over ids that are taken too |
| MachineSteps.ReseedStep | src/rba_idp/seed.py:410-456 | so does seeding again while people sign in |
| MachineTheorems.SessionLineage | src/rba_idp/services/login.py:529-567 | each live session descends from one root with its user, application and expiry of the root's time plus the session lifetime; a lineage has at most one live token and rotates at most once |
| MachineTheorems.GoneNeverLoads | src/rba_idp/services/login.py:849-869 | a token rotated away or signed out never loads again in any continuation |
| MachineTheorems.EverySessionIsJustified | src/rba_idp/services/login.py:244-333 | each session's root has in the log a right password with a role, then an ALLOW or an unexpired challenge completed with a factor and a role; user and application share a tenant |
| MachineTheorems.MarksAreWriteOnce | src/rba_idp/services/login.py:763-847 | consumption marks and the terms of challenges and codes never change once written |
| MachineTheorems.EverythingIsSpentOnce | src/rba_idp/services/enrollment.py:70-177 | at most one session per login and challenge, none for a refused one, one exchange per callback code, one passkey per session and activation code, one working activation code per user |
| MachineTheorems.EveryPasskeyCameThroughADoor | src/rba_idp/services/enrollment.py:106-208 | each stored passkey was there at first, imported, or enrolled by a session of a trusted login inside its window or by an open code after the right password |
| MachineTheorems.LoadingIsLiveAndExact | src/rba_idp/services/login.py:849-869 | exactly unexpired sessions of enabled users load, with exactly the scopes granted now |
| MachineTheorems.PermissionsAreAtHome | src/rba_idp/authz.py:45-67 | in every valid state permissions are only on applications of the user's tenant |
| MachineTheorems.OutageIsSafe | src/rba_idp/services/login.py:335-381 | while the engine never answers and no known mode is OFF nobody is blocked or offered a passkey, every lineage begins with a completed challenge and no session enrolls |
| MachineTheorems.StepUpsNeverBlock | src/rba_idp/services/login.py:447-527 | completing a challenge answers authenticated, denied or invalid, and never offers a passkey |
| MachineTheorems.EveryRunIsSafe | src/rba_idp/services/login.py:172-869 | lineage, justification, single use and provenance in every state of every run from any directory with nobody signed in, whatever tenants are created and seeds run |
| MachineTheorems.EveryOutageRunIsSafe | src/rba_idp/services/login.py:276-381 | in any such run whose every decision met an outage nobody was blocked or offered a passkey and no session opened but by completing a challenge |
| MachineOrder.StepKeepsValidIffOrderly | src/rba_idp/services/admin.py:482-522 | from a valid directory a step leaves a valid one exactly unless it creates a tenant over a taken id or commits a seed that links rows of two owners |
| MachineOrder.RunStaysValidIffOrderly | src/rba_idp/seed.py:242-271 | every state of a run is valid, with permissions at home, exactly when no step does |
| MachineOrder.StepKeepsEmails | src/rba_idp/db/models.py:94-100 | no step at all gives one tenant two users with one address |
| MachineOrder.RunKeepsEmails | src/rba_idp/db/models.py:94-100 | nor does any run |
| MachineEnrollment.OfferLapsesIff | src/rba_idp/services/enrollment.py:118-143 | a marked session inside its window whose user has a passkey by now stores one in some continuation exactly when its options were handed out before |
| MachineEnrollment.TwoSessionsStoreTwoPasskeys | src/rba_idp/services/enrollment.py:118-143 | from any start in which someone without a passkey may sign in, a run of two logins and two enrollments ends with two passkeys |
| MachineEnrollment.RefusalClosesNothing | src/rba_idp/services/enrollment.py:118-133 | asking for options with a passkey is refused and leaves the whole store, the mark included |
| MachineFrame.StepAdvances | src/rba_idp/services/login.py:447-591 | no step takes back a mark, removes or hands over a passkey, or reuses a session hash |
| MachineFrame.RunIsLater | src/rba_idp/services/login.py:447-591 | nor does any run |
| MachineFrame.StepCounts | src/rba_idp/services/login.py:504-520 | under the library's counter rule no step lowers a passkey's counter |
| MachineFrame.RunCounts | src/rba_idp/passkeys.py:45-67 | nor does any run of step-ups, enrollments and imports |
| Hiding.RuleAlike | src/rba_idp/services/login.py:276-333 | decisions alike in what the browser could tell lead to alike rulings and public answers |
| Hiding.EnforcingAlike | src/rba_idp/services/login.py:593-668 | so does enforcing them |
| Hiding.FinishAlike | src/rba_idp/services/login.py:809-847 | and completing the challenge that kept them |
| Hiding.StepsHide | src/rba_idp/main.py:744-762 | no step shows the browser a difference between two runs whose decisions are alike |
| Hiding.RunsLookAlike | src/rba_idp/main.py:744-762 | nor does any whole run |
| PolicyCache.StalenessIsBounded | src/rba_idp/tenancy.py:68-81 | under every interleaving a get that did not fall back on a failed read returns a policy in force less than the lifetime before it began, or during it |
| PolicyCache.NothingIsInvented | src/rba_idp/tenancy.py:68-81 | even a failed read returns only what was once in force |
| PolicyCache.InvalidationIsSeenIff | src/rba_idp/tenancy.py:83-86 | right after an invalidation every later get, its read failed or not, returns a policy in force since, exactly when each read already made and not yet stored is of the policy in force |
| PolicyCache.FailedReadsAreUnbounded | src/rba_idp/tenancy.py:76-78 | from an idle cache, a failed read returns a policy replaced arbitrarily long before |
| PolicyCache.InvalidationCanBeOvertaken | src/rba_idp/services/admin.py:1077-1088 | from an idle cache, a read made before a write is stored after its invalidation and a later get returns it |
| PolicyCache.TenantPolicyCache.Get | src/rba_idp/tenancy.py:68-81 | a get nobody disturbs is its four steps |
| PolicyCache.InvalidatedGetReads | src/rba_idp/tenancy.py:68-86 | with nobody between, a get after an invalidation answers what is enforced now, or nothing |
| Base64.OctetsOfSextets | src/rba_idp/simulation.py:30-35 | six-bit grouping loses nothing, and its length is never one more than a multiple of four |
| Base64.EncodersAgree | src/rba_idp/web/static/passkey.js:11-18 | the Python and the browser encoder write the same unpadded text |
| Base64.UrlTextIsSafe | src/rba_idp/simulation.py:30-31 | only URL-safe characters, of the length section 5 of RFC 4648 gives |
| Base64.PaddingIsTheSame | src/rba_idp/web/static/passkey.js:3-5 | the two padding formulas agree and complete a quad |
| Base64.PythonReadsBoth | src/rba_idp/simulation.py:30-35 | Python decodes what either side encoded, for every byte string |
| Base64.BrowserReadsBoth | src/rba_idp/web/static/passkey.js:3-18 | so does the page |
| Base64.OnlyPythonSkips | src/rba_idp/simulation.py:34-35 | the decoders differ on text outside the alphabet |
| Base64.BufToB64url | src/rba_idp/web/static/passkey.js:11-18 | the page's loop computes the encoder |
| Base64.B64urlToBuf | src/rba_idp/web/static/passkey.js:3-9 | the page's loop fills the array the decoder says |
| Tickets.IssuedVerifiesUntilExpiry | src/rba_idp/simulation.py:42-64 | an issued ticket verifies to exactly its signals before the truncated expiry and to nothing from then on |
| Tickets.AcceptedIsSigned | src/rba_idp/simulation.py:50-64 | whatever verifies is a payload with its own signature under the secret |
| Tickets.LifetimeIsRoundedDown | src/rba_idp/simulation.py:42-47 | truncation takes less than a second from the lifetime and never adds |
| Passkeys.ImportAdvances | src/rba_idp/passkeys.py:45-67 | an import removes and hands over nothing, lowers no counter, and adds only for users that exist |
| Passkeys.ImportIsIdempotent | src/rba_idp/passkeys.py:45-67 | a second import adds and updates nothing |
| Passkeys.ImportKeepsTheHighest | src/rba_idp/passkeys.py:53-66 | a passkey's counter ends as the highest of its own and the offered ones |
| Passkeys.ImportRestoresExport | src/rba_idp/passkeys.py:31-67 | export then import into a store with the same users and no passkeys restores every row |
| Passkeys.ImportPasskeys | src/rba_idp/passkeys.py:45-67 | the loop is the merge and its counts, or nothing at all |
| ClientIp.SearchIsExact | src/rba_idp/web/context.py:55-65 | the search finds exactly the last untrusted valid hop |
| ClientIp.HeadersOfUntrustedPeersDoNotMatter | src/rba_idp/web/context.py:43-51 | an untrusted peer's headers change nothing |
| ClientIp.PrependingChangesNothing | src/rba_idp/web/context.py:55-65 | text prepended before a comma changes nothing when the rest holds an untrusted valid hop |
| ClientIp.TrustedAnswerMeansAllTrusted | src/rba_idp/web/context.py:55-65 | the answer is a trusted address exactly when every valid hop is |
| ClientIp.PortIsAfterTheLastColon | src/rba_idp/web/context.py:25-31 | the viewer address keeps the colons of an IPv6 address |
| ClientIp.FindClient | src/rba_idp/web/context.py:62-65 | the loop from the right computes the search |
| Database.Tables.Rollback | src/rba_idp/db/session.py:109-120 | leaving by an exception restores every table |
| LoginService.Passwords.Verify | src/rba_idp/passwords.py:24-29 | one comparison, with the dummy where there is no digest |
| LoginService.LoginService.CheckCredentials | src/rba_idp/services/login.py:244-274 | the check's result, and exactly one password comparison on every path |
| LoginService.LoginService.PersistSession | src/rba_idp/services/login.py:709-734 | stamps the user and adds the session |
| LoginService.LoginService.CreateSession | src/rba_idp/services/login.py:685-707 | both in one transaction |
| LoginService.LoginService.Enforce | src/rba_idp/services/login.py:593-668 | the store and answer of the enforcement |
| LoginService.LoginService.Authenticate | src/rba_idp/services/login.py:244-333 | a whole login, with exactly one password comparison |
| LoginService.LoginService.AppLogin | src/rba_idp/services/login.py:172-198 | the application names the tenant, or is refused |
| LoginService.LoginService.ConsoleLogin | src/rba_idp/services/login.py:200-233 | exactly one comparison on every path, one answer for every early failure, which changes nothing |
| LoginService.LoginService.FinishChallenge | src/rba_idp/services/login.py:809-847 | denied without a role, and then left open; otherwise consumed and signed in |
| LoginService.LoginService.VerifyMfa | src/rba_idp/services/login.py:447-462 | the test-only factor |
| LoginService.LoginService.StepUpOptions | src/rba_idp/services/login.py:464-490 | keeps the nonce, refuses a user without a passkey |
| LoginService.LoginService.VerifyPasskey | src/rba_idp/services/login.py:492-527 | the counter is written before the role is looked at |
| LoginService.LoginService.ExchangeCode | src/rba_idp/services/login.py:529-567 | consumes, rotates and answers |
| LoginService.LoginService.SignOut | src/rba_idp/services/login.py:584-591 | deletes that session |
| LoginService.LoginService.Load | src/rba_idp/services/login.py:849-869 | resolves a token to its session, user and live permissions |
| LoginService.AloneIsARun | src/rba_idp/services/login.py:244-333 | a login nobody disturbs is the run of its steps in the state machine |
| LoginService.FourStepsAreSteps | src/rba_idp/services/login.py:244-333 | those steps are the machine's own |
| EnrollmentService.EnrollmentService.SessionOptions | src/rba_idp/services/enrollment.py:118-133 | closing the window of a user with a passkey is undone by the refusal |
| EnrollmentService.EnrollmentService.SessionVerify | src/rba_idp/services/enrollment.py:135-143 | stores the passkey and spends the mark |
| EnrollmentService.EnrollmentService.StoreCredential | src/rba_idp/services/enrollment.py:191-208 | refuses what cannot be verified and ids already registered |
| EnrollmentService.EnrollmentService.ActivationOptions | src/rba_idp/services/enrollment.py:154-168 | one refusal for a bad code and a bad password |
| EnrollmentService.EnrollmentService.ActivationVerify | src/rba_idp/services/enrollment.py:170-177 | stores the passkey and consumes the code |
| AdminService.AdminService.SyncAdminFlag | src/rba_idp/services/admin.py:350-365 | the membership the flag asks for |
| AdminService.AdminService.CreateUser | src/rba_idp/services/admin.py:550-577 | the transaction's store and answer |
| AdminService.AdminService.PatchUser | src/rba_idp/services/admin.py:579-595 | fields one by one, undone when the tenant is missing |
| AdminService.AdminService.IssueActivationCode | src/rba_idp/services/enrollment.py:70-96 | earlier unused codes of the user are consumed, then the new one added |
| AdminService.AdminService.CreateApplication | src/rba_idp/services/admin.py:618-638 | the transaction's store and answer |
| AdminService.AdminService.PatchApplication | src/rba_idp/services/admin.py:640-660 | never disables the console |
| AdminService.AdminService.CreateGroup | src/rba_idp/services/admin.py:686-711 | the transaction's store and answer |
| AdminService.AdminService.PatchGroup | src/rba_idp/services/admin.py:713-736 | the transaction's store and answer |
| AdminService.AdminService.DeleteGroup | src/rba_idp/services/admin.py:738-747 | everything that names the group goes first; the admin group stays |
| AdminService.AdminService.AddMember | src/rba_idp/services/admin.py:749-759 | only a user of the tenant, once |
| AdminService.AdminService.RemoveMember | src/rba_idp/services/admin.py:761-769 | the transaction's store and answer |
| AdminService.AdminService.AddGroupRole | src/rba_idp/services/admin.py:771-783 | only a role of the tenant, once |
| AdminService.AdminService.RemoveGroupRole | src/rba_idp/services/admin.py:785-793 | the transaction's store and answer |
| AdminService.AdminService.CreateRole | src/rba_idp/services/admin.py:831-862 | only on an application of the tenant |
| AdminService.AdminService.PatchRole | src/rba_idp/services/admin.py:864-885 | the transaction's store and answer |
| AdminService.AdminService.DeleteRole | src/rba_idp/services/admin.py:887-894 | everything that names the role goes first |
| AdminService.AdminService.AddPermissions | src/rba_idp/services/admin.py:947-950 | the loop adds exactly the wanted links |
| AdminService.AdminService.SetRolePermissions | src/rba_idp/services/admin.py:896-952 | foreign and unknown permissions are refused before anything is deleted |
| AdminService.AdminService.CreatePermission | src/rba_idp/services/admin.py:970-996 | the transaction's store and answer |
| TenantService.TenantService.MayCreate | src/rba_idp/services/admin.py:488-495 | the check before the starter policy is written |
| TenantService.TenantService.SetDomains | src/rba_idp/services/admin.py:368-377 | refused for a domain owned elsewhere; otherwise exactly the wanted domains |
| TenantService.TenantService.CreateTenant | src/rba_idp/services/admin.py:500-522 | row, domains and console, or nothing |
| TenantService.TenantService.PatchTenant | src/rba_idp/services/admin.py:524-541 | the transaction's store and answer |
| SeedService.SeedService.EnsureApplicationRow | src/rba_idp/seed.py:116-140 | a row that is there keeps all but a missing client id and a named redirect |
| SeedService.SeedService.EnsurePermissions | src/rba_idp/seed.py:143-159 | the loop is the run of its commands |
| SeedService.SeedService.EnsureRoleRow | src/rba_idp/seed.py:162-185 | the loop is the run of its commands |
| SeedService.SeedService.EnsureGroupRow | src/rba_idp/seed.py:188-203 | the loop is the run of its commands |
| SeedService.SeedService.EnsureUserRow | src/rba_idp/seed.py:206-236 | someone else's row under the address is left alone |
| SeedService.SeedService.Bootstrap | src/rba_idp/seed.py:242-271 | a bootstrap is the run of its commands |
| SeedService.SeedService.SeedTenant | src/rba_idp/seed.py:411-451 | one tenant's seed is the run of its commands |
| SeedService.SeedService.FillMissingClientIds | src/rba_idp/seed.py:452-455 | every application ends with a client id |
| SeedService.SeedService.SeedAll | src/rba_idp/seed.py:410-456 | the nested loops are the flat program, in one transaction |

## Left out

- HTTP routes, clients, templates, metrics, logging and the alert fetch: plumbing.
- `created_at`, the order of lists (they are sets or maps by id) and text of error details that quotes ids.
- `append_query`: a redirect is the target and the code; the query string is the library's.
- The report of a wrong password and the confirmation of a step-up to the risk engine: both only send.
- Device ids, geography and the request the engine scores: its decision is an argument.
- The policy service's own validation, `starter_policy` and `put_policy` beyond the write followed by an invalidation.
- `list_tenants`, decisions, alerts and policy reads: they read other services or every tenant by design.
- Which strings the request models accept (lengths, patterns) and the mapping of actions to outcomes live in `rba_contracts`, which is not part of this model; the mapping follows the documentation and the tests.
- Database isolation: transactions are serial, as the in-memory lock makes them, and pending rows are seen by later queries of their transaction.
- Foreign keys are enforced, as PostgreSQL enforces them, where a missing row is reachable.
- Letters outside ASCII in emails and activation codes: lower and upper case, and stripping, are ASCII.
- The authorization header's syntax: a token is given or missing. An instant read twice in one transaction is one instant.
- Concurrent seeds: a seed is one step of the state machine, between the others.
- Floating-point rounding of cache times and ticket times: they are reals.
- The passkey page beyond its two codecs, and the rest of the user interface.
