# Verified model of the master-data service

This project models four parts of the service in Dafny 4.11 and proves what they promise
over every input, every step and every run. `dafny verify dfyconfig.toml` checks it all.

## What is modelled

**Master data** (`Dimensions`, `MasterCodes`, `Triggers`, `MasterData`, `Coherence`, `Recomposition`,
`StoreRuns`, `StoreEffects`, `AuditTrail`, `StrongValidator`, `VersionHistory`, `ConditionalWrites`, `GuardedWrites`,
`MasterDataStore`). Eight typed Dimension tables feed MasterCode rows; the `code` column of a row caches the hyphen-joined codes of its Dimensions.
The store is *coherent* when every row, deleted or not, shows the composition of the current codes, active
rows refer only to active Dimensions, and codes, values and reference tuples are unique. The key is that
composition is injective on a coherent store, so rewriting the referencing rows one by one after a code
change can never collide. Triggers are modelled by their latest definition: the Dimension guard and log
writer, the MasterCode guard, the MasterCode update log, and the insert logs.

**Credentials** (`Credentials`, `CredentialProtocol`, `CredentialInvariants`, `CredentialHistory`,
`CredentialChecks`, `CredentialIsolation`, `CredentialProgress`, `CredentialProvenance`, `CredentialEffects`,
`CredentialStore`). Refresh families with rotating tokens, password change and reset,
user status, registration. A request reads a snapshot, works without locks and commits one transaction that
rechecks; the steps of all requests interleave freely.

**Browser tabs** (`Tabs`, `TabAgreement`, `TabWindow`, `TabCancellation`, `TabOutcomes`, `SessionController`).
Any number of tabs share cookies, one stored marker and one exclusive lock. Everything a tab does between two awaits is one
step. That a credential at the stored marker belongs to the cookies' sign-in is *not* true in every state: it
fails between a reply that moved the cookies and the publication that follows (`TabWindow` gives a run).
`TabAgreement` proves that it fails in no other state, and that no request is ever on its way in that window.

**Codecs and review** (`OpaqueTokens`, `StringValues`, `Proposals`, `ChangeRequests`, `ReviewRuns`,
`RequestStore`). Canonical base64url tokens (sections 3.5 and 5 of RFC 4648), string values, and the review
of change requests with its table constraints. The domain compares payloads as encoded text and the database
as JSON values; the two differ on 1 and 1.0, and agree on every validated payload.

The pure files of the source are functions here. The files that change state step by step are classes whose
methods are proved to end in the state of a function, about which the lemmas speak.

## Assumptions about the environment

- A transaction is atomic, an exception undoes it, and transactions that touch the same user, email,
  Dimension or request run one after another.
- Database time does not go back. Master-data clock readings may.
- SHA-256 and the JSON text it is taken of are injective, so equal ETags mean equal version vectors, and
  digests stand for tokens.
- The hasher never returns a string it returned before. Generated identifiers and digests may collide; the
  uniqueness constraints then refuse or retry, as in the source.
- Revoking affects only ACTIVE rows (`alembic/versions/20260919_0018_password_reset_challenges.py:27-31`).
- In the browser, marker identifiers are new, a storage write succeeds after its probe under the same lock,
  and only `publish` changes the marker. Replies are well formed and arrive whole: a reply whose `Set-Cookie`
  headers arrive while its body is cut off or malformed would move the cookies without a publication, and
  the agreement would then fail until the next one. A tab that never takes another step
  stands for a closed one, except that a tab is not closed while it holds the lock.

## Model

| member | source | states |
|---|---|---|
| `Dimensions.ParseCode` | src/mdm/domain/dimensions.py:30-48 | a code is accepted exactly when its upper-case form is 1 to 32 letters and digits and not all N |
| `MasterCodes.JoinIsInjective` | src/mdm/domain/master_codes.py:164-172 | equally long lists of hyphen-free parts that join to the same text are the same list |
| `Coherence.CompositionIsInjective` | src/mdm/domain/master_codes.py:164-172 | in a coherent store two reference tuples compose to the same code only if they are the same tuple |
| `Coherence.CodesNeverCollide` | alembic/versions/20260910_0008_master_codes.py:99-104 | two stored MasterCodes, deleted or not, never show the same code |
| `Dimensions.SameValueByUnits` | src/mdm/domain/dimensions.py:148-153 | 1000 MB are a GB, 1000 GB a TB, 1000 TB a PB: memory values are the same exactly when these say so, other values only when equal |
| `MasterCodes.ComposedSegments` | src/mdm/domain/master_codes.py:96-98 | read back between hyphens, a code has eight segments in the order of the slots: the Dimension code of the slot, or NNN |
| `Recomposition.NewCodeIsNew` | src/mdm/domain/master_codes.py:205-215 | after a Dimension takes an unused code, each referencing row composes to a code that no row of the old store has, its own included |
| `Recomposition.RecomposedDiffer` | src/mdm/domain/master_codes.py:196-218 | two different referencing rows recompose to different codes |
| `Recomposition.NoCollisionMidway` | alembic/versions/20260910_0008_master_codes.py:99-104 | at every point of the row-by-row loop, in any order of rows, the next row collides with no row, recomposed or not |
| `Recomposition.GuardAdmits` | alembic/versions/20260915_0012_master_code_lifecycle.py:45-94 | the recomposed row passes the MasterCode update guard, the row CHECKs including the code pattern, and the CHECKs of its log entry |
| `Recomposition.DomainRecomposes` | src/mdm/infrastructure/repositories/master_codes.py:628-645 | loading a locked row and recomposing it writes exactly the recomposed row |
| `Recomposition.EveryRow` | src/mdm/infrastructure/repositories/master_codes.py:628-645 | the loop never fails and leaves exactly the listed rows recomposed |
| `Recomposition.RecodedStoreIsCoherent` | src/mdm/infrastructure/repositories/master_codes.py:596-645 | once all referencing rows are recomposed the store is coherent again |
| `Recomposition.ApplyChangeKeeps` | src/mdm/infrastructure/repositories/memory_dimensions.py:106-209 | an admissible Dimension update always goes through and keeps the store coherent |
| `Recomposition.UpdateDimensionKeeps` | src/mdm/infrastructure/repositories/memory_dimensions.py:106-209 | any Dimension update keeps the store coherent and is never refused by a guard, a CHECK of the Dimension, MasterCode or log tables, a failed validation or a MasterCode conflict |
| `MasterCodes.ComposedHasShape` | alembic/versions/20260910_0008_master_codes.py:72-90 | the composition of Dimensions with valid codes always matches the stored code pattern and fits its 263 characters |
| `Coherence.StoredRowChecks` | alembic/versions/20260910_0008_master_codes.py:87-97 | every row of a coherent store satisfies the CHECKs of its table |
| `Triggers.UpdateEntriesChecked` | alembic/versions/20260910_0006_memory_dimension.py:157-184 | between two rows that satisfy their table, every update is logged with entries that satisfy the log table: changed fields differ, codes and values have their shape, deletion marks flip |
| `Triggers.UpdateEntryChecked` | alembic/versions/20260910_0008_master_codes.py:134-151 | an update the MasterCode guard admits is logged with an entry that satisfies the log table |
| `StoreEffects.UpdateTakesEffect` | src/mdm/domain/dimensions.py:277-303 | an admissible update sets code and value, keeps the stored form of an equivalent memory value, gives every referencing row a new code and the next version, touches nothing else, and happens at the later of the clock and the last update of any touched row |
| `StoreEffects.CodeChangeIsUndone` | src/mdm/domain/master_codes.py:196-228 | changing a code and changing it back restores the code of every row; versions of referencing rows moved by two |
| `StoreEffects.ReferencesTakeEffect` | src/mdm/infrastructure/repositories/master_codes.py:354-446 | moving an active row to other active Dimensions succeeds if and only if no other row, deleted or not, holds those references; the row then shows the composed, new code |
| `StoreEffects.CollidesOnlyByReferences` | alembic/versions/20260910_0008_master_codes.py:99-104 | a row collides on the two UNIQUE constraints exactly when another row has its references |
| `StoreEffects.DeletionTakesEffect` | src/mdm/domain/master_codes.py:263-268 | deleting an active row succeeds and changes only its deletion mark, version and time |
| `StoreEffects.RestorationTakesEffect` | src/mdm/infrastructure/repositories/master_codes.py:244-321 | a deleted row is restored if and only if all its Dimensions are active; a refusal changes nothing |
| `StoreEffects.DeletionIsUndone` | src/mdm/domain/master_codes.py:263-281 | restoring a deleted row brings back the row as it was, two versions later |
| `StoreEffects.DimensionDeletionTakesEffect` | alembic/versions/20260915_0011_dimension_lifecycle.py:67-91 | an active Dimension is deleted if and only if no active MasterCode refers to it; then only its deletion mark, version and time change |
| `StoreEffects.DimensionRestorationTakesEffect` | src/mdm/domain/dimensions.py:252-271 | a deleted Dimension is always restored, and only its deletion mark, version and time change |
| `StoreEffects.DimensionCreationTakesEffect` | src/mdm/infrastructure/repositories/memory_dimensions.py:42-88 | a new Dimension is stored with its code in upper case and its value normalized, at version 1, unless code or value is in use in its table; the conflict names which |
| `StoreEffects.CodeCreationTakesEffect` | src/mdm/infrastructure/repositories/master_codes.py:146-199 | a new MasterCode is stored with exactly the given references at version 1, unless one is missing or deleted, or another row, deleted or not, has them all |
| `StoreEffects.UpdateGoesThrough` | src/mdm/infrastructure/repositories/memory_dimensions.py:106-209 | a well-formed update at the current version: nothing to change is answered as is, a code or value in use elsewhere is a conflict naming which, anything else is stored and shown to the caller |
| `StoreEffects.ParsedValueMeans` | src/mdm/domain/dimensions.py:190-208 | an entered value is accepted exactly when its normalized form may be stored, and stored as that |
| `StoreRuns.NewReferencesNewCode` | alembic/versions/20260915_0012_master_code_lifecycle.py:70-94 | another reference tuple always means another code, as the reference update guard demands |
| `StoreRuns.ExecKeeps` | src/mdm/domain/master_codes.py:116-143 | every command keeps the store coherent and is never refused by a trigger, a modelled CHECK of the row or log tables, or a failed domain validation |
| `StoreRuns.RunsAreCoherent` | src/mdm/domain/master_codes.py:116-143 | every store reached by any run of commands is coherent |
| `StoreRuns.ReachedRow` | src/mdm/domain/master_codes.py:116-143 | in every reached store each row shows the composition of current codes, and an active row refers only to active Dimensions |
| `StoreRuns.ReachedSegments` | src/mdm/domain/master_codes.py:164-172 | in every reached store each of the eight segments of a MasterCode code is the code its Dimension has now, or NNN for an empty slot, in the order company to country, and nothing follows |
| `ConditionalWrites.OnlyTheStateSeenIsChanged` | src/mdm/infrastructure/repositories/master_codes.py:400-410 | a conditional command changes the store or succeeds only on the version or validator it names; on a row in the right state it reports a failed precondition exactly when another one is stored, and changes nothing then |
| `ConditionalWrites.NoLostUpdateOfCodes` | src/mdm/infrastructure/repositories/master_codes.py:400-410 | when a MasterCode command takes effect with a validator read earlier in the run, the row and every Dimension it refers to were what was read at every point between |
| `ConditionalWrites.NoLostUpdateOfDimensions` | src/mdm/infrastructure/repositories/memory_dimensions.py:120-128 | when a Dimension command takes effect with a version read earlier, the Dimension was what was read at every point between |
| `ConditionalWrites.MissingDimensionsAreReported` | src/mdm/infrastructure/repositories/dimension_lifecycle.py:107-170 | a missing Dimension, or one in the other deletion state, is reported as such, exactly then, and nothing changes |
| `ConditionalWrites.MissingCodesAreReported` | src/mdm/infrastructure/repositories/master_codes.py:244-321 | the same for MasterCodes |
| `ConditionalWrites.UnusableReferencesAreRefused` | src/mdm/infrastructure/repositories/master_codes.py:448-486 | a patch is refused for its references exactly when it uses a missing or deleted Dimension |
| `ConditionalWrites.EmptyPatchIsAnswered` | src/mdm/infrastructure/repositories/master_codes.py:354-446 | a patch that changes no reference is answered with the MasterCode as it is |
| `ConditionalWrites.MalformedUpdateIsRefused` | src/mdm/infrastructure/repositories/memory_dimensions.py:106-115 | an update without version or content, or with malformed content, is refused, and only such a one |
| `GuardedWrites.GuardedRow` | alembic/versions/20260915_0012_master_code_lifecycle.py:45-94 | whatever a client writes, the guard lets each operation change what is its own: identity and creation time stay, the version goes up by one, the time is the mutation time |
| `GuardedWrites.GuardedDimension` | alembic/versions/20260915_0011_dimension_lifecycle.py:57-153 | the same for Dimension rows, with the conditions of update, deletion and restoration |
| `GuardedWrites.HistoryIsExact` | alembic/versions/20260911_0010_master_code_reference_updates.py:94-131 | after any sequence of arbitrary writes by any client both logs are exact, chained and complete |
| `GuardedWrites.RowsOnlyAge` | alembic/versions/20260915_0012_master_code_lifecycle.py:83-94 | over such sequences rows keep identity and creation time, never go back in time, and a changed row has a later version |
| `MasterDataStore.DimensionBeforeUpdate` | alembic/versions/20260915_0011_dimension_lifecycle.py:57-153 | the step-by-step Dimension guard admits exactly the updates of the guard predicate |
| `MasterDataStore.RowBeforeUpdate` | alembic/versions/20260915_0012_master_code_lifecycle.py:45-94 | the step-by-step MasterCode guard admits exactly the updates of the guard predicate |
| `MasterDataStore.Store.UpdateDimensionRow` | alembic/versions/20260915_0011_dimension_lifecycle.py:154-215 | guard, uniqueness, write and log entries of one Dimension update equal the specified write; a refusal changes nothing |
| `MasterDataStore.Store.UpdateRow` | alembic/versions/20260911_0010_master_code_reference_updates.py:94-131 | guard, uniqueness, write and log entry of one MasterCode update equal the specified write; a refusal changes nothing |
| `MasterDataStore.Store.InsertDimensionRow` | alembic/versions/20260910_0006_memory_dimension.py:271-300 | inserting a Dimension and its creation entries equals the specified insert |
| `MasterDataStore.Store.InsertCodeRow` | alembic/versions/20260910_0008_master_codes.py:255-284 | inserting a MasterCode and its creation entry equals the specified insert |
| `MasterDataStore.Store.RecomposeLocked` | src/mdm/infrastructure/repositories/master_codes.py:628-645 | the in-place loop over locked rows ends in the state of the recomposition function, or reports its failure |
| `MasterDataStore.Store.ChangeDimension` | src/mdm/infrastructure/repositories/memory_dimensions.py:106-209 | the whole conditional update in place equals the specified command; a failure restores every row and log |
| `MasterDataStore.RefusalPersists` | src/mdm/infrastructure/repositories/master_codes.py:628-645 | once a row is refused, the loop over any longer list of rows is refused too |
| `AuditTrail.InsertRowLogged` | alembic/versions/20260910_0008_master_codes.py:255-284 | inserting a MasterCode keeps its log one chained entry per version |
| `AuditTrail.WriteRowLogged` | alembic/versions/20260911_0010_master_code_reference_updates.py:94-131 | updating a MasterCode keeps its log one chained entry per version, no version twice |
| `AuditTrail.InsertDimensionLogged` | alembic/versions/20260910_0006_memory_dimension.py:271-300 | inserting a Dimension logs entries from which it is rebuilt, and keeps the log chained |
| `AuditTrail.WriteDimensionLogged` | alembic/versions/20260915_0011_dimension_lifecycle.py:154-215 | updating a Dimension logs entries from which code, value and deletion mark are rebuilt at the new version, leaves the replay of every older version of every Dimension as it was, and keeps the log chained |
| `StrongValidator.ExecAdvances` | alembic/versions/20260911_0010_master_code_reference_updates.py:94-131 | every command only appends to the logs, raises the version of whatever it changes, and keeps both logs exact |
| `StrongValidator.RunsAreLogged` | alembic/versions/20260910_0008_master_codes.py:173-177 | in every reached store no MasterCode version is logged twice, no field of a Dimension twice in one version, and each entry starts where the version before ended |
| `VersionHistory.EveryVersionWasHeld` | alembic/versions/20260915_0011_dimension_lifecycle.py:140-153 | every number from 1 to the current version is one the Dimension had at some point of the run |
| `VersionHistory.DimensionLogIsComplete` | alembic/versions/20260915_0011_dimension_lifecycle.py:154-215 | the final log gives back a Dimension at each of its versions 1..v, every version is logged, no field twice in one, each old value is the one of the version before, each entry names what happened, and carries the time of its version |
| `StrongValidator.CodeHistoryIsKept` | alembic/versions/20260911_0010_master_code_reference_updates.py:94-131 | the final log holds exactly one entry for each version 1..v of a MasterCode, each old state equal to the previous new state, each entry names what happened, and the entry of any past version shows the row as it then was, with its time |
| `StrongValidator.DimensionHistoryIsKept` | alembic/versions/20260915_0011_dimension_lifecycle.py:154-215 | replaying the final log up to a past version rebuilds the Dimension as it was, memory amount and unit included |
| `StrongValidator.EqualValidatorsMeanUnchanged` | src/mdm/domain/master_codes.py:174-194 | equal version vectors of one MasterCode at two points of a run mean that its row and every Dimension it refers to were the same at every point between: a strong validator in the sense of section 8.8.1 of RFC 9110 |
| `StrongValidator.ValidatorsAreDistinct` | src/mdm/domain/master_codes.py:174-194 | at one moment two MasterCodes never share a version vector |
| `CredentialInvariants.LoginKeeps` | src/mdm/application/sessions.py:157-183 | a login keeps the row shapes, chains and uniqueness of all credential tables |
| `CredentialInvariants.RefreshKeeps` | src/mdm/application/sessions.py:215-242 | a refresh, including the committed revocation on reuse, keeps them |
| `CredentialInvariants.RotationExtendsChain` | src/mdm/application/sessions.py:226-242 | a rotation uses the last token of the family's path, appends its replacement and leaves the rest of the path as it was |
| `CredentialInvariants.ChangePasswordKeeps` | src/mdm/application/password_lifecycle.py:208-236 | a password change keeps the invariant of all credential tables |
| `CredentialInvariants.CompleteResetKeeps` | src/mdm/application/password_lifecycle.py:150-181 | a completed reset keeps it |
| `CredentialInvariants.ChangeStatusKeeps` | src/mdm/application/user_management.py:88-126 | enabling or disabling a user keeps it |
| `CredentialInvariants.RequestResetKeeps` | src/mdm/application/password_lifecycle.py:297-324 | asking for a reset keeps it |
| `CredentialInvariants.RequestRegistrationKeeps` | src/mdm/application/registrations.py:211-233 | asking for a registration keeps it |
| `CredentialInvariants.CompleteRegistrationKeeps` | src/mdm/application/registrations.py:137-178 | completing a registration keeps it |
| `CredentialProtocol.ExecKeeps` | alembic/versions/20260915_0015_refresh_sessions.py:20-55 | every step of every interleaving keeps the invariant of the credential tables |
| `CredentialChecks.EveryConstraintHolds` | alembic/versions/20260915_0015_refresh_sessions.py:20-55 | in every state of every interleaving the state and time CHECKs, foreign keys and unique indexes of families, refresh tokens, challenges and mailed tokens hold, among them that no token is used before its issue |
| `CredentialProtocol.ActiveCredentials` | src/mdm/application/user_management.py:88-126 | in every reachable state a user has at most one ACTIVE family and one ACTIVE reset challenge, and a disabled user none |
| `CredentialProtocol.RotationPath` | alembic/versions/20260915_0015_refresh_sessions.py:46-55 | the tokens of every family form one acyclic replacement path, each use time equal to the replacement's issue time, with the one unused token at its end |
| `CredentialProtocol.EmailsAreServedOnce` | alembic/versions/20260918_0017_registration_challenges.py:39-40 | in every reachable state an email has at most one ACTIVE registration and at most one user |
| `CredentialHistory.ExecGrows` | src/mdm/application/sessions.py:215-242 | no step forgets a row, extends a lifetime, revives a row that left ACTIVE, or brings back a replaced hash |
| `CredentialHistory.TokenTakesEffectOnce` | src/mdm/application/sessions.py:215-270 | over any run one refresh token is consumed at most once, by a rotation, a password change or an effective logout |
| `CredentialHistory.InactiveFamilyGrantsNothing` | src/mdm/application/sessions.py:220-227 | a family that left ACTIVE never grants anything again, through any token it has or gets, also after its user is enabled again |
| `CredentialHistory.ReuseEndsTheFamily` | src/mdm/application/sessions.py:226-242 | whenever a used token is presented again: within ten seconds of its use nothing changes; later, against a live family, the family is REVOKED at every later point of the run and nothing is obtained through it again, with any token, however late it was issued |
| `CredentialHistory.HashIsReplacedOnce` | src/mdm/application/password_lifecycle.py:150-181 | from any stored hash at most one password change or reset commits over any run |
| `CredentialHistory.VerifiedHashStayedCurrent` | src/mdm/application/sessions.py:157-172 | a login, change or reset that commits read its hash earlier, and that hash was the user's at every point between |
| `CredentialHistory.RefreshWithinLifetime` | src/mdm/application/sessions.py:178-183 | whatever a family grants, through any token, it grants before its creation plus seven days |
| `CredentialHistory.ResetCompletesOnlyWhileActive` | src/mdm/application/password_lifecycle.py:166-176 | a reset completes only while its challenge was ACTIVE at every earlier point, and within 30 minutes of its creation |
| `CredentialHistory.ResetCompletesOnce` | src/mdm/application/password_lifecycle.py:161-181 | a reset challenge completes at most once, whichever of its tokens is used |
| `CredentialHistory.RegistrationCompletesOnlyWhileActive` | src/mdm/application/registrations.py:149-161 | a registration completes only while its challenge was ACTIVE at every earlier point, and within a day of its creation |
| `CredentialHistory.RegistrationCompletesOnce` | src/mdm/application/registrations.py:145-178 | a registration challenge completes at most once |
| `CredentialProvenance.ReadsAreNoted` | src/mdm/application/sessions.py:157-165 | a new request is noted exactly when it is rightly made: the password fits an ACTIVE user of that email, or the token is stored (and, for a change, live, the principal's own, and the password fits), and it takes along exactly what is stored |
| `CredentialProvenance.RefreshIsFound` | src/mdm/infrastructure/repositories/sessions.py:132-152 | a refresh token is found by its digest exactly when one is stored, with its family and user |
| `CredentialProvenance.ResetIsFound` | src/mdm/infrastructure/repositories/password_lifecycle.py:205-226 | the same for reset tokens |
| `CredentialProvenance.RegistrationIsFound` | src/mdm/infrastructure/repositories/registrations.py:165-189 | the same for registration tokens |
| `CredentialProvenance.GrantsAnswerRequests` | src/mdm/application/sessions.py:157-270 | whatever is granted at a point of a run was rightly asked for earlier, by the request that commits, and has been waiting since |
| `CredentialProvenance.LoginNeedsThePassword` | src/mdm/application/sessions.py:157-172 | nobody signs in but by an earlier request with the email of the user, then ACTIVE, to which the password verifier said yes |
| `CredentialProvenance.ChangeNeedsThePassword` | src/mdm/application/password_lifecycle.py:183-206 | nobody changes a password but by an earlier request of the same principal, with the token named and the current password |
| `CredentialEffects.LoginStores` | src/mdm/application/sessions.py:163-183 | a login revokes the ACTIVE families of the user, opens one for seven days with one unused token whose digest is one of the first four generated and was free, and touches nothing else |
| `CredentialEffects.RotationStores` | src/mdm/application/sessions.py:226-242 | a rotation uses the presented token and adds its replacement, and touches nothing else |
| `CredentialEffects.SignOutStores` | src/mdm/application/sessions.py:244-257 | an effective logout revokes the one family and touches nothing else |
| `CredentialEffects.ChangeStores` | src/mdm/application/password_lifecycle.py:208-236 | a password change stores the hash, replaces the families as a login does, revokes the ACTIVE reset challenges, and touches nothing else |
| `CredentialEffects.ResetStores` | src/mdm/application/password_lifecycle.py:150-181 | a completed reset stores the hash, revokes the families, completes the challenge, uses the token, and touches nothing else |
| `CredentialEffects.ResetIsIssued` | src/mdm/application/password_lifecycle.py:297-324 | asking for a reset as a current user issues one token that joins the unexpired ACTIVE challenge without extending it, or opens one for half an hour and closes an expired one |
| `CredentialEffects.UnknownResetIsIgnored` | src/mdm/application/password_lifecycle.py:297-305 | for anybody else, and only then, the request is accepted without effect |
| `CredentialEffects.StatusIsSet` | src/mdm/application/user_management.py:88-126 | setting a status sets it, and disabling revokes every ACTIVE family and reset challenge of the user; nothing else changes |
| `CredentialEffects.DisabledGetsNothing` | src/mdm/application/user_management.py:88-126 | from disabling a user to enabling them again, at every point of any run, they stay disabled, no outcome concerns them and every row of theirs stays as it is |
| `CredentialEffects.RegistrationIsIssued` | src/mdm/application/registrations.py:211-233 | asking to register a free email of an allowed domain issues one token that joins the unexpired ACTIVE challenge without extending it, or opens one for a day and closes an expired one |
| `CredentialEffects.RegistrationIsNotIssued` | src/mdm/application/registrations.py:211-220 | a domain that is not allowed is refused, an email that has a user is ignored, exactly then, and nothing changes |
| `CredentialEffects.RegistrationStores` | src/mdm/application/registrations.py:137-178 | a completed registration stores one ACTIVE user, one family with one token, completes the challenge, uses the token, and touches nothing else |
| `CredentialEffects.UnreadyIsRefused` | src/mdm/application/sessions.py:215-242 | a commit whose snapshot no longer holds is refused for the reason the source gives, for each kind of request |
| `CredentialIsolation.OthersAreUntouched` | src/mdm/infrastructure/repositories/sessions.py:35-118 | a step leaves every user it does not concern with exactly the rows it had: user, families, tokens, reset challenges and their tokens, none changed, none added |
| `CredentialIsolation.OtherEmailsAreUntouched` | src/mdm/infrastructure/repositories/registrations.py:55-160 | a step leaves every email it does not concern with exactly the registrations and tokens it had, and with or without a user as before |
| `CredentialProgress.UndisturbedRequestsAreGranted` | src/mdm/application/sessions.py:157-242 | a request, registrations included, that was grantable when it read its snapshot is granted when it commits, whatever was done for others in between, if nothing touched its own user or email, its time is not up and its inputs serve; what it then leaves active is stated per request |
| `CredentialStore.Store.LoginTx` | src/mdm/application/sessions.py:163-183 | the login transaction in place equals the specified one; a failure rolls back |
| `CredentialStore.Store.RefreshTx` | src/mdm/application/sessions.py:215-242 | the refresh transaction in place equals the specified one |
| `CredentialStore.Store.LogoutTx` | src/mdm/application/sessions.py:244-257 | the logout transaction in place equals the specified one |
| `CredentialStore.Store.AddToken` | src/mdm/application/sessions.py:185-195 | the bounded retry loop stores the first generated digest that is free, or fails after four |
| `CredentialStore.Store.RevokeFamilies` | src/mdm/application/sessions.py:173-177 | revoking one locked family after another revokes exactly the user's ACTIVE ones |
| `CredentialStore.Store.RevokeResets` | src/mdm/application/user_management.py:109-121 | revoking one locked challenge after another revokes exactly the user's ACTIVE ones |
| `CredentialStore.Store.ChangePasswordTx` | src/mdm/application/password_lifecycle.py:208-236 | the password change transaction in place equals the specified one; a failure rolls back |
| `CredentialStore.Store.CompleteResetTx` | src/mdm/application/password_lifecycle.py:150-181 | the reset completion in place equals the specified one |
| `CredentialStore.Store.ChangeStatusTx` | src/mdm/application/user_management.py:88-126 | the status change in place equals the specified one |
| `CredentialStore.Store.RequestResetTx` | src/mdm/application/password_lifecycle.py:297-336 | the reset request in place equals the specified one; a failure rolls back |
| `CredentialStore.Store.RequestRegistrationTx` | src/mdm/application/registrations.py:211-245 | the registration request in place equals the specified one; a failure rolls back |
| `CredentialStore.Store.CompleteRegistrationTx` | src/mdm/application/registrations.py:137-191 | the registration completion in place equals the specified one; a failure rolls back |
| `TabAgreement.ExecKeeps` | frontend/src/api/session-controller.ts:79-150 | every step of every interleaving of tabs keeps the protocol invariant |
| `TabAgreement.AgreementOutsideTheWindow` | frontend/src/api/session-controller.ts:79-150 | in every reachable state, each credential held at the stored marker belongs to the cookies' sign-in if and only if it is not the case that a cookie-moving reply awaits publication while some tab holds a credential at the stored marker |
| `TabWindow.AgreementFailsInTheWindow` | frontend/src/api/session-controller.ts:213-226 | a concrete run of one tab that breaks the agreement between a login reply and its publication |
| `TabAgreement.CallsMatchCookies` | frontend/src/api/session-controller.ts:144-150 | in every reachable state a call that carries a bearer travels with cookies of that bearer's own sign-in, nothing else is on its way, and the agreement holds |
| `TabAgreement.WindowClosesByPublishing` | frontend/src/api/session-controller.ts:124-130 | inside the window only the lock holder's publication changes marker or cookies, and it restores the agreement |
| `TabAgreement.KindTellsOverRuns` | frontend/src/api/session-state.ts:36-42 | outside the window the stored kind says whether there are session cookies |
| `TabCancellation.SentOnlyIfNobodyPublished` | frontend/src/api/session-controller.ts:190-202 | a queued operation is sent if and only if it enters the free lock and no marker was published, by any tab or its own, at any point since its submission |
| `TabCancellation.SubmissionCarriesTheMarker` | frontend/src/api/session-controller.ts:190-195 | an operation is queued exactly when its tab saw no change, and carries the stored marker |
| `TabOutcomes.CallsFitActions` | frontend/src/api/session-controller.ts:152-266 | in every reachable state an operation has sent, or holds an answer to, only requests its action is for |
| `TabOutcomes.OperationsOnlyAdvance` | frontend/src/api/session-controller.ts:132-142 | an operation only moves on to later stages, so it ends and sends no login, registration, logout, reset or password change twice; a refresh is tried again once |
| `TabOutcomes.EntrySendsTheFirstCall` | frontend/src/api/session-controller.ts:190-202 | an operation that enters at its own marker sends its first request, a refresh first where the credential is missing or expired; at another marker it ends |
| `TabOutcomes.EndedSessionsSignOut` | frontend/src/api/session-controller.ts:124-130 | after a successful logout or reset, or a session the server no longer knows, cookies and credential are gone, the marker says signed out and the lock is free |
| `TabOutcomes.LogOutSignsOut` | frontend/src/api/session-controller.ts:240-245 | the request of a logout is a logout, and its success leaves nobody signed in |
| `TabOutcomes.GrantsSignIn` | frontend/src/api/session-controller.ts:213-238 | after a granted login or registration cookies, marker and tab agree on the new sign-in |
| `TabOutcomes.ChangesRenew` | frontend/src/api/session-controller.ts:256-266 | after a changed password the old credential is gone, the new sign-in published and a refresh under way |
| `TabOutcomes.RefreshesRemember` | frontend/src/api/session-controller.ts:132-142 | a refresh gives the tab the credential of the cookies' sign-in and publishes nothing |
| `TabOutcomes.ProfileOrFailureEnds` | frontend/src/api/session-controller.ts:144-150 | a loaded profile ends the operation and the need to restore; a failure ends it and changes nothing else |
| `TabOutcomes.ConflictsAreRetriedOnce` | frontend/src/api/session-controller.ts:132-142 | a refresh in conflict is sent once more and ends the operation the second time |
| `TabOutcomes.ChangesAreNoticed` | frontend/src/api/session-controller.ts:79-92 | submitting notices a change by another tab: the credential is gone and a sign-in is to be restored; synchronizing queues exactly when there is one to restore |
| `TabOutcomes.OthersStay` | frontend/src/api/session-controller.ts:39-61 | a step touches no field of another tab and no other operation |
| `SessionController.Controller.Observe` | frontend/src/api/session-controller.ts:79-92 | observing in place equals the specified observation |
| `SessionController.Controller.Publish` | frontend/src/api/session-controller.ts:94-100 | publishing in place stores the marker and equals the specified tab state |
| `SessionController.Controller.Submit` | frontend/src/api/session-controller.ts:152-202 | what an operation does before it waits for the lock equals the specified submission |
| `SessionController.Controller.Enter` | frontend/src/api/session-controller.ts:154-202 | from lock entry to the first request the fields change as specified |
| `SessionController.Controller.Resume` | frontend/src/api/session-controller.ts:132-266 | from an answer to the next await the fields and the marker change as specified; a publication comes first |
| `SessionController.Controller.Proceed` | frontend/src/api/session-controller.ts:144-150 | after a refresh the next request is the specified one |
| `OpaqueTokens.AlphabetInOrder` | src/mdm/domain/credentials.py:24-33 | the 64 symbols are those of the URL-safe alphabet in their order |
| `OpaqueTokens.EncodingKeepsBits` | src/mdm/domain/credentials.py:24-33 | every three bytes and their four symbols are the same 24-bit number, most significant first |
| `OpaqueTokens.EncodingPadsBits` | src/mdm/domain/credentials.py:24-33 | the last two bytes take three symbols and are padded with two zero bits |
| `OpaqueTokens.TokensAreEncodings` | src/mdm/domain/credentials.py:24-33 | the check accepts exactly the unpadded base64url encodings of 32-byte strings |
| `OpaqueTokens.GenerateThenDecode` | src/mdm/domain/credentials.py:69-79 | a generated token is accepted and decodes to the 32 random bytes |
| `OpaqueTokens.DecodeThenGenerate` | src/mdm/domain/credentials.py:24-33 | an accepted token is what generation makes of its own bytes |
| `OpaqueTokens.ServerAndBrowserAgree` | frontend/src/fragment.ts:20-23 | the browser's pattern with its 16 final characters accepts exactly the strings the server accepts |
| `OpaqueTokens.EncodeThenDecode` | src/mdm/domain/credentials.py:24-33 | decoding undoes encoding for byte strings of any length |
| `OpaqueTokens.DecodeThenEncode` | src/mdm/domain/credentials.py:24-33 | encoding undoes decoding exactly for sextets whose padding bits are zero |
| `StringValues.PassesAreReference` | src/mdm/domain/dimensions.py:200-202 | the passes of the normalizer compute the upper-case words joined by single underscores, for every string; upper case is that of ASCII, since other text is refused before the passes |
| `StringValues.NormalizeMeaning` | src/mdm/domain/dimensions.py:190-208 | the normalizer accepts exactly letters, digits, spaces and underscores whose reference form has 1 to 128 characters, and returns that form |
| `StringValues.NormalIsFixed` | src/mdm/domain/dimensions.py:190-208 | a normal value is returned as it is |
| `StringValues.NormalizeIsIdempotent` | src/mdm/domain/dimensions.py:190-208 | normalizing twice is normalizing once |
| `Proposals.ComparisonsAgree` | alembic/versions/20260915_0013_master_code_change_requests.py:82-95 | on payloads without fractional numbers, comparing encoded texts and comparing stored JSON agree |
| `Proposals.ValidatedIsFloatFree` | src/mdm/application/change_requests.py:213-268 | a validated payload holds no fractional number |
| `Proposals.SelectionsAreValid` | src/mdm/application/change_requests.py:237-268 | an accepted inline Dimension has a valid code and a value its slot may store |
| `Proposals.ValidateProposal` | src/mdm/application/change_requests.py:213-268 | the loops over written selections and slots compute the specified result, error or normalized selections |
| `Proposals.ValidationMeans` | src/mdm/application/change_requests.py:213-268 | a proposal validates exactly when its ETag is strong and it selects, in an object of dimensions only, all eight slots for a creation or restoration and at least one for an update; each selection is the one written there |
| `Proposals.ShapeSelects` | src/mdm/application/change_requests.py:237-262 | each written selection is accepted exactly when it is not applicable, a reference to a UUID, or, except when restoring, a new Dimension with valid code and value, and is read as that |
| `Proposals.ValuesAreAsked` | src/mdm/domain/dimensions.py:190-208 | an inline value is accepted exactly when it asks for a value its slot may store, by the type of the slot |
| `Proposals.UnitsAreNamed` | src/mdm/domain/dimensions.py:173-183 | a memory unit is read from its name in any case with outer spaces |
| `Proposals.StrongEtagsAreSpelled` | src/mdm/application/change_requests.py:215-218 | a strong ETag is exactly a quoted mc, a version without leading zero and 64 hex digits |
| `Proposals.ValidationErrors` | src/mdm/application/change_requests.py:215-228 | a weak ETag is reported first, then a payload that is not one object of dimensions |
| `ChangeRequests.ReasonsMean` | src/mdm/domain/audit.py:93-106 | a reason is kept without outer spaces, dropped when blank, and refused exactly when too long or with control characters |
| `ChangeRequests.StripMeans` | src/mdm/domain/audit.py:99-99 | stripping takes outer spaces and nothing else |
| `ChangeRequests.InvariantIsConstraint` | src/mdm/domain/change_requests.py:117-164 | a request of proper proposals can be constructed exactly when its row satisfies the original and review constraints of the table |
| `ChangeRequests.RequestsAreReadBack` | src/mdm/infrastructure/repositories/change_requests.py:374-389 | a constructed request is read back from its columns unchanged |
| `ChangeRequests.NotesAreFixed` | src/mdm/domain/audit.py:93-106 | a kept message is 1 to 500 characters without outer spaces or control characters, and such a text is kept as it is |
| `ChangeRequests.VersionsAgree` | alembic/versions/20260915_0013_master_code_change_requests.py:70-72 | the domain's version 7 test and the constraint's test of the text form agree on every UUID |
| `ChangeRequests.ApprovalIsStoredExactlyWhen` | src/mdm/domain/change_requests.py:170-205 | an approval the domain allows satisfies every constraint if and only if its ETag is strong and it does not differ from the original in number notation alone; it passes the trigger, and is MODIFIED_AND_APPROVED exactly when it differs |
| `ChangeRequests.UnvalidatedNumbersAreConflated` | src/mdm/domain/change_requests.py:35-58 | two proposals, 1 and 1.0, that the domain distinguishes and the stored comparison does not |
| `ChangeRequests.ApprovalIsStored` | alembic/versions/20260915_0013_master_code_change_requests.py:58-96 | an approval of a validated request by a validated proposal satisfies constraints and trigger and is read back unchanged |
| `ChangeRequests.RejectionIsStored` | alembic/versions/20260915_0013_master_code_change_requests.py:58-96 | a rejection satisfies constraints and trigger and is read back unchanged |
| `ChangeRequests.SubmissionIsStored` | src/mdm/application/change_requests.py:124-140 | a validated submission satisfies constraints and trigger |
| `ReviewRuns.ApprovalGoesThroughExactlyWhen` | src/mdm/infrastructure/repositories/change_requests.py:128-150 | on a reachable table a pending request is approved if and only if operation and target are allowed, a changed proposal has a message, it validates, the data change was made, and the change set is version 7 and unused; exactly that row then holds the reviewer, the applied proposal, the message, the change set, the right status and the latest of clock, submission and data change as review time |
| `ReviewRuns.RejectionGoesThrough` | src/mdm/infrastructure/repositories/change_requests.py:167-180 | a pending request can always be rejected with a proper message; only that row changes, to the reviewer, the message and the later of clock and submission as review time, and nothing is applied |
| `ReviewRuns.SubmissionGoesThroughExactlyWhen` | src/mdm/application/change_requests.py:124-140 | a submission is stored, exactly as given and pending, if and only if it is well formed, no restoration, valid, and its reason proper |
| `ReviewRuns.LateReviewsAreRefused` | src/mdm/infrastructure/repositories/change_requests.py:343-352 | a missing request is reported as missing and a reviewed one as reviewed, whatever is attempted |
| `ReviewRuns.CommandKeeps` | alembic/versions/20260915_0013_master_code_change_requests.py:104-128 | every command keeps all stored rows sound and settled |
| `ReviewRuns.AtMostOneOutcome` | alembic/versions/20260915_0013_master_code_change_requests.py:115-126 | between any two moments of any run a reviewed request stays as it is, and what was submitted never changes |
| `RequestStore.BeforeUpdate` | alembic/versions/20260915_0013_master_code_change_requests.py:104-128 | the step-by-step write trigger admits exactly the updates of the predicate |
| `RequestStore.Store.SubmitRequest` | src/mdm/infrastructure/repositories/change_requests.py:60-78 | submitting in place equals the specified command |
| `RequestStore.Store.ApproveRequest` | src/mdm/infrastructure/repositories/change_requests.py:128-150 | approving in place equals the specified command |
| `RequestStore.Store.RejectRequest` | src/mdm/infrastructure/repositories/change_requests.py:167-180 | rejecting in place equals the specified command |

## Left out

- MasterData.CreateMasterCode: takes references to stored Dimensions only; creating Dimensions inline in the same transaction is not modelled.
- Actor, reason and change set of log entries, with the log tables' CHECKs on them; one transaction stands for one change set, so the uniqueness of a field within a change set is stated as one within a version.
- The `updated_at` columns of families and users, the byte length of digests and the length of emails, with their CHECKs.
- The 32-bit width of version columns: versions are unbounded.
- The ETag's text: it is modelled as the version vector it is computed from, without JSON and SHA-256.
- Row locks, isolation levels, deadlocks and lock time-outs of PostgreSQL: transactions are atomic steps.
- Time zones of timestamps, and the rejection of timestamps without one: times are numbers.
- Access tokens, password hashing, email delivery, rate limits, request protection, routers and error texts.
- Role changes, the security-event log of users, and the rule that nobody changes their own status: they touch no credential.
- Normalization of email addresses and allowed-domain matching: the answer of the domain check is an input.
- Finding a user or token and validating it are one read step before the commit, although the source reads in two steps for a password change; requests for a reset or a registration are one step.
- Retention: nothing in the model deletes old credential rows.
- Expiry of cookies by age, and cookies changed by another program: only replies change cookies.
- The controller's snapshot, notices, revision and listeners, and the sharing of one pending initialization or synchronization promise: the model allows more of these operations than the source starts.
- Closing a tab while it holds the lock: the browser then frees the lock, possibly after the cookies moved.
- ReviewRuns.Exec: the data change made in the same transaction as an approval is an input, its time or its failure; what such changes do is modelled under master data.
- Which texts the UUID parser reads is a parameter of proposal validation, and the locale of the database's control-character class is taken as Unicode category Cc.
- Validation errors are told apart by kind, not by field and message.
- Listing, paging, cursors, audit-log queries, OpenAPI and the React interface: presentation and queries.
