# wid-platform core, modelled in Dafny

wid-platform is a digital-inheritance platform built from NestJS services behind an API gateway.
A user registers assets and inheritance rules. When the user's death is verified, a cascade runs:
- the user's active inheritance rules are moved to `pending_execution`;
- the user's assets are marked releasable;
- a notification is sent;
- every step is sent, signed, to the audit service, whose store is append-only.

Services call each other over HTTP. Each internal request is signed with HMAC-SHA256 over a newline-joined canonical string. An inbound middleware checks the signature and the freshness of its timestamp.

This project models that core:

- the death-verification case table, its review state machine and the VERIFIED cascade (`DeathVerification`, `DeathVerificationController`);
- request signing and the inbound HMAC gate (`Signing`, `InternalClient`, `HmacGate`);
- the two audit-client envelope builders (`GatewayAuditClient`, `DvAuditClient`, over `AuditRecord`);
- the audit ledger with its append and its filter/sort/page query (`AuditLedger`);
- the cascade targets (`Inheritance`, `AssetVault`);
- the JWT payload check (`JwtStrategy`);
- the zod request and response schemas (`AuditContract`, `InheritanceContract`, `AssetContract`, `UserContract`, `AuthContract`).

Foreign and environmental inputs are model parameters:
- SHA-256 (FIPS 180-4), HMAC-SHA256 (RFC 2104), `JSON.stringify`, `Date#toISOString` and the database's reading of a timestamp are fields of a `Natives` value.
- Zod's UUID, e-mail and datetime formats are fields of a `Formats` value.
- Nothing is assumed about these functions except where a lemma states injectivity as a hypothesis (`Signing.HmacInjective`, `Signing.ShaInjective`, `Signing.StringifyInjective`).
- The clock is an integer parameter `now`, in milliseconds.

Supporting modules:
- JavaScript values are the `Js.Json` datatype. Objects are ordered key/value sequences, and a spread's later key wins (`Js.Lookup`). Truthiness is explicit (`Js.Truthy`, `Js.Present`, `Js.OrEmpty`).
- `Text` holds newline joining and its injectivity (`Text.JoinInjective`), ASCII upper-casing, decimal rendering and a `parseInt(s, 10)` that returns `None` for NaN.
- `Zod` gives the semantics of the zod constructs the schemas use: `object` (unknown keys stripped), `string` with `min`/`uuid`/`email`/`datetime`, `number` with `int`/`min`/`max`, `boolean`, `enum`, `record`, `array`, and the `optional`, `nullable` and `default` wrappers.

Where the platform's design and its code disagree, the model follows the code:
- The VERIFIED cascade is three awaited calls. The downstream clients rethrow, so the first failure ends the cascade. Later steps and their audits do not happen, and the saved status stays.
- The duplicate check at creation looks only for an UNVERIFIED case.

Five defects of the code are modelled twice, as written and as evidently intended; they are listed under "## Findings".

## Model

| member | source | states |
|---|---|---|
| DeathVerification.StatusOf | wid-platform/services/death-verification-service/src/death-verification/death-verification.entity.ts:4-9 | A string names a status exactly when it is one of the four enum values, and the status found renders back to that string |
| DeathVerification.StatusRoundTrip | wid-platform/services/death-verification-service/src/death-verification/death-verification.entity.ts:4-9 | Reading a status's rendered value gives the status back |
| DeathVerification.NewCase | wid-platform/services/death-verification-service/src/death-verification/death-verification.service.ts:44-48 | A new case carries the given id, user and data, status PENDING_REVIEW, and no reviewer, notes or timestamps |
| DeathVerification.RequestedAudit | wid-platform/services/death-verification-service/src/death-verification/death-verification.service.ts:51-59 | The creation audit has actor type USER, actor id the user, action DEATH_VERIFICATION_REQUESTED, target the new case, the request's correlation id and the case status as metadata |
| DeathVerification.CreateOutcome | wid-platform/services/death-verification-service/src/death-verification/death-verification.service.ts:38-49 | Creation fails with BadRequest exactly when the user has an UNVERIFIED case; otherwise it yields the new PENDING_REVIEW case |
| DeathVerification.SecondRequestAccepted | wid-platform/services/death-verification-service/src/death-verification/death-verification.service.ts:39-47 | As written, two requests of one user both succeed and leave two outstanding cases |
| DeathVerification.CreateOutcomeCorrected | wid-platform/services/death-verification-service/src/death-verification/death-verification.service.ts:39-42 | Corrected check: creation fails exactly when the user has an UNVERIFIED or PENDING_REVIEW case |
| DeathVerification.CorrectedCreateKeepsOneOutstanding | wid-platform/services/death-verification-service/src/death-verification/death-verification.service.ts:39-49 | With the corrected check, a table with at most one outstanding case per user keeps that invariant after a creation |
| DeathVerification.Reviewed | wid-platform/services/death-verification-service/src/death-verification/death-verification.service.ts:76-84 | Any status may follow any other. Status, reviewer and notes are set. verifiedAt is set only for VERIFIED and rejectedAt only for REJECTED; the other timestamp and every other field are kept |
| DeathVerification.StatusAudit | wid-platform/services/death-verification-service/src/death-verification/death-verification.service.ts:88-96 | The status audit has actor type SYSTEM, actor the reviewer, action DEATH_VERIFICATION_STATUS_UPDATED_ plus the upper-cased new status, and metadata oldStatus, newStatus and userId |
| DeathVerification.VerifiedAction | wid-platform/services/death-verification-service/test/integration/death-verification.e2e-spec.ts:159-165 | A VERIFIED update's audit action is DEATH_VERIFICATION_STATUS_UPDATED_VERIFIED |
| DeathVerification.Cascade | wid-platform/services/death-verification-service/src/death-verification/death-verification.service.ts:118-158 | The cascade makes at most three calls, each followed by its audit. It fails exactly when a step fails; the failing call is the last one made and has no audit. Success means three calls and three audits. Every audit targets the case's user under the request's correlation id |
| DeathVerification.CascadeAllSucceed | wid-platform/services/death-verification-service/src/death-verification/death-verification.service.ts:122-157 | When every step succeeds, the calls are evaluateRules, markAssetsAsReleasable and sendNotification, in that order and about the case's user, with their three audits |
| DeathVerification.CascadeStopsAtFailure | wid-platform/services/death-verification-service/src/common/clients/inheritance-client.service.ts:25-28 | A failed rule evaluation ends the cascade with no audit. A failed asset release ends it after the rules audit |
| DeathVerification.VerifiedUpdateTrace | wid-platform/services/death-verification-service/src/death-verification/death-verification.service.ts:86-101 | A VERIFIED update whose cascade succeeds leaves exactly four audits sharing one correlation id, calls each client once, and answers the updated case |
| DeathVerification.NonVerifiedUpdateTrace | wid-platform/services/death-verification-service/src/death-verification/death-verification.service.ts:99-103 | An update to any other status leaves one audit, calls nothing and answers the updated case |
| DeathVerification.DeathVerificationService.constructor | wid-platform/services/death-verification-service/src/death-verification/death-verification.service.ts:27-36 | A service starts over a given case table with empty audit and call traces |
| DeathVerification.DeathVerificationService.CreateVerificationRequest | wid-platform/services/death-verification-service/src/death-verification/death-verification.service.ts:38-62 | The answer is the creation outcome. On success the new case is stored and one requested-audit is appended. On failure nothing changes. No downstream call is made |
| DeathVerification.DeathVerificationService.UpdateVerificationStatus | wid-platform/services/death-verification-service/src/death-verification/death-verification.service.ts:64-104 | An unknown id raises NotFound and changes nothing. Otherwise the reviewed case is saved first, then the status audit and, for VERIFIED, the cascade's calls and audits are appended. A cascade failure is re-raised without rolling back the save |
| DeathVerification.DeathVerificationService.HandleVerifiedStatus | wid-platform/services/death-verification-service/src/death-verification/death-verification.service.ts:118-158 | Appends exactly the cascade's calls and audits, leaves the cases alone and reports the failing call |
| DeathVerification.DeathVerificationService.GetVerificationById | wid-platform/services/death-verification-service/src/death-verification/death-verification.service.ts:106-112 | Returns the stored case, or NotFound with the id in the message |
| DeathVerification.DeathVerificationService.GetAllVerifications | wid-platform/services/death-verification-service/src/death-verification/death-verification.service.ts:114-116 | Returns exactly the stored cases |
| DeathVerificationController.CreateDeathVerificationRequestAccepts | wid-platform/services/death-verification-service/src/death-verification/death-verification.controller.ts:9-12 | A create body validates exactly when it is an object with a UUID userId and a record verificationData |
| DeathVerificationController.UpdateDeathVerificationStatusRequestAccepts | wid-platform/services/death-verification-service/src/death-verification/death-verification.controller.ts:14-18 | With the status enum taken from the entity, as intended: an update body validates exactly when status is one of the four values, reviewerId is a UUID, and reviewerNotes is absent or a record |
| DeathVerificationController.StatusFieldAccepts | wid-platform/services/death-verification-service/src/death-verification/death-verification.controller.ts:15 | With the status enum taken from the entity, as intended: the status field validates exactly when it is a string naming a status |
| DeathVerificationController.CreateDeathVerificationRequestOutput | wid-platform/services/death-verification-service/src/death-verification/death-verification.controller.ts:9-12 | A validated create body keeps its userId and verificationData unchanged |
| DeathVerificationController.UpdateDeathVerificationStatusRequestOutput | wid-platform/services/death-verification-service/src/death-verification/death-verification.controller.ts:14-18 | A validated update body keeps its status, reviewerId and reviewerNotes unchanged |
| DeathVerificationController.CreateRequest | wid-platform/services/death-verification-service/src/death-verification/death-verification.controller.ts:25-37 | The handler reaches the service exactly when the body validates. It passes the body's userId and verificationData, and the request's correlation id or the empty string |
| DeathVerificationController.UpdateStatusRequest | wid-platform/services/death-verification-service/src/death-verification/death-verification.controller.ts:39-54 | With the status enum taken from the entity, as intended: the handler reaches the service exactly when the body validates. It passes the path id, the status, the reviewer, the notes (an empty record when absent) and the correlation id or the empty string |
| DeathVerificationController.UpdateStatusRequestAsWritten | wid-platform/services/death-verification-service/src/death-verification/death-verification.controller.ts:3-18 | As written no body reaches the service: a non-object is refused by zod, and for an object the status field `z.nativeEnum(undefined)` throws |
| DeathVerificationController.ValidReviewThrowsAsWritten | wid-platform/services/death-verification-service/src/death-verification/death-verification.controller.ts:39-54 | Every review the intended schema accepts makes the as-written route throw instead of calling the service |
| Signing.OutboundSignatureBindsFields | wid-platform/services/death-verification-service/src/common/clients/abstract-internal-client.service.ts:77-85 | Given an injective HMAC and newline-free fields, equal six-field signatures mean equal upper-cased method, path, timestamp, body hash, user id and e-mail |
| Signing.OutboundNeverMatchesGate | wid-platform/services/inheritance-rules-service/src/common/middleware/hmac-auth.middleware.ts:42-48 | With newline-free fields, the signer's six-field canonical string never equals the gate's five-field one |
| Signing.E2eMatchesGateOnlyBySlotShift | wid-platform/services/death-verification-service/test/integration/death-verification.e2e-spec.ts:69-76 | The end-to-end test's five-field string equals the gate's only when its body hash sits in the gate's user-id slot and its user id in the e-mail slot |
| InternalClient.ConstructAsWritten | wid-platform/services/death-verification-service/src/common/clients/abstract-internal-client.service.ts:18-25 | As written, construction always fails. A subclass's key, a class field, is still unset when the base constructor reads it, so every client fails with "undefined is not configured."; were the key known, a base URL would lead to the undeclared `baseURL` |
| InternalClient.Construct | wid-platform/services/death-verification-service/src/common/clients/abstract-internal-client.service.ts:17-25 | With both defects removed (the key known during construction, `baseURL: baseUrl`): construction succeeds exactly when the base-URL setting is present and non-empty, and yields that URL and the configured secret, if any |
| InternalClient.BodyHash | wid-platform/services/death-verification-service/src/common/clients/abstract-internal-client.service.ts:33-34 | The body hash is SHA-256 of the JSON text of truthy data, otherwise SHA-256 of the empty string |
| InternalClient.SignedHeaders | wid-platform/services/death-verification-service/src/common/clients/abstract-internal-client.service.ts:27-50 | Every request gets the signature and timestamp headers. The signature covers the six fields read from the lower-case headers. The correlation, user-id and e-mail headers are written only when their source is non-empty. No other header changes |
| InternalClient.CapitalisedHeadersNotSigned | wid-platform/services/death-verification-service/src/common/clients/abstract-internal-client.service.ts:29-30 | A caller that sets no lower-case user headers gets empty user-id and e-mail slots in the signature |
| InternalClient.AbstractInternalClient.Intercept | wid-platform/services/death-verification-service/src/common/clients/abstract-internal-client.service.ts:27-54 | With a secret, the interceptor replaces the request's headers with the signed headers. With none, signing throws and the headers are left as they were |
| HmacGate.Check | wid-platform/services/inheritance-rules-service/src/common/middleware/hmac-auth.middleware.ts:18-57 | Each decision happens exactly under its condition, in the middleware's order: health bypass, then missing signature or timestamp, then staleness, then signature mismatch, else accept |
| HmacGate.Decide | wid-platform/services/inheritance-rules-service/src/common/middleware/hmac-auth.middleware.ts:13-57 | With a secret, the decision is the checks against the five-field signature. With no secret, a request that passes the bypass, credential and replay checks makes `createHmac` throw; any other request gets the same bypass or rejection |
| HmacGate.HmacAuthMiddleware.Use | wid-platform/services/inheritance-rules-service/src/common/middleware/hmac-auth.middleware.ts:13-65 | The decision is the gate's, for the secret read from the configuration. Only on acceptance, the user is attached when a user id came in and the correlation id when one came in |
| HmacGate.ReplayWindowEdges | wid-platform/services/inheritance-rules-service/src/common/middleware/hmac-auth.middleware.ts:35-39 | A timestamp 301 s old is stale. Ones 300 s or 299 s old are not, and neither is any timestamp from the future |
| HmacGate.StaleBeatsSignature | wid-platform/services/inheritance-rules-service/src/common/middleware/hmac-auth.middleware.ts:36-57 | A correctly signed but stale request is refused as stale: staleness is checked before the signature |
| HmacGate.UnparseableTimestampNotStale | wid-platform/services/inheritance-rules-service/src/common/middleware/hmac-auth.middleware.ts:36 | A timestamp that parses to NaN is never stale |
| HmacGate.ClientSignedRequestRejected | wid-platform/services/inheritance-rules-service/src/common/middleware/hmac-auth.middleware.ts:42-57 | Given an injective HMAC, a request signed by an outbound client inside the replay window is refused as an invalid signature |
| HmacGate.DecideWithBodyHash | wid-platform/services/inheritance-rules-service/src/common/middleware/hmac-auth.middleware.ts:42-52 | The corrected gate accepts exactly when the request passes the bypass, credential and replay checks and carries the six-field signature with the body hash; every request an outbound client signed inside the replay window is accepted |
| HmacGate.ClientSignedRequestAccepted | wid-platform/services/inheritance-rules-service/src/common/middleware/hmac-auth.middleware.ts:42-57 | The corrected gate accepts a request signed by an outbound client inside the replay window |
| Text.ParseDecimal | wid-platform/services/inheritance-rules-service/src/common/middleware/hmac-auth.middleware.ts:36 | `parseInt` of a rendered millisecond count gives that count back |
| AuditRecord.FullRecord | wid-platform/services/death-verification-service/src/common/clients/audit-client.service.ts:21-25 | The sent record has the given timestamp and hash, and every other key as in the audit data |
| AuditRecord.UserEmail | wid-platform/services/death-verification-service/src/common/clients/audit-client.service.ts:31 | An e-mail is taken exactly when the actor type is USER and metadata exists, and it is the metadata's email value |
| AuditRecord.RecordHashBindsRecord | wid-platform/services/death-verification-service/src/common/clients/audit-client.service.ts:17-19 | Given injective SHA-256 and JSON text, equal record hashes mean equal timestamp and equal hashed record |
| DvAuditClient.Record | wid-platform/services/death-verification-service/src/common/clients/audit-client.service.ts:17-25 | With `crypto` imported, as intended: the record's timestamp is the ISO form of now, its hash is SHA-256 of the JSON of the data plus that timestamp, and every other key is the audit data's |
| DvAuditClient.RequestHeaders | wid-platform/services/death-verification-service/src/common/clients/audit-client.service.ts:29-33 | Exactly three headers: X-User-Id is the actor id or empty, X-User-Email is the USER actor's metadata e-mail or empty, X-Correlation-Id is the correlation id or empty |
| DvAuditClient.Send | wid-platform/services/death-verification-service/src/common/clients/audit-client.service.ts:16-45 | The call resolves exactly when `crypto` is bound where the hash is computed; it then posts the record to /api/audit with those headers and returns the reply, or null when the post fails |
| DvAuditClient.SendAuditLog | wid-platform/services/death-verification-service/src/common/clients/audit-client.service.ts:16-41 | With `crypto` imported, as intended: posts the record to /api/audit with those headers, and returns the reply, or null when the post fails |
| DvAuditClient.SendAuditLogAsWritten | wid-platform/services/death-verification-service/src/common/clients/audit-client.service.ts:16-45 | As written (`Send` with `crypto` unbound) every call rejects before anything is posted: the hash is computed outside the `try`, with no `crypto` in scope |
| DvAuditClient.SignedUserFieldsEmpty | wid-platform/services/death-verification-service/src/common/clients/audit-client.service.ts:28-34 | After interception the signature's user-id and e-mail slots are empty, while the X-User-Id and X-User-Email headers still carry the actor |
| GatewayAuditClient.RecordTimestamp | wid-platform/apps/api-gateway/src/audit-client/audit-client.service.ts:49-54 | The record timestamp is the ISO form of the same instant as the header timestamp |
| GatewayAuditClient.SignedUserId | wid-platform/apps/api-gateway/src/audit-client/audit-client.service.ts:64 | The signed user id is present exactly when the actor id is non-empty, and agrees with X-User-Id |
| GatewayAuditClient.SignedEmail | wid-platform/apps/api-gateway/src/audit-client/audit-client.service.ts:65 | The signed e-mail is present exactly when a USER actor's metadata has an email value, and agrees with X-User-Email |
| GatewayAuditClient.Record | wid-platform/apps/api-gateway/src/audit-client/audit-client.service.ts:48-56 | The record's timestamp is the ISO instant, its hash is SHA-256 of the JSON of the data plus that timestamp, and every other key is the audit data's |
| GatewayAuditClient.Headers | wid-platform/apps/api-gateway/src/audit-client/audit-client.service.ts:73-80 | Content type JSON; the millisecond timestamp; X-User-Id the actor id or empty; X-User-Email the USER actor's e-mail or empty; X-Correlation-Id the correlation id or empty |
| GatewayAuditClient.SignatureMatchesHeaders | wid-platform/apps/api-gateway/src/audit-client/audit-client.service.ts:58-66 | The signature is the six-field signature over the header timestamp, the hash of the full record (hash included) and the user headers |
| GatewayAuditClient.Post | wid-platform/apps/api-gateway/src/audit-client/audit-client.service.ts:69-82 | The post goes to the audit URL plus /api/audit with the record as body and those headers |
| GatewayAuditClient.SendAuditLog | wid-platform/apps/api-gateway/src/audit-client/audit-client.service.ts:38-91 | With no audit URL nothing is sent and the result is null. With a URL but no secret, signing throws before the guarded post. Otherwise the post is sent, and the reply or null is returned |
| AuditLedger.Stamp | wid-platform/services/audit-service/src/audit/audit.service.ts:21-29 | The stored entry's timestamp and hash are the server's, overriding any supplied; every other AuditLog column is the submitted data's, and keys that are not columns of the entity are dropped |
| AuditLedger.NonColumnKeyHashedNotStored | wid-platform/services/audit-service/src/audit/audit.service.ts:21-29 | Given injective SHA-256 and JSON text, a key that is not a column changes the stored hash but is absent from the row, and leaves every other stored key as it was |
| AuditLedger.ServerHashAgreesWithClient | wid-platform/services/audit-service/src/audit/audit.service.ts:21-23 | For the caller's fields alone (no timestamp or hash key), stamped at the same ISO instant, the server's hash equals the one a client computes |
| AuditLedger.SentRecordHashDiffers | wid-platform/services/audit-service/src/audit/audit.service.ts:21-23 | Given injective SHA-256 and JSON text, the server's hash of the record a client sends, which carries the client's hash key, never equals the client's hash, even at the same instant |
| AuditLedger.Ledger.constructor | wid-platform/services/audit-service/src/audit/audit.service.ts:13-16 | A ledger starts empty |
| AuditLedger.Ledger.CreateAuditLog | wid-platform/services/audit-service/src/audit/audit.service.ts:18-39 | A successful save appends exactly the stamped entry, holding only the entity's columns, and returns it. A failed save raises BadRequest and leaves the ledger unchanged. Nothing else updates or removes entries |
| AuditLedger.Filter | wid-platform/services/audit-service/src/audit/audit.service.ts:55-72 | An entry is kept exactly when every present filter holds: equality on actorId, targetId, action and correlationId, and inclusive date bounds |
| AuditLedger.SortByTimestampDesc | wid-platform/services/audit-service/src/audit/audit.service.ts:74 | The result is ordered newest first and is a permutation of its input |
| AuditLedger.InsertSorted | wid-platform/services/audit-service/src/audit/audit.service.ts:74 | Inserting into a newest-first sequence keeps it newest first |
| AuditLedger.EffectiveLimit | wid-platform/services/audit-service/src/audit/audit.service.ts:75 | The page size is the given limit when positive, else 50 |
| AuditLedger.Page | wid-platform/services/audit-service/src/audit/audit.service.ts:75-76 | A page is the slice starting after `offset` entries and holding at most `limit` of them |
| AuditLedger.GetAuditLogs | wid-platform/services/audit-service/src/audit/audit.service.ts:41-79 | Every result is a stored entry matching the query; the results are newest first; there are at most `limit` of them |
| AuditLedger.PageWindow | wid-platform/services/audit-service/src/audit/audit.service.ts:74-76 | A page of a newest-first sequence is the run right after `offset` entries: every skipped entry is no older than its first, and every later entry no newer than its last |
| AuditLedger.GetAuditLogsWindow | wid-platform/services/audit-service/src/audit/audit.service.ts:55-78 | Of all matching entries ranked newest first, the result is exactly the run after `offset || 0` of them, of at most `limit || 50`; what is skipped is no older and what follows no newer |
| AuditLedger.GetAuditLogsCount | wid-platform/services/audit-service/src/audit/audit.service.ts:75-76 | The result holds `limit` entries unless the matches run out after `offset` |
| AuditLedger.AllMatchesWhenFits | wid-platform/services/audit-service/src/audit/audit.service.ts:55-76 | With no offset and no more matches than the limit, every matching entry is returned |
| AuditLedger.ValidatedPageBound | wid-platform/services/audit-service/src/audit/audit.controller.ts:11-17 | Behind validation, the page size is between 1 and 100 and is 50 when no limit is given |
| AuditLedger.TextLimitRejected | wid-platform/packages/contracts/audit.contract.ts:12 | A limit given as text fails validation: the schema asks for a number and does not convert |
| AuditContract.GetAuditLogRequestAccepts | wid-platform/packages/contracts/audit.contract.ts:5-14 | A query validates exactly when the ids are UUIDs when present, the dates are datetimes when present, limit is an integer in [1, 100] when present and offset an integer of at least 0 when present |
| AuditContract.GetAuditLogRequestDefaults | wid-platform/packages/contracts/audit.contract.ts:12-13 | A validated query always has an integer limit in [1, 100] and an integer offset of at least 0, defaulting to 50 and 0 |
| AuditContract.InternalCreateAuditLogAccepts | wid-platform/packages/contracts/audit.contract.ts:18-28 | A create body validates exactly when actorType is USER, SYSTEM or SERVICE and action is non-empty, and each optional field has its stated form |
| AuditContract.InternalCreateAuditLogDefaultTimestamp | wid-platform/packages/contracts/audit.contract.ts:19 | A body without a timestamp receives the value fixed when the schema was built, whatever the time of the call |
| AuditContract.AuditLogEntryAccepts | wid-platform/packages/contracts/audit.contract.ts:33-44 | A stored entry validates exactly when it has a UUID id, a datetime timestamp, a valid actor type, a string action and hash, and nullable ids, targetType and metadata of their stated forms |
| AuditContract.ListAuditLogsResponseAccepts | wid-platform/packages/contracts/audit.contract.ts:47 | A list validates exactly when it is an array whose every item is a valid entry |
| AuditContract.AuditErrorCodesExact | wid-platform/packages/contracts/audit.contract.ts:51-55 | There are exactly three audit error codes, and they are distinct |
| Inheritance.Evaluated | wid-platform/services/inheritance-rules-service/src/inheritance/inheritance.service.ts:23-30 | An active rule of the user becomes pending_execution; any other rule is unchanged |
| Inheritance.EvaluatedRules | wid-platform/services/inheritance-rules-service/src/inheritance/inheritance.service.ts:23-31 | Every rule is evaluated in place; the table keeps its length and order |
| Inheritance.ActiveIndices | wid-platform/services/inheritance-rules-service/src/inheritance/inheritance.service.ts:23 | The indices found are, in increasing order, exactly those of the user's active rules |
| Inheritance.NoActiveAfterEvaluation | wid-platform/services/inheritance-rules-service/src/inheritance/inheritance.service.ts:23-31 | After evaluation the user has no active rule |
| Inheritance.EvaluateIdempotent | wid-platform/services/inheritance-rules-service/src/inheritance/inheritance.service.ts:23-31 | A second evaluation finds nothing and changes nothing |
| Inheritance.EvaluationsCommute | wid-platform/services/inheritance-rules-service/src/inheritance/inheritance.service.ts:23-31 | Evaluating two users gives the same table in either order |
| Inheritance.RulesOf | wid-platform/services/inheritance-rules-service/src/inheritance/inheritance.service.ts:45-47 | The result holds exactly the rules with that owner |
| Inheritance.RuleById | wid-platform/services/inheritance-rules-service/src/inheritance/inheritance.service.ts:49-51 | No rule (and no error) exactly when no rule has the id; otherwise a stored rule with that id |
| Inheritance.RuleByIdUnique | wid-platform/services/inheritance-rules-service/src/inheritance/inheritance.service.ts:49-51 | With unique ids, the lookup returns the rule stored under that id |
| Inheritance.InheritanceService.constructor | wid-platform/services/inheritance-rules-service/src/inheritance/inheritance.service.ts:11-14 | The service starts over a given rule table |
| Inheritance.InheritanceService.EvaluateRules | wid-platform/services/inheritance-rules-service/src/inheritance/inheritance.service.ts:16-35 | The table becomes its evaluation for the user, and the answer is always status success with the user's message |
| Inheritance.InheritanceService.CreateRule | wid-platform/services/inheritance-rules-service/src/inheritance/inheritance.service.ts:38-43 | Appends and returns a rule with the given fields and status active, keeping ids unique |
| Inheritance.InheritanceService.FindRulesByOwner | wid-platform/services/inheritance-rules-service/src/inheritance/inheritance.service.ts:45-47 | Returns the owner's rules |
| Inheritance.InheritanceService.GetRuleById | wid-platform/services/inheritance-rules-service/src/inheritance/inheritance.service.ts:49-51 | Returns the rule lookup's answer |
| AssetVault.Released | wid-platform/services/asset-vault-service/src/asset-vault/asset-vault.service.ts:20 | Every asset of the user gets isReleasable true; other fields and other owners' assets are unchanged |
| AssetVault.ReleaseIdempotent | wid-platform/services/asset-vault-service/src/asset-vault/asset-vault.service.ts:20 | Releasing twice is releasing once |
| AssetVault.ReleasedAll | wid-platform/services/asset-vault-service/src/asset-vault/asset-vault.service.ts:20 | Afterwards every asset of the user is releasable, and no releasable asset stops being so |
| AssetVault.AssetsOf | wid-platform/services/asset-vault-service/src/asset-vault/asset-vault.service.ts:33-35 | The result holds exactly the assets with that owner |
| AssetVault.AssetById | wid-platform/services/asset-vault-service/src/asset-vault/asset-vault.service.ts:37-43 | NotFound, with the id in the message, exactly when no asset has the id; otherwise a stored asset with that id |
| AssetVault.AssetVaultService.constructor | wid-platform/services/asset-vault-service/src/asset-vault/asset-vault.service.ts:11-14 | The service starts over a given asset table |
| AssetVault.AssetVaultService.MarkAssetsAsReleasable | wid-platform/services/asset-vault-service/src/asset-vault/asset-vault.service.ts:16-23 | The table becomes its release for the user, and the answer is always status success with the user's message |
| AssetVault.AssetVaultService.CreateAsset | wid-platform/services/asset-vault-service/src/asset-vault/asset-vault.service.ts:26-31 | Appends and returns an asset with the given fields and isReleasable false, keeping ids unique |
| AssetVault.AssetVaultService.FindAssetsByOwner | wid-platform/services/asset-vault-service/src/asset-vault/asset-vault.service.ts:33-35 | Returns the owner's assets |
| AssetVault.AssetVaultService.GetAssetById | wid-platform/services/asset-vault-service/src/asset-vault/asset-vault.service.ts:37-43 | Returns the asset lookup's answer |
| JwtStrategy.Validate | wid-platform/apps/api-gateway/src/auth/jwt.strategy.ts:17-24 | Unauthorized with "Invalid JWT payload" exactly when sub or email is falsy; otherwise exactly their two values |
| JwtStrategy.ExtraClaimsIgnored | wid-platform/apps/api-gateway/src/auth/jwt.strategy.ts:23 | Claims other than sub and email do not affect the result |
| InheritanceContract.CreateInheritanceRuleRequestAccepts | wid-platform/packages/contracts/inheritance.contract.ts:5-11 | Validates exactly with UUID ownerId and heirId, an optional UUID assetId, a non-empty condition and an optional integer delayDays of at least 0 |
| InheritanceContract.UpdateInheritanceRuleRequestAccepts | wid-platform/packages/contracts/inheritance.contract.ts:14-20 | Validates exactly with a UUID ruleId and each other field absent or of its create-time form |
| InheritanceContract.GetInheritanceRuleRequestAccepts | wid-platform/packages/contracts/inheritance.contract.ts:23-26 | Validates exactly with a UUID ruleId and an optional UUID ownerId |
| InheritanceContract.InheritanceRuleResponseAccepts | wid-platform/packages/contracts/inheritance.contract.ts:30-40 | Validates exactly with UUID ids, a status among the four, a nullable optional integer delayDays of at least 0 and datetime stamps |
| InheritanceContract.ListInheritanceRulesResponseAccepts | wid-platform/packages/contracts/inheritance.contract.ts:43 | A list validates exactly when every item is a valid rule response |
| InheritanceContract.InheritanceErrorCodesExact | wid-platform/packages/contracts/inheritance.contract.ts:47-51 | There are exactly three rule error codes, and they are distinct |
| AssetContract.CreateAssetRequestAccepts | wid-platform/packages/contracts/asset.contract.ts:5-11 | Validates exactly with a non-empty name and type, a string encryptedDetails, a UUID ownerId and an optional string description |
| AssetContract.UpdateAssetRequestAccepts | wid-platform/packages/contracts/asset.contract.ts:14-20 | Validates exactly with a UUID assetId, name and type non-empty when present, and strings otherwise when present |
| AssetContract.GetAssetRequestAccepts | wid-platform/packages/contracts/asset.contract.ts:23-26 | Validates exactly with a UUID assetId and an optional UUID ownerId |
| AssetContract.AssetResponseAccepts | wid-platform/packages/contracts/asset.contract.ts:30-40 | Validates exactly with UUID ids, a nullable description, a boolean isReleasable and datetime stamps |
| AssetContract.ListAssetsResponseAccepts | wid-platform/packages/contracts/asset.contract.ts:43 | A list validates exactly when every item is a valid asset response |
| AssetContract.AssetErrorCodesExact | wid-platform/packages/contracts/asset.contract.ts:47-51 | There are exactly three asset error codes, and they are distinct |
| UserContract.GetUserProfileRequestAccepts | wid-platform/packages/contracts/user.contract.ts:5-7 | Validates exactly with a UUID userId |
| UserContract.UpdateUserProfileRequestAccepts | wid-platform/packages/contracts/user.contract.ts:10-15 | Validates exactly with a UUID userId, names non-empty when present and a datetime dateOfBirth when present |
| UserContract.UserProfileResponseAccepts | wid-platform/packages/contracts/user.contract.ts:19-27 | Validates exactly with a UUID id, a valid e-mail, datetime stamps, and names and birth date nullable and optional |
| UserContract.UserErrorCodesExact | wid-platform/packages/contracts/user.contract.ts:31-35 | There are exactly three user error codes, and they are distinct |
| AuthContract.RegisterUserRequestAccepts | wid-platform/packages/contracts/auth.contract.ts:5-8 | Validates exactly with a valid e-mail and a password of at least 8 UTF-16 code units |
| AuthContract.LoginUserRequestAccepts | wid-platform/packages/contracts/auth.contract.ts:11-14 | Validates exactly with a valid e-mail and a password of at least 8 UTF-16 code units |
| AuthContract.PasswordLengthInCodeUnits | wid-platform/packages/contracts/auth.contract.ts:7 | Four characters outside the Basic Multilingual Plane meet `min(8)`; seven ASCII letters do not |
| AuthContract.LoginMatchesRegister | wid-platform/packages/contracts/auth.contract.ts:5-14 | A body passes login validation exactly when it passes registration validation |
| AuthContract.AuthResponseAccepts | wid-platform/packages/contracts/auth.contract.ts:18-20 | Validates exactly with a string accessToken |
| AuthContract.AuthErrorCodesExact | wid-platform/packages/contracts/auth.contract.ts:24-30 | There are exactly five auth error codes, and they are distinct |

## Left out

- Network I/O. The axios posts and the inheritance, asset-vault and notification client wrappers are not modelled. A downstream call is a `Call` value with a success flag (`Outcomes`), and a failure is re-raised as those wrappers do. An audit post's reply is a parameter.
- Concurrency and ordering of audit sends. The service does not await `sendAuditLog`. The model records the envelopes it hands to the client, in program order. It does not model their delivery order, nor a send failing after the response; with the as-written client every send rejects, and what the process does with that unhandled rejection is not modelled.
- Logging. The interceptor's and middleware's log lines and the response-error logger are not modelled. Errors propagate unchanged.
- Clock and generated values. `Date.now()`, `new Date()` and the database's uuids are parameters (`now`, `id`, `newId`); they are not read from a clock.
- The `@CreateDateColumn`/`@UpdateDateColumn` columns `createdAt` and `updatedAt` of the death-verification, inheritance-rule and asset entities are not modelled: `DeathVerification.Case`, `Inheritance.Rule` and `AssetVault.Asset` have no such field, and no response in the model carries them.
- AuditLedger.Stamp: a caller-supplied `id` key is kept in the row's record like any column; the entry's `id` field is the generated one, and which of the two the database keeps is not modelled.
- DeathVerification.DeathVerificationService.GetAllVerifications: returns a set, so the repository's row order is not modelled.
- DeathVerification.DeathVerificationService.CreateVerificationRequest: requires a fresh id, because the database generates it.
- Inheritance.InheritanceService.CreateRule: requires a fresh id, because the database generates it.
- AssetVault.AssetVaultService.CreateAsset: requires a fresh id, because the database generates it.
- DeathVerificationController.UpdateDeathVerificationStatusRequestAccepts: states the schema with the entity's status values, as intended; as written the status field is `z.nativeEnum(undefined)` and no body validates (`DeathVerificationController.UpdateStatusRequestAsWritten`, under Findings).
- DeathVerificationController.StatusFieldAccepts: likewise states the intended status field; as written parsing it throws for every object body.
- DeathVerificationController.UpdateStatusRequest: the intended handler; as written no body reaches the service. Whether the validation pipe answers the thrown TypeError with 400 or 500 is not modelled, because the pipe is not part of this model.
- DvAuditClient.Record: the record the client builds once `crypto` is imported; as written it builds none (`DvAuditClient.SendAuditLogAsWritten`, under Findings).
- DvAuditClient.SendAuditLog: the client with `crypto` imported; as written every call rejects before posting.
- AuditLedger.Ledger.CreateAuditLog: models the service method. The audit controller has only the GET route (audit.controller.ts:11-17), so the clients' `POST /api/audit` reaches no handler and nothing is appended over HTTP; routing is not modelled.
- AuditLedger.ServerHashAgreesWithClient: holds for the caller's fields only. For the record a client actually sends, the hashes differ (`AuditLedger.SentRecordHashDiffers`); the model does not settle which object the design meant the server to hash.
- Postgres behaviour. Uniqueness, failing saves (other than the ledger's save flag) and type coercion are not modelled. The ledger's tie order among equal timestamps is a fixed choice of the model, where the database's order is unspecified.
- Header-name case. Axios header lookup is modelled as exact by spelling, as plain objects behave. Axios's own case-insensitive header class is not modelled.
- Number precision. `parseInt` on very long digit strings is exact here, where JavaScript rounds to a double. Zod numbers are reals.
- The JWT's signature, expiry and bearer extraction (section 2.1 of RFC 6750) belong to passport-jwt. Only `validate` and the fixed options are modelled.
- The gateway proxy, the Go stubs, the auth and user services, the notification service, the web UI, module wiring and the compiled `dist/` contracts are not part of this model. They hold no logic of the core.
- The `Zod` module models only the zod features these schemas use, and only their accept/reject behaviour and output. Error messages and issue paths are not modelled.

## Findings

| source | as written | input that shows it | evidently intended | confidence | as-written member | corrected member |
|---|---|---|---|---|---|---|
| wid-platform/services/death-verification-service/src/common/clients/abstract-internal-client.service.ts:18-25 | the base constructor reads `this.baseUrlConfigKey`, which a subclass sets as a class field only after `super` returns (inheritance-client.service.ts:9); and `axios.create({ baseURL })` names an undeclared `baseURL`, the local being `baseUrl` | any configuration, with INHERITANCE_RULES_SERVICE_URL set or not: the key read is `undefined`, so :22 throws "undefined is not configured."; with the key known and set, :25 throws on the undeclared name | the key known while the base constructor runs, and `axios.create({ baseURL: baseUrl })` | not executed | InternalClient.ConstructAsWritten | InternalClient.Construct |
| wid-platform/services/inheritance-rules-service/src/common/middleware/hmac-auth.middleware.ts:42-48 | the gate recomputes a five-field string without the body hash, while both signers sign six fields with it | any request signed by an internal client inside the replay window, under an injective HMAC | the gate hashes the body and checks the same six fields | not executed | HmacGate.ClientSignedRequestRejected | HmacGate.DecideWithBodyHash, HmacGate.ClientSignedRequestAccepted |
| wid-platform/services/death-verification-service/src/death-verification/death-verification.service.ts:39 | the duplicate check looks for UNVERIFIED cases only, yet new cases are PENDING_REVIEW | two requests of one user against an empty table: both succeed | any outstanding (UNVERIFIED or PENDING_REVIEW) case blocks a new request | not executed | DeathVerification.SecondRequestAccepted | DeathVerification.CreateOutcomeCorrected, DeathVerification.CorrectedCreateKeepsOneOutstanding |
| wid-platform/services/death-verification-service/src/death-verification/death-verification.controller.ts:3-15 | `DeathVerificationStatus` is imported from the service module, which imports it from the entity but does not export it, so the status field is `z.nativeEnum(undefined)` | any update body that is an object, e.g. a VERIFIED review with a UUID reviewer: parsing the status field throws | the enum imported from the entity | not executed | DeathVerificationController.UpdateStatusRequestAsWritten, DeathVerificationController.ValidReviewThrowsAsWritten | DeathVerificationController.UpdateStatusRequest, DeathVerificationController.UpdateDeathVerificationStatusRequestAccepts |
| wid-platform/services/death-verification-service/src/common/clients/audit-client.service.ts:19-44 | `generateHash` calls `crypto.createHash` with no `crypto` imported, and it runs at :19, before the `try` at :27 | any audit record: the call rejects and nothing is posted | `import * as crypto from 'crypto'`, as the gateway client and the audit service have | not executed | DvAuditClient.SendAuditLogAsWritten | DvAuditClient.SendAuditLog, DvAuditClient.Record |

The service classes, the middleware class and the interceptor model the code as written, because their behaviour is the platform's observable behaviour. The corrected definitions sit beside them with their properties proved. The class `InternalClient.AbstractInternalClient` is built from a base URL and an optional secret, as `InternalClient.Construct` yields them. The as-written constructor never succeeds, so no as-written client exists to model. The controller and the death-verification audit client are used in their corrected form by the rest of the model.
