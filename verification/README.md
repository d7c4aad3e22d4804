# ORCID Link, modelled and verified

ORCID Link connects a KBase account to an ORCID account and edits the works of the linked ORCID record. This project
models its four components with state or recursion of their own, and proves what they promise.

`dafny verify dfyconfig.toml` checks everything.

## The linking protocol

A linking session is created, started (the browser goes to ORCID), continued (ORCID's code is exchanged for tokens) and
finished (the link is stored). It lives in one of three Mongo collections on the way. Each move inserts into the next
collection and then deletes from the one before, with no transaction.

- `Protocol.dfy`: every request as a program counter, and `Next`, one access to something shared: one find, insert,
  update or delete, one clock read, one call to ORCID. `Reply` is what the environment answers; `Enabled` says what it
  may answer. The service's own history (which sessions were created, which tokens were issued to whom and which were
  revoked) is kept beside the collections and read by no request.
- `Interleaved.dfy`: any number of requests, each free to stop for good between any two accesses. The proof is by rely
  and guarantee: what a request knows is stable under what every other request may do.
- `Exclusivity.dfy`, `Revocation.dfy` and `LinkUniqueness.dfy`: for each property that interleavings break, the accesses
  that break it, and no others. Each says that an access keeps the property exactly when it is not one of those.
- `OneAtATime.dfy`: whole requests one at a time, on any database and however cleanups end.
- `Serial.dfy`: the same on a database with the unique index and with no cleanup cut short. Between two requests the
  store is then *at rest*; inside one, it is at rest once the request's pending write is applied.
- `LinkService.dfy`: the storage model as a class whose fields are the collections, and the request handlers as methods.
  Each handler is proved to take exactly the accesses of `Protocol.Next`, in order (`Performs`), so the results about
  all runs are results about these bodies. `HandlerTheorems.dfy` says so for the handlers.
- `Provenance.dfy`: where the stored answers come from: ORCID's grants and the options of a start, word for word, in
  every interleaving.
- `Scenarios.dfy`: runs put together from whole requests, where a result needs a run to exist.
- `ProtocolTheorems.dfy`: the remaining results.

The environment is assumed to be this: `_id` is unique in a collection and a moved document keeps it; uuids, document
ids and tokens are never issued twice; the clock never goes back; the `find_one` of an update or delete picks any
matching document; ORCID refreshes only grants it issued, and revokes the old tokens as the refresh asks it to. A refresh
may answer with any ORCID id. Whether `links` has a unique index on the username is a field of the store; results that
need it say so. The flow is section 4.1 of RFC 6749, refresh is section 6 of RFC 6749 and revocation is section 2 of
RFC 7009.

What turned out not to hold, with the exact condition and a run that shows it:

- *A session is in one collection.* True between whole requests, always (`RequestsSeparate`). Not true of interleavings
  (`LateStartDuplicates`): a start that is overtaken by a continue puts the session back for good. `AccessCoveredIff`
  says that this one insert is the only access that does harm, and `ExclusiveUnlessOvertaken` that without it every
  session is in one collection again when all requests are done.
- *No link ever holds a revoked token.* With whole requests one at a time this needs two things, and `StaysSafeIff` says
  that they are enough and both needed: the unique index, and no completed session with a revoked token. Without the
  index a user can have two links, and refreshing one by its ORCID id saves the record over the other, so that the one
  read keeps a revoked token. And a cleanup that is cut short by a failing revocation after one that succeeded leaves a
  completed session with a revoked token, which a later finish stores; `CutShortIff` says this is the only way a cleanup
  does harm. Interleavings break the property with the index too (`LateDropExposes`): a delete of a session that was
  finished meanwhile revokes the link's token. `AccessSettledIff` names every access that leaves such a link behind.
- *One link per user.* True in every interleaving exactly with the unique index (`OneLinkPerUserIff`), which databases
  that began at 0.2.1 do not have (`UniqueIndexIff`).
- *One link per ORCID id.* Not true even of requests one at a time (`OrcidLinkedTwice`). `OrcidAccessIff` and
  `OneLinkPerOrcidIff` say when it is: when no finish stores and no refresh saves a link whose ORCID id another link has,
  the check that the service makes in continue only.

## Work records

ORCID keeps one contributor record per role, all external ids in one list, and padded date parts. The service shows one
contributor with all its roles, the work's own DOI apart from the other ids, and a slash-separated date without padding.
`Strings.dfy` and `Dates.dfy` have the date printer and parser, `Contributors.dfy` the flattening and the
insertion-ordered group-by, `WorkModel.dfy` the two forms of a record, `Works.dfy` the translators and both round trips.

## Database migration

`Migration.dfy` has Mongo's writes (`Apply`) and the write list of each installation and upgrade, `MigrationService.dfy`
the class that runs them, with a journal of the writes that went through. `MigrationTheorems.dfy` talks about every
prefix of every list: what a stopped migration leaves behind, when running it again mends it, and what each answer means.

Two comments in the source promise an index that the upgrades do not add
(`src/boot/service_initialization.py` lines 113 and 180); the model follows the code, and `UniqueIndexIff` is the result.

## Schema extraction

`SchemaExtraction.dfy`: the script that collects a type and all it refers to from an OpenAPI document. It keeps no record
of where it has been, so a reference cycle ends at Python's stack limit. The stack that is left is a parameter, and
`ExtractsIff` says when some stack is enough. What a schema refers to is defined over the keywords (`Inside`, `RefersTo`),
apart from the functions the script is modelled with.

## Searching links

`FindLinks.dfy`: the filter of a manager's search, in which of several bounds on one field only the last survives. The
docstring of `get_link_records` says that no option is implemented and all links are returned; the code does filter, and
the model follows it.

## Model

| member | source | states |
|---|---|---|
| ProtocolTheorems.NoSessionLost | src/orcidlink/storage/storage_model_mongo.py:314-370 | In every interleaving, with crashes anywhere, a created session that is in none of the three collections was finished, deleted, rejected or expired; if finished, a link was made from it. |
| ProtocolTheorems.CopiesAgree | src/orcidlink/storage/storage_model_mongo.py:314-370 | In every interleaving each collection holds at most one document per session id, and all copies agree on username, creation and expiry. |
| ProtocolTheorems.LinksAreTheirUsers | src/orcidlink/jsonrpc/methods/linking_sessions.py:82-110 | In every interleaving a link's user created its session, called the continue its tokens go back to and called finish; with the unique index there is one link per user. |
| ProtocolTheorems.RetirementBound | src/orcidlink/process.py:63-81 | In every interleaving every link has retires_at <= created_at + age*1000, through finish, both refreshes and everything else. |
| OneAtATime.RequestsSeparate | src/orcidlink/storage/storage_model_mongo.py:314-370 | Between any two requests of any run of whole requests, with the unique index or without and however cleanups ended, a session is in one collection and an access token is held by one completed session or link. |
| OneAtATime.StageOnlyAdvances | src/orcidlink/storage/storage_model_mongo.py:127-148 | From one moment between requests of any such run to any later one, no session's stage goes back: initial, started, completed, gone. |
| ProtocolTheorems.RequestsRest | src/orcidlink/jsonrpc/methods/linking_sessions.py:68-110 | On a database with the unique index, after any run of whole requests with no cleanup cut short, the store is at rest: besides what always holds, no completed session or link holds a token the service has revoked. |
| ProtocolTheorems.StaysSafeIff | src/orcidlink/jsonrpc/methods/linking_sessions.py:82-110 | From a store whose links hold no revoked token, no later run of whole requests without a cut-short cleanup stores a link with one, exactly when the store has the unique index and no completed session holds a revoked token. |
| ProtocolTheorems.SafeFromTheStartIff | src/orcidlink/process.py:44-81 | From an empty store no such run ever stores a link with a revoked token exactly when it has the unique index. |
| ProtocolTheorems.CutShortIff | src/orcidlink/jsonrpc/methods/manage.py:211-224 | With the unique index, however a cleanup ends no stored link has a revoked token, and this stays so in all later runs exactly when the cleanup was not cut short after a successful revocation. |
| ProtocolTheorems.LateStartDuplicates | src/orcidlink/storage/storage_model_mongo.py:314-342 | A run of interleaved requests that ends with all requests done and one session in both the started and the completed collection; one of its accesses is the insert of an overtaken start. |
| Exclusivity.AccessCoveredIff | src/orcidlink/storage/storage_model_mongo.py:314-370 | Call a store covered when every session found in two collections has a request about to delete it from the earlier one. An access of any request in any interleaving keeps it covered exactly when it is not the insert of a start whose session was completed meanwhile with no continue left to delete it. |
| Exclusivity.ExclusiveUnlessOvertaken | src/orcidlink/storage/storage_model_mongo.py:314-370 | After any interleaving without such an insert the store is covered, and once all requests are done every session is in one collection. |
| Revocation.AccessSettledIff | src/orcidlink/jsonrpc/methods/linking_sessions.py:68-110 | With the unique index, call the links settled when every link with a revoked token is about to be deleted or replaced. An access in any interleaving keeps them settled exactly when it does not store or save a link whose token was revoked, nor, as the revocation of a session delete or a cleanup, revoke the token of a link nobody is about to touch. |
| Revocation.LinksSettledIff | src/orcidlink/process.py:63-81 | In every interleaving with the index the links stay settled throughout exactly when no access is of that kind; then no link holds a revoked token once all requests are done. |
| Revocation.LateDropExposes | src/orcidlink/jsonrpc/methods/linking_sessions.py:68-79 | A run of interleaved requests, with the index, that ends with all requests done and a link whose token a delete of its finished session has revoked. |
| LinkUniqueness.OneLinkPerUserIff | src/boot/service_initialization.py:374-385 | A user has at most one link in all interleavings exactly when the database has the unique username index. |
| LinkUniqueness.OrcidAccessIff | src/orcidlink/jsonrpc/methods/linking_sessions.py:95-108 | An access keeps the ORCID ids of the links different exactly when it is not an insert by finish that goes through, or a save by a refresh, of a link whose ORCID id another link has. |
| LinkUniqueness.OneLinkPerOrcidIff | src/orcidlink/routers/linking_sessions.py:440-452 | In every interleaving, index or not, no ORCID id is linked twice at any time exactly when no access is of that kind. |
| LinkUniqueness.OrcidLinkedTwice | src/orcidlink/routers/linking_sessions.py:440-452 | For any two users there is a run of whole requests, index or not, after which both have a link to the same ORCID id. |
| Provenance.HeldAsGranted | src/orcidlink/process.py:63-81 | In every interleaving each completed session and each link holds, field for field, the one answer in which ORCID granted its access token. |
| Provenance.OptionsAreTheOwners | src/orcidlink/routers/linking_sessions.py:211-252 | In every interleaving the options of a started or completed session, which continue answers with, are ones its owner gave to a start of it. |
| Provenance.GrantedOnce | src/orcidlink/routers/linking_sessions.py:430-461 | Under the assumption on ORCID, no two grants of a run are of one access token. |
| Provenance.RunKeepsTrack | src/orcidlink/jsonrpc/methods/linking_sessions.py:82-110 | The induction behind both: what is stored and what requests carry on its way there goes back to moves of the run. |
| Interleaved.HoldsIsStable | src/orcidlink/process.py:84-113 | What a request has read stays true whatever other requests do, as far as they keep the guarantee. |
| Interleaved.Step | src/orcidlink/storage/storage_model_mongo.py:109-148 | Every single access of every request keeps the invariant, the request's own knowledge and the guarantee to the others. |
| Interleaved.RunKeeps | src/orcidlink/storage/storage_model_mongo.py:314-370 | The invariant and every request's knowledge hold after any interleaving of accesses. |
| Serial.AnswerKeeps | src/orcidlink/jsonrpc/methods/linking_sessions.py:68-110 | On a database with the unique index, each access of a request running alone keeps the store at rest up to the request's own pending write, unless it cuts a cleanup short. |
| Serial.SerialRunKeeps | src/orcidlink/jsonrpc/methods/manage.py:211-224 | On a database with the unique index, the same over whole runs in which no cleanup is cut short. |
| HandlerTheorems.HandlerKeepsRest | src/orcidlink/jsonrpc/methods/linking_sessions.py:24-110 | On a database with the unique index, a handler that begins with the store at rest leaves it at rest; a cleanup does unless it is cut short. |
| HandlerTheorems.HandlerKeepsOrder | src/orcidlink/jsonrpc/methods/linking_sessions.py:24-110 | Index or not and however it ends, a handler leaves a session in one collection and a token with one holder. |
| LinkService.StorageModel.CreateLinkingSession | src/orcidlink/jsonrpc/methods/linking_sessions.py:24-51 | Takes the protocol's accesses; refuses other users and linked users and then changes nothing, otherwise adds one session of that user, created now and expiring a lifetime later, and returns its id. |
| LinkService.StorageModel.UpdateLinkingSessionToStarted | src/orcidlink/storage/storage_model_mongo.py:314-342 | Moves a session with the given options under its own document id, or changes nothing: none found, or its id is already among the started. |
| LinkService.StorageModel.StartLinkingSession | src/orcidlink/routers/linking_sessions.py:211-252 | Takes the protocol's accesses; after the ownership check the answer is a redirect whether the session moved or a document was in the way. |
| LinkService.StorageModel.UpdateLinkingSessionToFinished | src/orcidlink/storage/storage_model_mongo.py:344-370 | Moves a started session of that id, unchanged but for the tokens, under its own document id, or changes nothing. |
| LinkService.StorageModel.RejectSession | src/orcidlink/routers/linking_sessions.py:444-446 | Deletes one started session of that id if there is one, and nothing else. |
| LinkService.StorageModel.LinkingSessionsContinue | src/orcidlink/routers/linking_sessions.py:417-485 | Takes the protocol's accesses. A success answers with the options of the caller's session; that session moves to the completed ones with its options and exactly what ORCID granted. Rejects exactly linked ORCID ids; every other error leaves the sessions as they were. |
| LinkService.StorageModel.CreateLinkRecord | src/orcidlink/storage/storage_model_mongo.py:114-115 | Refused, with nothing changed, exactly when the unique index finds the user linked. |
| LinkService.StorageModel.FinishLinkingSession | src/orcidlink/jsonrpc/methods/linking_sessions.py:82-110 | Takes the protocol's accesses; adds the link of the caller's own session, with its tokens, created now, expiring with the tokens and retired an age from now, and deletes one session of that id; or leaves links and completed sessions alone. |
| LinkService.StorageModel.DeleteLinkingSession | src/orcidlink/jsonrpc/methods/linking_sessions.py:68-79 | Takes the protocol's accesses: the caller's session is gone before its token is revoked and stays gone if that fails. |
| LinkService.StorageModel.DeleteLinkingSessionInitial | src/orcidlink/storage/storage_model_mongo.py:132-136 | A manager's delete of one initial session of that id if there is one, as the protocol's one access. |
| LinkService.StorageModel.DeleteLinkingSessionStarted | src/orcidlink/storage/storage_model_mongo.py:138-142 | The same for a started session. |
| LinkService.StorageModel.DeleteLinkingSessionCompleted | src/orcidlink/storage/storage_model_mongo.py:144-148 | The same for a completed session; its token is not revoked. |
| LinkService.StorageModel.DeleteLink | src/orcidlink/jsonrpc/methods/delete_own_link.py:6-23 | Takes the protocol's accesses: succeeds exactly for the owner of a link whose token could be revoked, and otherwise changes nothing. |
| LinkService.StorageModel.DeleteLinkAsManager | src/orcidlink/jsonrpc/methods/delete_link.py:8-26 | The same without the owner check, for managers only. |
| LinkService.StorageModel.GetExpiredCompletedSessions | src/orcidlink/storage/storage_model_mongo.py:221-231 | At most 100 different expired sessions, and all of them when fewer are returned. |
| LinkService.StorageModel.RevokeBatch | src/orcidlink/jsonrpc/methods/manage.py:218-221 | Revokes the tokens up to the first refusal and nothing else. |
| LinkService.StorageModel.DeleteExpiredSessions | src/orcidlink/storage/storage_model_mongo.py:180-193 | In each collection a session is left exactly if it was there and expires after the clock read, unchanged; links and revocations are untouched. |
| LinkService.StorageModel.DeleteExpiredLinkingSessions | src/orcidlink/jsonrpc/methods/manage.py:211-224 | Takes the protocol's accesses; deletes exactly the sessions expired at the second clock read if every revocation works, and nothing if one fails; the revoked tokens are those of the batch up to the failure. |
| LinkService.BatchIsExpiredIff | src/orcidlink/storage/storage_model_mongo.py:221-231 | The batch is all that had expired exactly when that is at most 100 sessions. |
| LinkService.RevokedIsDeletedIff | src/orcidlink/jsonrpc/methods/manage.py:211-224 | Every session whose token a cleanup revokes is deleted; the two sets are equal exactly when at most 100 had expired and no expiry lies between the two clock reads. |
| LinkService.StorageModel.GetStats | src/orcidlink/storage/storage_model_mongo.py:379-450 | Counts active and expired sessions that add up to each collection, and the links of the last day, week and month. |
| LinkService.CleanupClearsStats | src/orcidlink/storage/storage_model_mongo.py:180-193 | At the instant of a cleanup's deletes the stats show nothing expired and the active counts unchanged. |
| LinkService.StorageModel.SaveLinkRecord | src/orcidlink/storage/storage_model_mongo.py:109-112 | Overwrites a link of that user; inserts nothing when there is none. |
| LinkService.StorageModel.RefreshTokenForLink | src/orcidlink/process.py:63-81 | Takes the protocol's accesses: succeeds exactly on a grant; the user's stored link then becomes the returned one, which holds the grant, is created at the second clock read, expires a session lifetime later and retires an age after the first clock read. Otherwise the links are unchanged. |
| LinkService.StorageModel.UsableRecord | src/orcidlink/process.py:36-41 | A link that has not retired is returned as it is and nothing changes; a retired one is returned refreshed, or fails exactly without a grant. What is returned is not retired when the age is not negative. |
| LinkService.StorageModel.LinkRecordFor | src/orcidlink/process.py:28-60 | By username or ORCID id: returns nothing exactly when nothing is linked, otherwise the record of a link with that key, refreshed if it has retired, and equal to a stored one; no linked username appears or disappears. |
| LinkService.StorageModel.RefreshTokens | src/orcidlink/jsonrpc/methods/manage.py:257-280 | A manager's refresh succeeds exactly for a linked user and with a grant; the link then holds the grant, a new creation and expiry date and the old retirement date, and its old token is revoked. |
| Strings.SplitJoin | src/orcidlink/translators/to_orcid.py:9 | Splitting joined parts gives the parts back when none holds the separator. |
| Strings.PadStrippedIff | src/orcidlink/translators/to_service.py:27-28 | Stripping leading zeros and padding to two undo each other exactly on two characters, or more without a leading zero. |
| Dates.PrintParseIff | src/orcidlink/translators/to_orcid.py:8-26 | A date string survives the trip to ORCID and back exactly when it has at most three parts and no leading zero after the first. |
| Dates.PrintParseIdempotent | src/orcidlink/translators/to_service.py:23-47 | After one trip every date of one to three parts stays as it is. |
| Dates.ParsePrintIff | src/orcidlink/translators/to_service.py:23-47 | An ORCID date survives printing and parsing exactly when it has no slash in a part, no day without a month, and padded parts. |
| Dates.ParsedDate | src/orcidlink/translators/to_orcid.py:8-26 | A date string parses exactly when it has one to three parts between slashes, and then to those parts, month and day padded with zeros to two characters. |
| Dates.PrintedDate | src/orcidlink/translators/to_service.py:23-47 | A printed date has the year, month and day in this order between slashes, month and day without leading zeros. |
| Contributors.TransformContributorSelf | src/orcidlink/translators/to_orcid.py:29-58 | One record per role, in order, under the owner's ORCID id. |
| Contributors.TransformContributors | src/orcidlink/translators/to_orcid.py:97-104 | The records of all contributors, in order. |
| Contributors.CollectSelfRoles | src/orcidlink/translators/to_service.py:196-206 | The roles, in order, of exactly the records whose path is the profile's. |
| Contributors.GroupContributors | src/orcidlink/translators/to_service.py:240-273 | One contributor per other credit name in the order of first credit, with the first record's ORCID id and all its roles in order. |
| Contributors.GroupIsGrouping | src/orcidlink/translators/to_service.py:240-273 | The record-by-record group-by meets that description. |
| Contributors.GroupingIsUnique | src/orcidlink/translators/to_service.py:240-273 | Only one list of contributors meets it. |
| Contributors.RolesAreConserved | src/orcidlink/translators/to_service.py:196-273 | Self roles and other roles together are as many as the records. |
| Contributors.ContributorsRoundTripIff | src/orcidlink/translators/to_orcid.py:29-104 | Contributors come back from ORCID as sent exactly when the others have different names, a role each and not the owner's ORCID id. |
| Works.PartitionExternalIds | src/orcidlink/translators/to_service.py:172-181 | Splits the ids into self DOIs and the rest, each in order. |
| Works.SentIdsPartition | src/orcidlink/translators/to_orcid.py:119-140 | A sent work has exactly one self DOI exactly when none of its other ids is one, and then DOI and ids come back. |
| Works.TransformWork | src/orcidlink/translators/to_service.py:137-298 | Each error with the exact condition under which it is the first; else every field: the one self DOI, all other ids, the date's parts, the credit name or else given and family name, the owner's roles, and the grouping of the others, in which no role is lost. |
| Works.ShownIff | src/orcidlink/translators/to_service.py:168-278 | A work can be shown exactly when journal, citation, description and profile name are there and one external id is a self DOI. |
| Works.TransformWorkSummary | src/orcidlink/translators/to_service.py:66-134 | Succeeds exactly when one external id and no other is a self DOI, even without a journal; shows that DOI, all the other ids, the other fields as they are and the date's parts. |
| Works.SummaryAgrees | src/orcidlink/translators/to_service.py:66-134 | A work and its summary are shown with the same title, date, DOI, ids and metadata. |
| Works.GetWorks | src/orcidlink/jsonrpc/methods/works.py:26-49 | Shows exactly the works this service put there, group by group and in order; fails exactly when one of those lacks a single self DOI, with the error of the first. |
| Works.TranslateWorkUpdate | src/orcidlink/translators/to_orcid.py:118-166 | Every field of the record sent, the work's DOI in front of the other ids with its https://doi.org URL, and the put code; fails exactly on a date of more than three parts. |
| Works.CreateWorkRecord | src/orcidlink/jsonrpc/methods/works.py:86-131 | A new work is sent as the same record as an update, without a put code. |
| Works.ExactRoundTripIff | src/orcidlink/translators/to_orcid.py:118-166 | A sent work comes back field for field with a name for its owner exactly when the profile has a name, the owner is the profile's, the others can be told apart, no other id is a self DOI, the date is normal and the name is the one to show; so unchanged exactly when it was sent with that name. |
| Works.NormalFormIff | src/orcidlink/translators/to_service.py:137-298 | A shown work sent back and shown again is the same exactly when its date is normal, which it is whenever the raw date parts hold no slash. |
| MigrationService.Database.InitializeV021 | src/boot/service_initialization.py:259-281 | Runs the 0.2.1 writes in order, to the end or the first that fails. |
| MigrationService.Database.InitializeV | src/boot/service_initialization.py:284-405 | Runs the 0.3.0 or 0.4.0 installation writes in order, to the end or the first that fails. |
| MigrationService.Database.MigrateV021ToV030 | src/boot/service_initialization.py:110-174 | Runs the upgrade's writes in order, the version last. |
| MigrationService.Database.PatchLinks | src/boot/service_initialization.py:194-202 | Replaces every link once, in the cursor's order, by itself with a retirement date. |
| MigrationService.Database.MigrateV030ToV040 | src/boot/service_initialization.py:177-256 | Runs the upgrade's writes in order, the version last. |
| MigrationService.Database.InitializeV041 | src/boot/service_initialization.py:507-515 | The 0.4.0 installation, then the upgrade to 0.4.1 if that succeeded. |
| MigrationService.Database.MigrateDb | src/boot/service_initialization.py:434-551 | Runs the plan the two versions call for to its end or first failing write. The answer is not required exactly when the recorded version is the service's and not 0.2.1, and then nothing changes; completed exactly when the pair is supported and the database is ready, and then the version is recorded; otherwise an error. |
| MigrationTheorems.VersionNeverAhead | src/boot/service_initialization.py:110-431 | After every prefix of every plan a recorded 0.3.0 means the four collections have validators of 0.3.0 or later, a recorded 0.4.0 or 0.4.1 those of 0.4.0. |
| MigrationTheorems.HistoryNeverAhead | src/boot/service_initialization.py:434-551 | The same after any series of migrations of any versions, each stopped anywhere. |
| MigrationTheorems.UpgradeRestarts | src/boot/service_initialization.py:177-256 | The upgrade to 0.4.0 stopped after any write and run again ends in the database of an uninterrupted run, in whatever orders the links are read. |
| MigrationTheorems.UpgradeResult | src/boot/service_initialization.py:177-256 | That database: every link has retires_at = created_at + age*1000 and is otherwise as before, as are the indexes and all other collections. |
| MigrationTheorems.Upgrade021Result | src/boot/service_initialization.py:110-174 | A complete upgrade to 0.3.0 keeps the links and their indexes under a new validator, drops the old sessions, creates the three new collections without an index and changes nothing else. |
| MigrationTheorems.InstallResult | src/boot/service_initialization.py:284-405 | A complete installation of 0.3.0 or 0.4.0 had none of its five collections before it, and leaves exactly those, with validators and the unique username index, beside what was there. |
| MigrationTheorems.Install021Result | src/boot/service_initialization.py:259-281 | A complete installation of 0.2.1 adds two indexes that are not unique and the description to what was there. |
| MigrationTheorems.RestartIff | src/boot/service_initialization.py:110-431 | For every path, running a stopped migration again reaches the intended database exactly when the number of writes done is restartable; an installation from 0.3.0 on stopped in the middle is stuck. |
| MigrationTheorems.CompletedIsAt | src/boot/service_initialization.py:434-551 | A completed migration to 0.3.0 or later records that version and leaves exactly its four validators. |
| MigrationTheorems.InstallsAndUpgradesAgree | src/boot/service_initialization.py:434-551 | Installed or upgraded step by step, databases of one version have the same four validators and recorded version. |
| MigrationTheorems.CompletesIff | src/boot/service_initialization.py:434-551 | Every supported migration completes exactly when its database is ready: bare for an installation, with the links and no session collections for 0.3.0, with all four for 0.4.0. |
| MigrationTheorems.AnswerIff | src/boot/service_initialization.py:434-551 | The same about the answer as a function of versions, database and writes done: each of the three answers with its exact condition, without reference to the plan. |
| MigrationTheorems.InstallsAndThenUpgrades | src/boot/service_initialization.py:434-551 | Every version installs on an empty database, and the next upgrade goes through: from 0.3.0 and 0.4.0 whatever way they were reached, from 0.2.1 if no session collections were there before. |
| MigrationTheorems.StepByStep | src/boot/service_initialization.py:434-551 | 0.2.1 installs on an empty database, and the upgrades to 0.3.0, 0.4.0 and 0.4.1 then all go through and end with the validators of 0.4.0. |
| MigrationTheorems.UniqueIndexIff | src/boot/service_initialization.py:269-270 | The username index is unique exactly on databases first installed at 0.3.0 or later; upgrades never change it. |
| MigrationTheorems.SecondRun | src/boot/service_initialization.py:447-526 | A second run changes nothing; it is not required from 0.3.0 on and refused for 0.2.1. |
| MigrationTheorems.UnsupportedChangesNothing | src/boot/service_initialization.py:474-545 | An unsupported pair of versions is an error that changes nothing; a supported one fails only at a write. |
| SchemaExtraction.Extractor.EvaluateSchema | src/misc/extract-schema.py:12-35 | Adds to the collected schemas exactly the names reachable from what the schema refers to, each bound to its component, or fails as the specification does; a schema that evaluates is well-formed. |
| SchemaExtraction.Extractor.AddSchema | src/misc/extract-schema.py:37-39 | Likewise adds the name and everything reachable from it. |
| SchemaExtraction.Extract | src/misc/extract-schema.py:5-48 | A success is exactly the components reachable from the name; an error other than the stack's is about something reachable that is missing or malformed in that way. |
| SchemaExtraction.RefTypeNameIff | src/misc/extract-schema.py:41-43 | A reference names exactly what follows its last slash, and has no name exactly without a slash. |
| SchemaExtraction.RefersIffPart | src/misc/extract-schema.py:12-35 | A schema refers, in the sense of the keywords ref, properties, items, allOf and oneOf wherever the script looks, to exactly what the parts chosen by its first keyword refer to. |
| SchemaExtraction.AddFailsWithCause | src/misc/extract-schema.py:12-46 | Whatever fails but for the stack has its cause among what is reachable: a missing component, an object without properties, an array without items, or a reference without a slash. |
| SchemaExtraction.AddCollects | src/misc/extract-schema.py:12-46 | What is collected is what paths of references lead to. |
| SchemaExtraction.AddSucceeds | src/misc/extract-schema.py:37-39 | A stack that is enough, found by the lexicographic measure of the components not yet on the way and the schema in hand. |
| SchemaExtraction.CycleFails | src/misc/extract-schema.py:37-39 | A name on a cycle of references fails with any stack. |
| SchemaExtraction.ExtractsIff | src/misc/extract-schema.py:12-46 | Some stack is enough exactly when everything reachable exists, is well-formed and is on no cycle. |
| FindLinks.Search.AugmentWithTimeFilter | src/orcidlink/jsonrpc/methods/manage.py:98-120 | Of the bounds given, the last in the code's order replaces what the filter had for the field. |
| FindLinks.FindLinks | src/orcidlink/jsonrpc/methods/manage.py:123-164 | Returns the first 100 links that match the filter, in stored order. A link the query asks for is missing only if over 100 match; one it does not ask for is there only if the filter is not exact. |
| FindLinks.GetLinkRecords | src/orcidlink/storage/storage_model_mongo.py:71-99 | Reads the matching links in stored order, up to 100. |
| FindLinks.NeverMisses | src/orcidlink/jsonrpc/methods/manage.py:98-139 | Every link the query asks for passes the filter, although bounds overwrite each other. |
| FindLinks.ExactIff | src/orcidlink/jsonrpc/methods/manage.py:98-139 | The filter passes exactly what is asked for in just these cases: per time field one bound, or a strict and a stricter inclusive bound of one direction; and no part of a name beyond what equality implies. |

## Left out

- HTTP, JSON-RPC, cookies, redirects, logging and configuration: ORCID is an environment that grants fresh tokens or fails.
- Mongo beyond single documents (cursors, client sessions, write concerns, document validation): a find, insert, update or delete is one access, and a validator is known by the version of its schema.
- Pydantic validation and the enums of roles, id types and relationships: taken to succeed; the values are strings.
- The fields of a contributor record that neither translator reads (uri, host, sequence).
- Whether a token is still valid: after a refresh expires_at follows the session lifetime, not the token's expires_in, as the code has it, so no validity claim rests on it.
- Rejection of expired sessions, and revocation on the already-linked rejection or a manager's delete: the service does neither.
- LinkService.StorageModel.CreateLinkingSession: the session id and the document id are parameters required to be unused, drawn in the same access as the insert.
- LinkService.StorageModel.LinkRecordFor: the functions for a username and for an ORCID id are one method with a key.
- LinkService.StorageModel.RejectSession: like StoreTokens, KeepTokens, ExchangeCode, StoreLink, LinkSession, DeleteFinished and RevokeAndDelete, a part of one handler in the source, split off to keep each proof small.
- MigrationService.Database.InitializeV: the installations of 0.3.0 and 0.4.0 are one method, as they differ only in the version.
- MigrationService.Database.MigrateDb: no timestamps, messages or list of actions, no description document without a version, and no other process writing meanwhile.
- FindLinks.FindLinks: no sort, offset or limit; the cap of 100 results is there.
- SchemaExtraction.Extract: no property names, no order of the printed schemas; the stack is counted in calls of the two recursive functions.
- The profile projection, affiliations, error tables and helper scripts: field copying and finite tables.
- The rest of create_work, save_work and delete_work: network calls.
