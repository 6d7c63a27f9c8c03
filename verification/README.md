# Verification of dispatch, directory fence, build execution and release tooling

Dafny models of the parts of the repository where several transactions, failures or long histories decide
whether the code is right, and proofs of what those parts promise. `dafny verify dfyconfig.toml` checks all of it.

- **Outbox and dispatcher.** `Text`, `Json` and `Payload` model the payloads: JSON text as `json.dumps` writes it and
  `json.loads` reads it back, sorted keys, the payload check, and what a `jsonb` column keeps of a value; `Storage` is
  about validating what the column has kept. `Ordering`, `Serving`, `Outbox` and `Rounds` give the queries of a
  publisher round and the round as a function of the state it starts in. `Dispatcher` is the code with its loops,
  counters and tables changed in place; its methods are proved equal to those functions. `Contention` is the same round
  with other transactions committing between any two of its queries. `Draining` is about consecutive rounds, between
  which others may do anything, and `Fairness` about how long a tenant waits. `Publishers` has several publishers and
  callers at once, and the modules that reschedule, re-arm and delete rows: transactions, locks, rollbacks and crashes,
  and a broker whose log survives them. `PublisherInvariant` has what every step keeps, and `Delivery` what every run
  guarantees.
- **Directory revision fence.** `DirectoryTables` has the tables of revision 0007 and its statement triggers one
  statement at a time, on a class that rewrites rows and revisions. `DirectoryFence` interleaves READ COMMITTED
  transactions with row locks, advisory locks and the triggers, row by row and scope by scope.
- **Previews and build execution.** `BuildTables` has the keys and triggers of 0005d and 0006, `BuildHistory` their
  concurrent transactions, `BuildFreeze` what stays fixed and what relies on it, `BuildLimits` and `StepRenames` where
  the triggers alone are not enough. `PreviewLife` is about drafts, their revisions and their live previews.
- **User names.** `Usernames` is the collision-resolving mapping of 0015.
- **Release notes.** `ReleaseNotes` finds headings exactly where the regular expressions match and models the
  commands; `ReleaseLaws` has the round trip.
- **Object storage probe.** `Probe` runs the probe against a remote whose every call may fail, succeed, or be carried
  out later.

Time, identifiers, locks held by others, the broker's and the remote's answers are inputs and may be anything. `hide`
statements keep definitions out of proofs that do not need them.

## What turned out to need a condition

- *A digest before the freeze.* `submission_scope` asks for `content_digest IS NOT NULL`, not for a status
  (0006, line 376). A digest on a BUILDING preview would let a step be accepted and the plan be changed after it.
  `BuildFreeze.AgreementPersists` therefore assumes that no write leaves a digest on a BUILDING header, as the
  application does (`backend/app/modules/builds/previews.py`, lines 718-719), and
  `BuildLimits.AgreesIffDigestsSettle` says that this is exactly what is needed: from any other state one accepted
  transaction that itself keeps the rule ends in permanent disagreement.
- *Renaming steps.* `id` is not among the immutable columns of `execution_step` (0006, lines 389-392). Every UPDATE of
  ids that the triggers and keys accept keeps the parent links a forest if and only if no submission and unit has two
  steps with different parents (`StepRenames.SafeIffOneParent`). The chains from campaign to ad group to ad that the
  application expands do have such steps, but the application renames none. An UPDATE that renames only steps without
  children is always safe, and one to new ids can rename no others. What fails is to hand on freed ids: a childless
  step takes its grandparent's (`RenamingTwoBreaksForest`), or the children of two parents take those parents' ids
  crosswise (`RenamingCrosswiseBreaksForest`); `ChainBreaks` and `PairsBreak` are the smallest cases.
- *Inserting a preview without the draft's lock.* `obsolete_draft_previews` does not see an uncommitted preview. The
  application inserts under the draft's row lock. Wherever a live preview has been inserted without it, four more steps
  that follow all rules leave it at an old revision (`PreviewLife.UnlockedInsertBreaksCurrent`).
- *One slot.* With a single slot left a due expansion takes it (`Rounds.OrdinaryProgress`).
- *Sending once.* A row is sent again after a transaction has sent it and then not committed
  (`Delivery.CrashSendsAgain`), after a send that failed although the message got through
  (`Delivery.AmbiguousSendsAgain`), and whenever a module puts a published row back to `published_at = None`
  (`Delivery.RearmSendsAgain`), as the repair and retry paths of the application do in normal operation, for instance
  `backend/app/modules/builds/preview_tasks.py`, lines 134-138. Without the first two it is sent at most once, and once
  more for each re-arming (`Delivery.SentOncePerArming`). A rollback of a caller, or of a round that has sent nothing,
  is not a failure.
- *One attempt in a drain.* When all rounds start within two seconds, a row is attempted twice only if somebody makes it
  due again between them (`Draining.NoRowTwice`); then it is attempted whenever the round reaches it
  (`Draining.AttemptedIffReached`).
- *Calls that agree.* Calls for one key return one id exactly until their row is deleted
  (`Delivery.CallsAgreeUntilDeleted`), which the application does with unpublished rows when a connection is removed
  (`backend/app/modules/accounts/connections.py`, lines 689-705). An equal call after that is committed with another id
  (`Delivery.CallAfterDeletion`).
- *Equal calls.* The payload column is `jsonb`, which keeps numbers as decimals without exponents and zero without a
  sign. A float of `1e16` or more in magnitude comes back as an integer and `-0.0` as `0.0`, and then the sorted texts
  differ: an equal call is answered with `dispatch_key_conflict` exactly if its payload holds such a number
  (`Delivery.RepeatedCallMatches`, `Payload.LargeIsAccepted`).
- *Payloads that are never sent.* A payload is validated again before it is sent, as the column has kept it. Large
  floats are longer there: a row of an accepted call can be sent exactly if its payload still fits 16384 bytes
  (`Delivery.AcceptedCanBeSent`), and otherwise it stays unpublished however often it is attempted
  (`Delivery.UnsendableStaysUnpublished`). A list of more than 52 times `1e308` is such a payload
  (`Storage.ManyAreRefusedLater`).
- *The bound of 300 seconds* on the backoff never applies (`Outbox.BackoffRange`).

## Model

| member | source | states |
|---|---|---|
| Text.DecimalRoundTrip | scripts/prepare_release.py:19-39 | `int` of a written number is the number again, so numerals of different numbers differ |
| Json.LoadsUndoesDumps | backend/app/jobs/outbox.py:87-94 | reading what `json.dumps` wrote gives the value back, for every JSON value of strings of Unicode scalar values, integers, finite floats, lists and objects with distinct keys, at any depth |
| Payload.SortKeysSame | backend/app/jobs/outbox.py:140-142 | sorting the keys at every level makes two values equal exactly when they are the same up to the order of keys |
| Payload.SortedDumpsDecide | backend/app/jobs/outbox.py:137-142 | the sorted serialisation is injective up to key order: two payloads serialise alike if and only if they are structurally the same, so the conflict test decides equality |
| Payload.ValidateIsSnapshot | backend/app/jobs/outbox.py:60-94 | validation either fails or returns an equal snapshot, hence is idempotent; it accepts exactly the objects that pass the check and whose encoding fits 16384 bytes |
| Payload.StoredMatches | backend/app/jobs/outbox.py:129-142 | a payload read back from its column serialises like the one that was stored exactly if that holds neither a float of 1e16 or more in magnitude nor a negative zero |
| Payload.LargeIsAccepted | backend/app/jobs/outbox.py:82-94 | such a payload is accepted: `{"x": 1e16}` validates and does not come back as the same value |
| Storage.AcceptedAgain | backend/app/jobs/outbox.py:237-239 | an accepted payload is accepted again as its column has kept it exactly if it still fits 16384 bytes there, and always if it lasts |
| Storage.SameAccepted | backend/app/jobs/outbox.py:60-94 | payloads that are the same up to key order have encodings of the same length and are accepted together |
| Storage.ManyAreRefusedLater | backend/app/jobs/outbox.py:82-94 | a list of `n` times `1e308`, 1 to 2047, is accepted, and accepted again once stored exactly if `n` is at most 52 |
| Ordering.AscendingUnique | backend/app/jobs/outbox.py:166-169 | an ORDER BY with the id as last key has one result: two ascending lists of the same ids are equal |
| Outbox.BackoffRange | backend/app/jobs/outbox.py:251-253 | after any failed attempt the delay is between 2 and 256 seconds and the bound of 300 never applies |
| Serving.PlanSplit | backend/app/jobs/outbox.py:194-262 | serving a list of tenants is serving any front of it and then, with the attempts that are left, the rest |
| Serving.PlanTotal | backend/app/jobs/outbox.py:188-262 | attempts never exceed the limit |
| Rounds.BatchRows | backend/app/jobs/outbox.py:204-232 | a tenant's records are its own unlocked due rows, each once |
| Rounds.BatchExpansion | backend/app/jobs/outbox.py:214-223 | a due expansion, the earliest, comes first and is the only one |
| Rounds.BatchOrdinary | backend/app/jobs/outbox.py:224-232 | ordinary rows are taken in order of (available_at, id) without gaps, and all of them unless the slots are used up |
| Rounds.OrdinaryProgress | backend/app/jobs/outbox.py:203-232 | a tenant with due ordinary rows gets one attempted if and only if it has two slots or no due expansion |
| Rounds.RoundShape | backend/app/jobs/outbox.py:186-262 | a round attempts at most the limit, each row once, only unlocked due rows; each served tenant is a different unlocked one with a due row and gets its batch for one to five slots |
| Rounds.NextPage | backend/app/jobs/outbox.py:159-176 | a page read in the middle of a round, from tables that the round has changed, continues the order that the round began with |
| Rounds.FullPageIsEnough | backend/app/jobs/outbox.py:160-176 | without contention serving a full page uses the whole limit |
| Rounds.OutcomeConcat | backend/app/jobs/outbox.py:194-262 | serving two lists of tenants with different rows one after the other leaves the state of serving them together |
| Rounds.MessagesCountPublished | backend/app/jobs/outbox.py:233-256 | as many messages are sent as rows become published |
| Rounds.MessagesCarryRows | backend/app/jobs/outbox.py:237-248 | every message is of an attempted row that was sendable and carries its id, tenant, actor, task, registered queue and unchanged payload |
| Rounds.AttemptConserves | backend/app/jobs/outbox.py:233-256 | no row is lost or added; attempts grow by one exactly on attempted rows; each of those is published or due no sooner than two seconds later; all else is unchanged |
| Dispatcher.Dispatcher.RegisterTask | backend/app/jobs/tasks.py:20-46 | refuses bad names and queues and a second queue for a name; otherwise adds the mapping and keeps all others |
| Dispatcher.Dispatcher.Enqueue | backend/app/jobs/outbox.py:97-144 | the four outcomes, each if and only if its condition; a success finds or adds the one row of (tenant, key), and an equal call succeeds again exactly if the payload lasts in its column; a failure changes no row, and a refused task or payload no cursor either; keys stay unique and every tenant with a row keeps a cursor |
| Dispatcher.Dispatcher.Matches | backend/app/jobs/outbox.py:137-142 | comparing sorted serialisations decides whether task, actor and payload are the same |
| Dispatcher.Dispatcher.InsertOrFind | backend/app/jobs/outbox.py:110-144 | on conflict nothing is inserted and the stored row decides |
| Dispatcher.Dispatcher.AttemptBatch | backend/app/jobs/outbox.py:233-256 | attempting records in turn attempts exactly that set, sends their messages in order and counts them |
| Dispatcher.Dispatcher.ServePage | backend/app/jobs/outbox.py:194-262 | serving a page in place equals the plan for it from the state at its start |
| Dispatcher.Dispatcher.ServeRound | backend/app/jobs/outbox.py:159-262 | the pages, each read from the changed tables, together serve the plan that the starting state determines; at most ten are read, and exactly one without contention |
| Dispatcher.Dispatcher.Flush | backend/app/jobs/outbox.py:179-263 | a limit below one is refused and changes nothing; otherwise the result is the number of rows that became published |
| Dispatcher.Dispatcher.Drain | backend/app/jobs/tasks.py:59-75 | the total is the number of rows published in each round, summed over the rounds; each round starts where other transactions have left the tables after the one before; the drain ends after an empty round, a used-up time budget or the last round |
| Contention.Round | backend/app/jobs/outbox.py:147-262 | while other transactions commit between any two queries, a round still makes at most the limit of attempts, none of a row twice, and visits at most ten pages of tenants; the messages sent are those of its visits in order, and the result is the number of attempted rows that are published at the end |
| Contention.RoundLimits | backend/app/jobs/outbox.py:194-203 | whatever others commit, no tenant is visited twice and none gets more than five attempts |
| Contention.VisitRecords | backend/app/jobs/outbox.py:204-232 | although others may commit between its two queries, a visit takes due rows of its tenant, each once, at most as many as it has slots, and only the first can be an expansion |
| Contention.UnderwayNext | backend/app/jobs/outbox.py:194-260 | one more visit, between commits of others, leaves all earlier visits as done as they were, with their rows attempted once and their cursors moved |
| Draining.PublishedApart | backend/app/jobs/tasks.py:68-75 | two rounds of a drain publish the same row only if it was made unpublished between them, so that otherwise the total counts every row once |
| Draining.NoRowTwice | backend/app/jobs/tasks.py:68-75 | if every round starts less than two seconds after the drain began, no row, old or new, is attempted twice, whatever the broker does, whatever is locked and whatever others commit between the rounds, unless they make an attempted row due again |
| Draining.AttemptedIffReached | backend/app/jobs/outbox.py:194-262 | a round attempts a row exactly if it comes to the row's tenant with attempts left and finds the row in its batch; so a row that is made due again between rounds is attempted again whenever the plan reaches it |
| Draining.RearmedIsAttemptedAgain | backend/app/jobs/tasks.py:68-75 | for instance the only due row is always attempted, whoever made it due |
| Draining.SmoothRound | backend/app/jobs/tasks.py:71-74 | with an accepting broker and no contention a round takes exactly what it publishes off the due rows, and publishes nothing only if nothing was due |
| Fairness.RoundOvertaken | backend/app/jobs/outbox.py:163-171 | a round that passes over a due tenant moves at least ceil(limit/5) cursors from before it behind it and none the other way |
| Fairness.BoundedWait | backend/app/jobs/outbox.py:163-262 | a tenant that stays due with k cursors before its own is served within floor(k / ceil(limit/5)) + 1 rounds, while rows may change in any way between rounds |
| PublisherInvariant.NextKeeps | backend/app/jobs/outbox.py:116-259 | every step of every publisher, caller or module keeps the invariant: disjoint locks, unique keys, messages that carry their rows, published rows that were sent, sends and re-armings that account for what is published |
| Delivery.OncePerRound | backend/app/jobs/outbox.py:204-256 | a row that a transaction has attempted is not due for it again, so its queries do not return it a second time, unless it has set the row's time itself |
| Delivery.NoSharedRow | backend/app/jobs/outbox.py:204-213 | in every interleaving no two open rounds hold the same row |
| Delivery.PublishedWasSent | backend/app/jobs/outbox.py:233-256 | a committed published row was handed to the broker, and every message there carries its own row, crashes and re-armings included |
| Delivery.SentOncePerArming | backend/app/jobs/outbox.py:233-256 | in runs in which no transaction ends uncommitted after a send and no send is ambiguous, each row is sent successfully at most once, and once more for each time that it was re-armed |
| Delivery.SentAtMostOnce | backend/app/jobs/outbox.py:233-256 | so a row that nobody re-arms is sent at most once, rollbacks included that have sent nothing |
| Delivery.CrashSendsAgain | backend/app/jobs/outbox.py:192-263 | after a send and an end without a commit, the next round can lock and send the same row: delivery is at least once |
| Delivery.AmbiguousSendsAgain | backend/app/jobs/outbox.py:237-253 | after a send that failed although the message got through, a later round sends the row again |
| Delivery.RearmSendsAgain | backend/app/modules/builds/preview_tasks.py:134-138 | a module that re-arms a published row makes the next round send it again, although nothing has failed |
| Delivery.CallsAgree | backend/app/jobs/outbox.py:106-144 | over whole runs all successful calls with one (tenant, key) return one id, unless one of their rows has been deleted; calls with one id agree on task, actor and stored payload; and the row, unless deleted, and its tenant's cursor are there |
| Delivery.CallsAgreeUntilDeleted | backend/app/jobs/outbox.py:106-144 | two committed calls with one (tenant, key), the second one's row being there, have one id if and only if the first one's row has not been deleted |
| Delivery.CallAfterDeletion | backend/app/jobs/outbox.py:110-144 | in every reachable state at rest, an equal call whose row has been deleted is accepted with a new id, so that both calls are committed with different ids |
| Delivery.UnpublishedCanBeDeleted | backend/app/modules/accounts/connections.py:689-705 | every committed call comes to that if a module deletes its row, as long as the row is unpublished |
| Delivery.AcceptedCanBeSent | backend/app/jobs/outbox.py:237-248 | the row of a committed call can be sent exactly if its payload, as the column keeps it, still fits 16384 bytes; always if it lasts |
| Delivery.UnsendableStaysUnpublished | backend/app/jobs/outbox.py:237-256 | a row that cannot be sent is never published and nothing is ever sent for it |
| Delivery.RepeatedCallMatches | backend/app/jobs/outbox.py:129-144 | while its row is there, a committed call can be repeated successfully exactly if its payload lasts in the column |
| Delivery.TakenKeyChangesNoRow | backend/app/jobs/outbox.py:126-144 | a call for a taken key changes no row, and succeeds with the row's id exactly when the row matches |
| Delivery.NoRowInvisible | backend/app/jobs/outbox.py:110-171 | every due row's tenant is a candidate of the scheduler |
| Delivery.NothingLost | backend/app/jobs/outbox.py:116-256 | over every run committed rows keep what they carry and stay until a module deletes them, which it can only while they are unpublished; a published row changes only in its time unless it is re-armed; and the broker's log only grows |
| DirectoryTables.GrantChangeExact | backend/app/alembic/versions/0007_directory_revision.py:136-151 | the scopes of the changed grant tuples are exactly those whose fenced view changed |
| DirectoryTables.UpdateDifference | backend/app/alembic/versions/0007_directory_revision.py:144-151 | the symmetric difference of an UPDATE's transition tables is the symmetric difference of the whole table, even when keys move |
| DirectoryTables.AccountUpdateExact | backend/app/alembic/versions/0007_directory_revision.py:152-161 | the scopes joined to changed account tuples are exactly those whose fenced view changed |
| DirectoryTables.Directory.Touch | backend/app/alembic/versions/0007_directory_revision.py:20-40 | each touched scope with parents is raised by one, from zero when it has no row, and no other |
| DirectoryTables.Directory.UpdateGrants | backend/app/alembic/versions/0007_directory_revision.py:144-151 | raises a scope's revision by one if its fenced view changed and by zero otherwise, however many rows it touched |
| DirectoryTables.Directory.InsertGrants | backend/app/alembic/versions/0007_directory_revision.py:136-139 | the same for an INSERT |
| DirectoryTables.Directory.DeleteGrants | backend/app/alembic/versions/0007_directory_revision.py:140-143 | the same for a DELETE |
| DirectoryTables.Directory.UpdateAccounts | backend/app/alembic/versions/0007_directory_revision.py:152-161 | the same for an UPDATE of accounts |
| DirectoryFence.GrantTriggerExact | backend/app/alembic/versions/0007_directory_revision.py:144-151 | under concurrency a grant trigger still selects exactly the scopes whose view, as the transaction sees it, the statement changed |
| DirectoryFence.AccountTriggerExact | backend/app/alembic/versions/0007_directory_revision.py:152-161 | and so does the account trigger, over the grants that the transaction sees when it fires |
| DirectoryFence.FireCoversGrant | backend/app/alembic/versions/0007_directory_revision.py:152-161 | the account trigger reaches the scope of every committed grant of a changed account |
| DirectoryFence.CommitKeepsAccounts | backend/app/alembic/versions/0007_directory_revision.py:69-135 | no other commit can add a grant to an account that a transaction has altered: the advisory locks exclude it, whatever the hash |
| DirectoryFence.CommitFences | backend/app/alembic/versions/0007_directory_revision.py:20-40 | a commit that changes a scope's fenced view raises its revision |
| DirectoryFence.SameRevisionSameView | backend/app/alembic/versions/0007_directory_revision.py:73-187 | fence safety: in every interleaving, two committed states with the same revision for a scope have the same fenced view of it, and revisions never fall |
| BuildHistory.NextKeeps | backend/app/alembic/versions/0005d_build_previews_freeze_bounded_advertising_previews.py:408-433 | every step of concurrent transactions keeps the invariant: children are written only under a shared lock on a BUILDING header, uncommitted writes of different transactions are apart, references hold, parents are older |
| BuildFreeze.WritesFreeze | backend/app/alembic/versions/0005d_build_previews_freeze_bounded_advertising_previews.py:416-431 | what a transaction may commit leaves a settled preview's children and header as they are, but for FROZEN to OBSOLETE |
| BuildFreeze.FrozenForever | backend/app/alembic/versions/0005d_build_previews_freeze_bounded_advertising_previews.py:408-457 | freeze under concurrency: once a header has left BUILDING, in every later state of every run its other columns and all eight child tables' rows are the same and its status has at most gone from FROZEN to OBSOLETE |
| BuildFreeze.AgreementPersists | backend/app/alembic/versions/0006_build_execution.py:371-411 | in every committed state each step's group is in its unit, its ad in that group, its material in the unit's drama snapshot, each reservation matches its submission's draft and its unit's drama and advertiser, and the previews behind them are settled |
| BuildFreeze.AncestryIsChain | backend/app/alembic/versions/0006_build_execution.py:408-411 | along parent links tenant, submission and unit stay the same and the insertion stamps strictly fall |
| BuildFreeze.ParentsFormForest | backend/app/alembic/versions/0006_build_execution.py:280-287 | in every reachable state walks along parent links repeat no step and are bounded, with multi-row inserts and leaf deletions |
| BuildLimits.AgreesIffDigestsSettle | backend/app/alembic/versions/0006_build_execution.py:371-411 | from a state without open transactions whose execution graph agrees with its plans, it agrees after every continuation that stores digests only on leaving BUILDING, if and only if no BUILDING preview has a digest already |
| BuildLimits.EarlyDigestBreaksAgreement | backend/app/alembic/versions/0006_build_execution.py:376-378 | from every state in which a BUILDING preview has a digest, one accepted transaction ends with a settled preview and a step whose group is in another unit |
| BuildLimits.EarlyDigestIsAccepted | backend/app/alembic/versions/0005d_build_previews_freeze_bounded_advertising_previews.py:424-433 | such states are reached: the triggers accept a new BUILDING preview with a digest |
| StepRenames.SafeIffOneParent | backend/app/alembic/versions/0006_build_execution.py:389-392 | in a forest, every accepted UPDATE of ids that renames each row once keeps the forest if and only if no two steps of one submission and unit have different parents |
| StepRenames.ReachedSafeIffOneParent | backend/app/alembic/versions/0006_build_execution.py:389-392 | the same for the steps of a tenant in every state that a run reaches |
| StepRenames.OneParentKeepsForest | backend/app/alembic/versions/0006_build_execution.py:389-392 | with one parent for each submission and unit, every accepted sequence of renames keeps the forest, also when it renames a row more than once |
| StepRenames.RenamingLeavesKeepsForest | backend/app/alembic/versions/0006_build_execution.py:389-392 | an UPDATE of the ids of steps without children, to any ids and however many, keeps the forest, and its foreign keys hold |
| StepRenames.RenamingToFreshKeepsForest | backend/app/alembic/versions/0006_build_execution.py:389-392 | an UPDATE of step ids to new ones is accepted by the foreign keys only if the steps have no children, and so keeps the forest |
| StepRenames.RenamingTwoBreaksForest | backend/app/alembic/versions/0006_build_execution.py:389-392 | in every forest in which a childless step has a grandparent, one UPDATE of two ids that the trigger and the keys accept closes a parent cycle |
| StepRenames.RenamingCrosswiseBreaksForest | backend/app/alembic/versions/0006_build_execution.py:389-392 | where two roots of one submission and unit have a childless child each, one accepted UPDATE of four ids puts either child under the other |
| PreviewLife.TriggerKeepsCurrent | backend/app/alembic/versions/0005d_build_previews_freeze_bounded_advertising_previews.py:434-443 | after the trigger every preview of the draft that is still live is at the new revision |
| PreviewLife.LivePreviewUnique | backend/app/alembic/versions/0005d_build_previews_freeze_bounded_advertising_previews.py:80-82 | in every committed state each BUILDING or FROZEN preview is at its draft's revision, and a draft has at most one |
| PreviewLife.UnlockedInsertBreaksCurrent | backend/app/modules/builds/previews.py:148-153 | from every state whose only open transaction has inserted a live preview without the draft's lock, another one can revise the draft and both can commit, by the rules, and the live preview is left at an old revision |
| PreviewLife.UnlockedInsertIsAccepted | backend/app/modules/builds/previews.py:148-153 | nothing but the lock prevents such an insert: the tables accept it for every draft without a preview at its revision |
| Usernames.CandidatesDiffer | backend/app/alembic/versions/0015_username_auth.py:33-35 | candidates with different counters differ, whatever base and identifier, also where the suffix is longer than a name |
| Usernames.TriesBounded | backend/app/alembic/versions/0015_username_auth.py:31-36 | at most one more candidate fails than names are taken, so the search ends |
| Usernames.ChooseName | backend/app/alembic/versions/0015_username_auth.py:25-36 | the loop finds the first free candidate within used+1 tries |
| Usernames.Mapping | backend/app/alembic/versions/0015_username_auth.py:14-38 | yields the identifiers in sorted order, each with the first candidate that is free after those before it |
| Usernames.NamesDistinct | backend/app/alembic/versions/0015_username_auth.py:17-38 | no two users get the same name |
| Usernames.NamesFit | backend/app/alembic/versions/0015_username_auth.py:25-38 | every name has at least 3 characters from a-z, 0-9, underscore, dot and dash, and those of the first ten to the thirty users have at most 64 |
| Usernames.CandidateFits | backend/app/alembic/versions/0015_username_auth.py:28-35 | a candidate has at most 64 characters exactly if at most ten to the thirty others were tried before it |
| Usernames.AdminName | backend/app/alembic/versions/0015_username_auth.py:18-29 | the holder of admin@example.com, or else the only holder in another letter case, sorts first and is named "admin" |
| Usernames.OrderIndependent | backend/app/alembic/versions/0015_username_auth.py:18-25 | the same users in another order get the same names |
| Usernames.IdTextOrder | backend/app/alembic/versions/0015_username_auth.py:23 | sorting by `str(row.id)` is sorting by the identifiers |
| ReleaseNotes.FormatParses | scripts/prepare_release.py:19-39 | parsing a formatted version gives its numbers back |
| ReleaseNotes.Search | scripts/prepare_release.py:26-30 | finds the first position at or after the given one where a heading matches, and none when there is none |
| ReleaseLaws.BumpIsGreater | scripts/prepare_release.py:33-39 | every bump of a valid version is a valid version that is greater |
| ReleaseLaws.SearchReleased | scripts/prepare_release.py:64-69 | in an updated file the new version and the first version are found at the new heading, and every other version where it was, shifted |
| ReleaseLaws.ReleaseRoundTrip | scripts/prepare_release.py:42-88 | after a successful update the current version is the new one and its body is the stripped Latest Changes text and a newline |
| ReleaseLaws.OlderBodiesUnchanged | scripts/prepare_release.py:42-88 | the extracted body, or the error, of every other version is what it was |
| ReleaseLaws.ReleasedVersions | scripts/prepare_release.py:64-69 | an update puts its version in front of the list of heading versions and changes nothing else in it |
| ReleaseLaws.PrepareDescends | scripts/prepare_release.py:91-100 | with descending headings a bump succeeds exactly for a file with its header, a version and non-blank changes, is never refused as a duplicate or not greater, and keeps the headings descending |
| ReleaseLaws.HistoryDescends | scripts/prepare_release.py:91-100 | the same through any history of releases and of edits that keep the headings |
| Probe.Receive | scripts/check-r2.py:247-256 | reading the stream with an early stop accepts exactly the complete answers with status 200 and the payload's length and digest |
| Probe.Forward | scripts/check-r2.py:181-261 | the six stages stop at the first that does not verify; with an upload id and no failed PUT or complete nothing is in flight and upload and object are as the stages say |
| Probe.CleanUp | scripts/check-r2.py:262-295 | a clean end means that neither upload nor object remains or can appear, and that deletion and absence were verified last |
| Probe.ProbeObject | scripts/check-r2.py:155-305 | "verified" is sound for every pattern of outcomes; "passed" holds exactly when all eight steps were verified in order, and then every answer was the one required |

## Left out

- Redis admission, Celery, SQLAlchemy, query plans and index choices: other systems; locks and snapshots are step rules here.
- `isinstance` refusals of a `bool` or non-integer limit and of non-string names and keys: the types exclude them.
- Floats: a finite float stands for its `repr`, which Python reads back as the same float; infinities and NaN are among the values that `Payload.Checked` refuses. The order of keys in a `jsonb` value is not modelled, and neither is that the column refuses text with a NUL character, on which the insert would fail.
- `json.loads` on text that `json.dumps` does not write: only read on its own output.
- Publishers: which due rows of a locked tenant a round takes is free there; the limits and the order are in `Rounds`, `Dispatcher` and `Contention`. What makes a module reschedule, re-arm or delete a row is not modelled: it may do so at any time to a row that nobody else holds.
- RoundShape: the plan of a round is determined by the state at its start only when nothing else commits before its last query; the limits under contention are in `Contention.Round`.
- NextPage: only the round itself has changed the tables since it began; otherwise the next page is what its query returns, which is all that `Contention.Round` uses.
- ServePage: nothing else commits while the page is served.
- ServeRound: nothing else commits between its queries; rows and cursors that others hold throughout are skipped.
- Flush: nothing else commits during the round; `Contention.Round` counts the rows that the round itself has published.
- Drain: others commit between its rounds, not during one.
- BoundedWait: assumes that no cursor is added while the tenant waits, since a new cursor sorts first, that cursor times of a round are later than all recorded ones, and that no lock is held by others.
- TRUNCATE, cascades from business centres and connections, and upserts on the grant table of 0007: they restart or repeat revisions. Accounts are neither inserted nor deleted in `DirectoryFence`, nor are their key columns renamed, for which the lock function takes the locks of the old and the new key; parent rows stay.
- SameRevisionSameView: says nothing about scopes whose parent rows are deleted, because the revision row goes with them.
- Unique and check constraints besides primary keys, and foreign keys to tables that are not modelled (0005d, 0006): they can refuse runs that the model accepts. The runs of `BuildLimits` use new ids, dramas and ordinals; where the execution graph agrees with its plans, a BUILDING preview has no submission, so that the new one is its first.
- A step's distribution and its armed request (0006, lines 393-395 and 405-407): single-row checks that nothing else depends on.
- FrozenForever: the header's key is not renamed while it is BUILDING. Renaming the key columns of a child row is deleting it and inserting it again, as the same trigger allows it.
- AgreementPersists: assumes that no write leaves a digest on a BUILDING header, because it is false otherwise (`BuildLimits.EarlyDigestBreaksAgreement`).
- ParentsFormForest: step ids are not renamed within a run; `StepRenames` says from which of its states that would be safe.
- LivePreviewUnique: assumes what the application does: previews are inserted under the draft's lock at its current revision and keep it while BUILDING.
- Mapping: characters outside ASCII stand for their own lower-case forms; only those with ASCII letters in their lower-case forms matter and are modelled.
- NamesFit: beyond ten to the thirty users a counter could make a suffix longer than 64 characters.
- Release notes: digits are ASCII, numbers have any size, the date is any ten digits and dashes; reading and writing the file and the Typer commands are not modelled.
- Probe: signing URLs only succeeds or fails; configuration checks, logging and closing of clients are not modelled. The remote makes one attempt per call, as the client is configured to.
- Other migrations, the frontend, the services that call these parts, and the scripts that measure them: plumbing or single-row checks.
