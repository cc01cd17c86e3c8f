# Dokploy Migrator, modelled and proved in Dafny

The migrator moves Dokploy resources from one server to another by rewriting the
`serverId` of rows in Dokploy's database. An operator first asks for a dry-run, reviews it,
submits a subset of its rows for apply, and may later roll the same rows back. Jobs, their
event logs and their reports live in a durable store. This project models that logic and
proves what it keeps, over unbounded tables, plans, jobs and runs.

`dafny verify dfyconfig.toml` checks everything.

## How the model is built

| files | what they model |
|---|---|
| `Text`, `Sorting`, `Wrappers`, `Model` | trimming and byte order, stable sorting, results, the plan values |
| `Sql`, `Rendering` | the statements an apply sends: their text, a lexer and parser for it, and its meaning under three-valued logic |
| `Tables`, `Retarget` | the Dokploy database, guarded moves, transactions, apply and rollback |
| `Listing`, `Tallies`, `DryRun`, `Listed`, `Counts` | supported tables, resource listings, dry-runs, what they show row by row and in which order, counts by server |
| `Adapter` | the database adapter as a class, statement by statement |
| `PlanSubset` | the check that a submitted plan is a reviewed subset |
| `Store`, `History`, `JobServer`, `TimeText` | the job store as a class, the listing, paging and retention, the HTTP handlers over it, stored times |
| `Machine` | Plan, Apply and Rollback as steps of single durable statements that interleave, fail and stop |
| `Safety`, `Authority`, `Audit`, `Reports`, `Retention`, `Chain`, `Provenance` | what every run of that machine keeps |
| `Traces` | what one whole operation leaves in the store, written out, and that the machine's steps leave just that |
| `Jobs` | the job manager as a class, shown to leave what is written out there, and so to run as the machine does |
| `Mismatch` | runs after which a job's status does not mirror the data |
| `Shell` | the restore commands and a reader for the shell language they are written in |
| `Backups` | ranking of backup candidates |
| `Selection`, `BuiltPlans` | the plan selection of the web page, and what it and the manager's check make of the plans that are really built |
| `Instances` | small concrete databases that show exact conditions both ways |

A database is a map from table names to rows, a row a map from columns to optional values.
A transaction is a working copy that is kept or dropped. The built-in server
`__dokploy_local__` is stored as NULL.

The machine has one action per durable statement or read. Any number of operations run at
once; each statement may fail, and each operation may stop for good between two statements,
which covers crashes of the whole process. The delete handler is one action. `World` also
records, so that theorems can speak of them, the initial database, the commits, the servers each job was
created for, the dry-runs ever stored, the plans ever accepted, and the jobs on which
two writes ever ran at once. Theorems hold of `Exec(Init(dok, allowed), actions)` for every
database, allowlist and list of actions.

What comes from outside enters as a parameter: clock readings and the ids made from them,
which calls get through to the store and to Dokploy, the health of the Dokploy API, and
what a name test or a download says about a listed backup object.

Neither Apply nor Rollback looks at a job's status, so the status does not mirror the data.
What it does tell is proved for every run (`SucceededJobsAreReported`,
`RolledBackJobsWereRolledBack`). What it does not tell is shown by runs that exist on every
database with a dry-run to apply: a second apply of the same plan leaves the job failed with
all its rows moved (`SomeRunEndsFailedYetMoved`), and a commit after which no call gets
through any more leaves it running with all its rows moved (`SomeRunEndsRunningYetMoved`), as
does a stop right after the commit (`StopAfterCommitLeavesRunning`).

Where an operation and its specification share a definition, a lemma or contract writes out
what that definition admits: the checks before an apply (`AuthorisedExactly`, `ApplyExactly`),
the subset check, the order of listings, the served page, the store after each operation.

## Where the code falls short of its purpose

- **Newest first.** The listing orders stored times as text. That order is the time order
  except exactly when two times share a second and one trimmed fraction is a proper prefix
  of the other, where it is reversed (`TextOrderIsTimeOrder`, `OlderListedFirst`).
- **Rollback.** A rollback is refused exactly when, before the apply, some row carrying a
  plan id was already on the target, or was moved for another plan row
  (`RollbackRestoresExactly`, `TwinDefeatsRollback`, `TwinExampleExists`). Unique ids
  exclude both.
- **Counts.** A server's count differs from its listing exactly when some row is counted
  under it but not listed for it, or listed but not counted: rows that store it padded or as
  the literal marker make the count too large, and a server whose own id is padded or blank
  is shown with none (`CountMatchesListingExactly`, `PaddedServerMiscounts`).
- **Choosing rows.** The manager accepts a choice of a dry-run's rows only if no id is blank
  and no two rows of a table have ids equal up to surrounding white space; otherwise it
  refuses every choice of that dry-run (`WellFormedExactly`). Rows with one table and id
  share a checkbox (`KeysDifferExactly`, `OneIDTwiceSharesACheckbox`).
- **Retention.** The delete handler reads the protected jobs and deletes in two calls. What
  happens in between can cost a protected job, and two handlers can leave 49 jobs
  (`LateDeleteExactly`, `TwoHandlersLeave49`).

## Model

| member | source | states |
|---|---|---|
| Sql.LexQuoteIdentifier | internal/dokploydb/postgres.go:757-759 | a quoted identifier lexes back to the name it quotes, whatever the name holds |
| Rendering.WhereIsGuard | internal/dokploydb/postgres.go:426-447 | in all three statement shapes the WHERE clause is true, under three-valued logic, of exactly the rows that carry the id and are on the old server |
| Rendering.RenderingKeepsMeaning | internal/dokploydb/postgres.go:426-447 | lexing, parsing and running the rendered text with its positional arguments is one guarded move: same failure, same affected rows, same database |
| Rendering.UniqueStringsLoop | internal/dokploydb/postgres.go:732-746 | the loop with its seen set computes the specified list |
| Rendering.UniqueStringsKeepsEachOnce | internal/dokploydb/postgres.go:732-746 | that list holds each nonempty value exactly once |
| Rendering.UniqueStringsKeepsOrder | internal/dokploydb/postgres.go:732-746 | in the order in which each first occurs |
| Rendering.ValidatedIDColumnExact | internal/dokploydb/postgres.go:691-726 | an apply accepts exactly the table's default id column, the plain id column, and the empty name, which stands for the default |
| Rendering.ListedColumnIsApplicable | internal/dokploydb/postgres.go:655-662 | the id column a dry-run lists by exists, is not the server column, and passes the apply's check; a table has one exactly when some column passes |
| Rendering.ResourceIDColumnExact | internal/dokploydb/postgres.go:655-662 | it is the table's own id column if there is one, else the plain one |
| Tables.PerformExact | internal/dokploydb/postgres.go:374-405 | with unique ids a transaction of guarded moves commits exactly when every row is in place and no two moves name one row; it then is the simultaneous move of the selected rows |
| Tables.PerformOrderIrrelevant | internal/dokploydb/postgres.go:379-399 | permuting the moves changes neither the outcome nor the result |
| Tables.UndoExact | internal/dokploydb/postgres.go:396-398 | undoing a committed transaction commits exactly when no move had a twin on its new server, and restores the database |
| Retarget.ApplyRowsPerforms | internal/dokploydb/postgres.go:379-399 | the loop over allowlist checks and rendered statements succeeds exactly when every row is allowed and the guarded moves commit, and leaves what they leave |
| Retarget.AuthorisedExactly | internal/dokploydb/postgres.go:466-690 | what the checks before the transaction ask for, field by field: the plan, its rows, the tables, the schema hash, and an approval by name or, failing a name, by the allowlist |
| Retarget.ApplyExactly | internal/dokploydb/postgres.go:355-405 | on every database an apply commits if and only if those checks pass and each guarded move in turn finds exactly one row; it leaves what the moves leave |
| Retarget.ApplyCommitsExactly | internal/dokploydb/postgres.go:355-405 | with unique ids and no I/O failure an apply commits if and only if the plan is writable, its schema hash is the database's and is approved by name or by the allowlist, every row's table and id column are allowed, every row is on its old server in an existing table, and no two plan rows name one database row |
| Retarget.CommitEffect | internal/dokploydb/postgres.go:379-399 | on commit exactly the named rows change, each only in its server column, from the plan's source to its target |
| Retarget.ApplyEffect | internal/dokploydb/postgres.go:426-447 | the same in the database's terms: which rows a plan names, and NULL for the built-in server |
| Retarget.RowOrderIrrelevant | internal/dokploydb/postgres.go:379-399 | the order of the plan's rows changes neither whether an apply commits nor what it leaves |
| Retarget.ReversePlanInvolution | internal/dokploydb/postgres.go:450-464 | reversing a plan twice gives it back; reversal keeps write-validity both ways |
| Retarget.RollbackRestoresExactly | internal/dokploydb/postgres.go:450-464 | after a committed apply the rollback commits exactly when the approval admits the schema and no row with a plan id was on the target or moved for another plan row; it then restores the database exactly |
| Retarget.RollbackUndoesApply | internal/dokploydb/postgres.go:450-464 | with unique ids and the same approval, rollback always succeeds and restores the database |
| Retarget.TwinDefeatsRollback | internal/dokploydb/postgres.go:396-398 | tables on which an apply commits and its rollback finds two rows and fails |
| Instances.TwinExampleExists | internal/dokploydb/postgres.go:396-398 | such tables exist |
| Retarget.MarkerNeverWritten | internal/dokploydb/postgres.go:426-447 | an apply never writes the built-in server's name into a row |
| Chain.SecondApplyFails | internal/dokploydb/postgres.go:379-399 | applying a plan again right after it committed never commits |
| Chain.CommitsAreApproved | internal/dokploydb/postgres.go:664-690 | in every run each committed write is of a plan with the database's own fingerprint, and the request's approval or, where it names none, the allowlist names that fingerprint |
| DokployAdapter.Adapter.ApplyRetargetPlan | internal/dokploydb/postgres.go:355-405 | the method with its transaction loop is the specified apply: it passes exactly when that succeeds and no I/O fails, and otherwise leaves the database alone |
| DokployAdapter.Adapter.RollbackRetargetPlan | internal/dokploydb/postgres.go:450-464 | the reversing loop followed by an apply is the apply of the reversed plan |
| DokployAdapter.Adapter.SupportedTables | internal/dokploydb/postgres.go:540-584 | the loop and sort compute the specified list of supported tables |
| DokployAdapter.Adapter.ListServerResources | internal/dokploydb/postgres.go:202-238 | querying and scanning table by table computes the specified listing, failing on a NULL id |
| DokployAdapter.ScanResourcesInto | internal/dokploydb/postgres.go:287-310 | scanning appends one resource per row, or fails on a NULL id |
| DokployAdapter.Adapter.BuildRetargetPlan | internal/dokploydb/postgres.go:312-352 | the checks and the loop compute the specified dry-run or its error |
| DokployAdapter.Adapter.ResourceCountsByServer | internal/dokploydb/postgres.go:240-261 | adding up the groups of every table computes the specified counts |
| DokployAdapter.ScanResourceCounts | internal/dokploydb/postgres.go:263-285 | NULL counts for the built-in server, blank values for none, other values trimmed |
| Listing.SupportedTablesExact | internal/dokploydb/postgres.go:540-584 | supported are exactly the allowlisted tables with a usable id column and a server column, each once, in name order |
| Listed.SupportedTableExact | internal/dokploydb/postgres.go:540-584 | the nine tables by name, the columns each needs, its id column and whether it shows names |
| Listed.ResourcesListedInOrder | internal/dokploydb/postgres.go:219-235 | a listing goes by table name and, within a table, by id |
| Listed.ListedResourceExact | internal/dokploydb/postgres.go:208-235 | each listed resource is a row stored under the server, NULL for the built-in one, with that row's id and its name, empty where there is none |
| Listed.DryRunBuiltExactly | internal/dokploydb/postgres.go:103-116 | a dry-run is built exactly when two different servers are named, an allowlisted table exists, the schema passes a configured allowlist and no row on the source has a NULL id; it carries the trimmed servers and the fingerprint |
| Listed.DryRunRowExact | internal/dokploydb/postgres.go:333-350 | its rows are the listed resources in their order, going from source to target |
| Listed.DryRunInOrder | internal/dokploydb/postgres.go:333-350 | its rows go by table name and, within a table, by id |
| DryRun.DryRunComplete | internal/dokploydb/postgres.go:312-352 | a dry-run lists each row of each supported table on the source exactly once |
| DryRun.WholePlanHandsOver | internal/dokploydb/postgres.go:355-405 | with nonblank unique ids, applying the whole list commits and moves exactly the source's rows |
| DryRun.DryRunDrains | internal/dokploydb/postgres.go:202-238 | applying a whole dry-run empties the source's listing and adds exactly the listed resources to the target's |
| DryRun.NextDryRunIsEmpty | internal/dokploydb/postgres.go:312-352 | after a whole dry-run is applied, the next dry-run has the same header and no rows |
| Counts.CommitConserves | internal/dokploydb/postgres.go:379-399 | a committed plan of k rows takes k resources from the source's listing, gives k to the target's and leaves every other server's alone |
| Counts.CommitShiftsCounts | internal/dokploydb/postgres.go:240-285 | a committed plan of k rows adds k to the count its target is counted under and takes k from that of its source, whatever else is stored; for trimmed servers these are the target's and the source's own counts |
| Counts.HeldIsListed | internal/dokploydb/postgres.go:202-238 | that number is the length of the server's listing |
| Counts.CountMatchesListingExactly | internal/dokploydb/postgres.go:240-285 | for every server id, the count equals the listing's length exactly when every row is counted under the id just when it is listed for it; under a trimmed id the count is never smaller, under a blank or padded one it is zero |
| Instances.PaddedServerMiscounts | internal/dokploydb/postgres.go:148-186 | one stored row whose server is padded makes one count too large and another too small |
| Counts.CountExact | internal/dokploydb/postgres.go:263-285 | a server's count is the number of rows that store it up to surrounding white space, NULL standing for the built-in one |
| Counts.CountsSumToRows | internal/dokploydb/postgres.go:240-285 | the counts add up to all rows whose stored server is not blank |
| PlanSubset.IndexStoredRows | internal/jobs/jobs.go:381-391 | the first loop accepts exactly rows without blank fields and with pairwise different trimmed identities, and indexes them |
| PlanSubset.MatchSubmittedRows | internal/jobs/jobs.go:393-408 | the second loop accepts exactly a duplicate-free list of exact stored rows, names included |
| PlanSubset.ValidatePlanSubset | internal/jobs/jobs.go:372-409 | the check accepts if and only if servers and schema hash are the stored plan's, at least one row is chosen, the chosen rows are different stored rows, and the stored rows have no blank field and differ by more than white space |
| Text.TrimSpaceExact | internal/jobs/jobs.go:162-163 | trimming cuts nothing but white space off the two ends, and all of it |
| Store.EventsOfExact | internal/state/store.go:298-321 | listing a job's events gives exactly its events in the order of their ids |
| Store.JobStore.CreateJob | internal/state/store.go:133-152 | inserts the job, or changes nothing when the id is taken or the write fails |
| Store.JobStore.UpdateJob | internal/state/store.go:155-169 | sets status, checkpoint and time of an existing job, or changes nothing |
| Store.JobStore.AppendEvent | internal/state/store.go:284-295 | appends an event under the next id, or changes nothing when the job is missing |
| Store.JobStore.SaveReport | internal/state/store.go:324-330 | stores or replaces the job's report, or changes nothing when the job is missing |
| Store.JobStore.DeleteJob | internal/state/store.go:251-281 | removes the job with its events and report, or changes nothing |
| Store.JobStore.ListEvents | internal/state/store.go:298-321 | the scan loop computes the job's events |
| Authority.OneDryRunPerJob | internal/jobs/jobs.go:156-221 | in every run a job has at most one dry-run event |
| Authority.AcceptsWhatDryRunReviews | internal/jobs/jobs.go:318-370 | the manager accepts exactly the plans with the id of the job's one dry-run that are a subset of it |
| Authority.UnconfirmedBeginsNothing | internal/jobs/jobs.go:224-230 | an apply without its confirmation, and a write without a job id, plan id or schema hash, does nothing |
| Authority.AuthorityIsFixed | internal/jobs/jobs.go:318-370 | a job's servers never change, and from the moment its dry-run is stored its accepted plans stay the same until it is deleted |
| Audit.CommitsAreAnnounced | internal/jobs/jobs.go:231-251 | at every point of every run each commit of a job still there stands behind the dry-run event that reviewed its plan and behind its own announcing event, an apply's for an apply and a rollback's for a rollback, with its number of rows, which no other commit shares |
| Audit.CommitsAreReviewed | internal/jobs/jobs.go:271-301 | every batch ever committed is a reviewed subset of its job's dry-run, or the reversal of one, even after the job is deleted: same id, servers and schema hash, and different rows of the dry-run |
| Provenance.DryRunsWereBuilt | internal/jobs/jobs.go:206-217 | in every run each stored dry-run is the dry-run of the database as it stood at an earlier point, read by a request of that job |
| Provenance.PausedJobsWereBuilt | internal/jobs/jobs.go:206-217 | in every run a paused job has a dry-run that a request of it built at an earlier point: the stored one if there is one, and otherwise one not yet or never stored |
| Provenance.CommittedRowsWereListed | internal/jobs/jobs.go:206-301 | in every run all rows of every commit were listed by a dry-run of the database as it stood at an earlier point |
| Reports.SucceededJobsAreReported | internal/jobs/jobs.go:252-267 | at every point of every run a succeeded job has a report; unless two of its writes ran at once, its last commit is an apply and the report is of that plan |
| Reports.RolledBackJobsWereRolledBack | internal/jobs/jobs.go:301-316 | at every point of every run the last commit of a job marked rolled back is a rollback, unless two of its writes ran at once |
| Mismatch.SomeRunEndsFailedYetMoved | internal/jobs/jobs.go:224-267 | on every database with sound ids and a nonempty dry-run whose rows can be chosen, some run from the start ends with all rows moved and the job failed |
| Mismatch.SomeRunEndsRunningYetMoved | internal/jobs/jobs.go:244-267 | likewise some run ends with all rows moved and the job running |
| Instances.WholeDryRunExists | internal/dokploydb/postgres.go:312-352 | such a database and dry-run exist |
| Mismatch.StopAfterCommitLeavesRunning | internal/jobs/jobs.go:244-267 | in every run, a write that stops right after its commit leaves its job running, if no other write of it ever ran beside it |
| Mismatch.RefusedAndFailed | internal/jobs/jobs.go:244-251 | an accepted apply of a plan that does not apply ends with the job failed and the database as it was |
| Retention.DeleteRetains | internal/server/server.go:114-141 | a delete, its two calls taken together, removes a job from behind the first 50 and leaves those as they were, or changes nothing |
| Retention.LateDeleteExactly | internal/server/server.go:123-140 | with anything between the handler's two calls, the delete leaves the first 50 as they were exactly when the job is still deletable, and leaves 50 jobs exactly when more than 50 are there |
| Retention.TwoHandlersLeave49 | internal/server/server.go:123-140 | two handlers and an update between their calls can leave 49 of 51 jobs |
| Retention.HistoryIsRetained | internal/state/store.go:107-122 | in every run no event or report refers to a missing job, event ids grow, kept events never change, and once 50 jobs exist there are never fewer |
| Chain.RunsReplay | internal/jobs/jobs.go:224-316 | at every point of every run the database is the initial one with the committed batches replayed in commit order |
| Chain.CommitLinks | internal/dokploydb/postgres.go:379-399 | each commit finds the rows it names on its batch's source and leaves them on its target; other rows stay |
| Chain.MovesFormChain | internal/jobs/jobs.go:224-316 | with unique ids, each commit that moves a resource moves it from where the one before left it, the first from where it was at the start |
| Chain.SharedRowWasMovedBack | internal/jobs/jobs.go:224-316 | two committed applies share a plan row only if a commit strictly between them moved that resource back |
| Jobs.ValidateStoredDryRunPlan | internal/jobs/jobs.go:348-370 | passes exactly when some event holds a dry-run with the plan's id that accepts it, and no event before it holds one with that id |
| Jobs.Manager.ValidateJobPlan | internal/jobs/jobs.go:318-346 | passes exactly when both reads work, no name is blank, the job is there with the plan's servers, and its stored dry-run accepts the plan |
| Jobs.Manager.Apply | internal/jobs/jobs.go:224-267 | passes exactly when it is confirmed, the plan is accepted and applies, and all eight calls get through; otherwise exactly what is left of it: which status, checkpoint and time the job has, which messages were logged when, whether a report was stored, and whether the database has the plan applied |
| Jobs.Manager.Rollback | internal/jobs/jobs.go:271-316 | passes exactly when the plan is accepted, its reversal applies and all seven calls get through; otherwise exactly what is left of it, as for an apply |
| Jobs.Manager.Plan | internal/jobs/jobs.go:156-221 | succeeds exactly when the mode is known, the job id is free, the dry-run can be built and its calls, save the health event, get through; otherwise exactly what is left of it: the job's servers, mode, status, checkpoint and times, and the messages logged |
| Jobs.Manager.ApplyAsRun | internal/jobs/jobs.go:224-267 | whatever happens, an apply leaves what a run of the machine leaves |
| Jobs.Manager.RollbackAsRun | internal/jobs/jobs.go:271-316 | whatever happens, a rollback leaves what a run of the machine leaves |
| Jobs.Manager.PlanAsRun | internal/jobs/jobs.go:156-221 | whatever happens, a request for a plan leaves what a run of the machine leaves |
| Traces.ApplyRuns | internal/jobs/jobs.go:224-267 | for every pattern of calls that get through, some run of the machine does just what the apply does |
| Traces.RollbackRuns | internal/jobs/jobs.go:271-316 | likewise for a rollback |
| Traces.PlanRuns | internal/jobs/jobs.go:156-221 | likewise for a request for a plan |
| History.NewestFirstExact | internal/state/store.go:200-205 | the listing holds every job once, in the order of the query |
| History.NewerIsListedFirst | internal/state/store.go:200-205 | of two listed jobs the first has the greater time text or, at equal ones, the greater id |
| History.UpdatedJobMovesUp | internal/state/store.go:155-169 | a job updated at a time text greater than all others' stands first in the listing, as updated |
| History.ServePageExact | internal/server/server.go:84-104 | a limit from 1 to 50 is honoured, a greater one is 50, as is a missing or senseless one; a missing or senseless offset is 0; served is that stretch of the listing |
| History.DeletionKeepsProtected | internal/server/server.go:123-130 | a permitted deletion leaves the first 50 and the protected set as they were |
| History.DeletableByPosition | internal/server/server.go:123-130 | the server lets go exactly the jobs listed at position 50 or later |
| History.PagingCoversHistory | internal/server/static/app.js:652-668 | following the next offsets from 0 with any limit shows every job exactly once, in listing order, and stops |
| History.DeleteButtonAgreesWithServer | internal/server/static/app.js:628 | the page-local rule marks a row deletable exactly when the server would delete it |
| JobServer.Server.ListJobsPage | internal/state/store.go:193-226 | computes the page of the listing, with the defaults for senseless limits and offsets |
| JobServer.Server.ProtectedIDs | internal/state/store.go:238-248 | collects exactly the ids of the first page |
| JobServer.Server.HandleDeleteJob | internal/server/server.go:114-141 | which status is answered when, from the admin token on; only success changes the store, and then exactly as the deletion says |
| JobServer.Server.HandleListJobs | internal/server/server.go:84-104 | the served page, or nothing when a query fails |
| TimeText.TextOrderIsTimeOrder | internal/state/store.go:349-351 | the byte order of stored UTC times is the time order, except exactly when both fall in one second and one trimmed fraction is a proper prefix of the other, where it is reversed |
| TimeText.ListingOrderIsTimeOrder | internal/state/store.go:200-205 | of two jobs updated at different times the later is listed first exactly outside that case |
| TimeText.OlderListedFirst | internal/state/store.go:200-205 | an update on the full second is listed before one half a second later |
| TimeText.ParseUndoesFormat | internal/state/store.go:353-359 | reading a stored time gives back the time stored |
| TimeText.FormatTimeExact | internal/state/store.go:349-351 | the stored text: where its separators stand, what its fields read as, and a fraction without trailing zeros |
| Shell.QuoteReads | internal/sshrestore/sshrestore.go:183-188 | a quoted value reads back as itself, whatever it holds and whatever follows |
| Shell.CommandReads | internal/sshrestore/sshrestore.go:149-181 | a command of plain and quoted pieces reads back as exactly its words |
| Shell.VolumeCommandRoundTrip | internal/sshrestore/sshrestore.go:149-165 | for all NUL-free names the shell reads the volume command as exactly the docker arguments meant, and the inner shell reads the script as exactly that tar call |
| Shell.DBCommandRoundTrip | internal/sshrestore/sshrestore.go:168-181 | likewise for the database command, whose script reads as gzip, its file and the pipe, with the restore command untouched behind it |
| Backups.KnownCandidatesAreRanked | internal/s3backup/s3backup.go:210-217 | on the two confidences built, the comparator is a strict weak order |
| Backups.RanksExactly | internal/s3backup/s3backup.go:210-217 | the comparator is a strict weak order on a set of candidates exactly when the set holds no two of one confidence other than manifest, one newer, beside a third of another |
| Backups.BestMeaning | internal/s3backup/s3backup.go:210-230 | the best candidate of a key: none with the key ranks before it, and it ranks strictly before all earlier ones |
| Backups.BestPrefersManifests | internal/s3backup/s3backup.go:210-217 | it is from a manifest if any is, and none of its kind is newer |
| Backups.RankingPicksTheBest | internal/s3backup/s3backup.go:210-230 | sorting and keeping the first of each key yields, in ranking order, exactly the best candidate of every key |
| Backups.CollectedAreKnown | internal/s3backup/s3backup.go:89-172 | only the two ranked confidences are ever built |
| Backups.CandidatesFromManifest | internal/s3backup/s3backup.go:154-172 | one candidate per named object of a manifest |
| Backups.SortCandidates | internal/s3backup/s3backup.go:210-217 | sorts in place: the same candidates, none behind one that it ranks before, unranked ones in their old order |
| Sorting.StableSortIsTheOnlyOne | internal/s3backup/s3backup.go:210-217 | under a weak order whatever is sorted and keeps unranked elements in order is the one stable sort |
| Backups.DedupeCandidates | internal/s3backup/s3backup.go:219-230 | the loop with its seen set keeps the first candidate of each key |
| Backups.CollectedExactly | internal/s3backup/s3backup.go:102-127 | collected are exactly the candidates that some listed object offers: a manifest that was read and matches, by its named objects, or a file whose name matches |
| Backups.ListCandidates | internal/s3backup/s3backup.go:89-132 | each returned candidate is offered by a listed object; for each that is offered, one of its key is returned that is from a manifest if it is and, of one kind, no older; keys differ and the best come first |
| Selection.SelectionIsSubmittable | internal/server/static/app.js:403-434 | after any inputs the plan to be sent is the shown plan with rows left out, in order; nonempty and from a well-formed dry-run, it passes the server's check |
| Selection.ReceivedPlanIsSelected | internal/server/static/app.js:403-412 | a plan that arrives with a new id would be sent whole, one with the known id with exactly the rows still checked |
| Selection.SelectAllSelectsAll | internal/server/static/app.js:768-772 | after any inputs, selecting all sends the whole plan and selecting none no row |
| BuiltPlans.KeysDifferExactly | internal/server/static/app.js:414-422 | the rows of a built plan have pairwise different checkbox keys exactly when they have pairwise different tables and ids |
| BuiltPlans.ToggleMovesOneResource | internal/server/static/app.js:755-766 | on a page showing a built plan a checkbox selects or drops exactly the rows with its row's table and id |
| BuiltPlans.WellFormedExactly | internal/jobs/jobs.go:381-391 | the manager can accept choices of a built plan's rows exactly when no id is blank and no two rows agree in table and trimmed id |
| Instances.OneIDTwiceSharesACheckbox | internal/server/static/app.js:414-422 | the dry-run of a table that stores one id twice has two rows with one key, and no choice of them is accepted |
| Selection.PlanSelection.RenderPlan | internal/server/static/app.js:345-356 | shows the plan and keeps the selection for a known plan id, or selects all rows of a new one |
| Selection.PlanSelection.SyncSelectionForPlan | internal/server/static/app.js:403-412 | a plan with a new id is selected whole; for the same id the selection is cut down to the rows still there |
| Selection.PlanSelection.ChangeCheckbox | internal/server/static/app.js:755-766 | (un)checking a box adds or removes its key, and keys of rows no longer shown are dropped |
| Selection.PlanSelection.ChangeSelectAll | internal/server/static/app.js:768-772 | selects every row of the current plan, or none |
| Selection.PlanSelection.SelectedRows | internal/server/static/app.js:424-427 | the filter keeps exactly the selected rows, in order |
| Selection.PlanSelection.PlanToSend | internal/server/static/app.js:429-434 | the current plan, everything but its rows unchanged, with the selected rows; nothing without a plan |

## Left out

- Foreign keys: SQLite is taken to enforce them, as the pragma in the migration asks.
- Ambiguous commits: a commit that is reported as failed although it took effect is not modelled.
- Schema changes between the fingerprint read and the transaction of one apply.
- The fingerprint itself: an opaque value of the database; the information_schema queries that feed it are not modelled.
- Other writers of the Dokploy database: only the migrator's own commits change it.
- Job ids: made from the clock's nanoseconds. Two plans may draw the same one, and the second then fails to create its job; the clock is taken not to come back to the id of a deleted job.
- Retention.HistoryIsRetained: takes the delete handler as one action, as does Retention.DeleteRetains; what its two calls can do apart is stated by Retention.LateDeleteExactly.
- Retention.DeleteRetains: see the line above.
- Collation: the order of ids in a listing is taken to be code point order.
- JSON: plans, events and reports are structured values that survive storage; undecodable payloads do not occur. The Markdown rendering of a report is left out.
- Missing collaborators: the errors for a manager without a database adapter or without a store.
- TimeText.ParseUndoesFormat: reads UTC texts of the layout that is written; numeric zone offsets, one-digit hours and a comma before the fraction, which Go also reads, are not modelled.
- Shell.VolumeCommandRoundTrip: the directory and base name of the archive path are arbitrary strings; path.Dir and path.Base are not modelled. The reader refuses text the shell would expand, which no command here contains.
- Backups.ListCandidates: the name tests and manifest downloads are given as verdicts; case folding and matching are not modelled. The library's sort is taken to be stable, of which there is only one (Sorting.StableSortIsTheOnlyOne).
- Server status classification, the listing of servers, the API client beyond its health verdict, SSH and S3 access, HTTP routing and authentication, and the page's rendering: plumbing without a deep property.
