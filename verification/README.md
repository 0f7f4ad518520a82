# go-core, modelled in Dafny

A model of the parts of go-core where something can go wrong between two steps: the
event queue and its outbox, the authorization engine with its cache and its
administration, transactions carried in a context, the asynchronous audit writer, and
the two fixpoint analyses of the architecture tests. Each module says in its header which
files it models; `dafny verify dfyconfig.toml` checks the whole project.

## What is modelled

**The event queue** (`EventTables`, `EventProtocol`, `EventInvariant`, `EventRuns`,
`EventProcessed`, `EventOverrun`, `EventCalm`, `EventLaws`, `QueueStore`, `DuePoll`,
`Backoff`). Two tables, outbox rows and attempts rows, and five kinds of transaction on them:
lease, finish, retry, prune, expire. The protocol is a state machine over single steps. A
transaction locks outbox rows one by one, takes its snapshot at its first plain read, and
writes and commits in one step; what it read before it began (a claim's candidates, a sweep's
ids) may be arbitrarily stale, and any clock may read anything. The theorems are about every
run of any number of workers, retries and housekeepers: leases exclude each other, the last
finisher marks the event processed, every commit is as if it had run alone on the rows it
locked. `EventProcessed` says exactly which steps break what "processed" promises, and that
nothing is dropped early in any run without one; `EventOverrun` gives a run with one, and
`EventCalm` shows that runs without an overrun have none. `EventLaws` says row by row what
each step writes, claims, marks and removes. `QueueStore` holds the same transactions as
methods on a database, with the loops of the code: the upserts, the cursor loops of the
sweep, the retry of all dead letters.

**Authorization** (`Scopes`, `Clauses`, `Engine`, `Access`, `Delegation`, `Admin`,
`AdminReach`, `AdminExample`, `AdminLaws`, `Administration`, `Cache`, `CacheCoherence`,
`LockOut`). Scopes and their chains, clauses and what covers what, effective access built
from bindings, the check of one record and the clauses a list is filtered by, what one may
delegate, and the administration calls. The main results are that pruning keeps meaning and
list and record check agree, with the exact condition on a record's places; that a tenant
pinned by bindings walls off every other tenant; that no sequence of operations creates a
System permission nobody held, what each operation asks and exactly what it changes in what
anyone holds, and exactly when saving a role takes its author further than before; that the
cache serves nothing an eviction replaced, for every interleaving of loads, writes and
evictions; and that one's own calls never remove one's own last protected access.

**Transactions in a context** (`Transactor`). Programs of nested scopes over any connections,
whose statements write (through a repository that joins or a plain one), publish, fail,
panic, swallow errors and recover, run against a compositional meaning in which the outermost
scope on a connection decides.

**The audit writer** (`AuditWriter`), as every interleaving of the single operations of
Write, the workers and Shutdown over a mutex, a bounded channel, a WaitGroup and a sync.Once.

**The permission catalogue** (`Catalogue`), **the service scanner** (`ServiceSyntax`,
`ServiceScan`) and **the constant resolver** (`StringConstants`): a depth-first search, a
scan of a call graph with a transaction flag, and a loop over a map in any order, each proved
to find exactly what its specification by paths says.

## Where a promise has a condition

- `event/queue.go` marks an event processed when every consumer has finished. A handler that
  outlives its lease may then report a failure to be retried, and the event is pruned with that
  consumer unfinished (`EventOverrun.LateFailureDropsEvent`). That and the expiry of a processed
  event's dead letter are the only steps that do it (`EventProcessed.ProcessedStepIff`).
- `authz/admin.go` promises no escalation through a custom role, and compares qualifiers and
  attributes but no scopes. An author bound to a role higher up than a grant is held thereby
  gains it there (`AdminExample.SaveReachesWider`); `AdminReach.OwnSaveIff` gives the exact
  condition.
- `authz/access.go` lets a caller supply a record's ancestors. List filter and record check
  agree exactly when the record's places hold the ancestors of each place
  (`Access.AgreementIff`); chains the resolver gives, supplied ancestors that are true, and
  organization-wide records always do. `Access.FalseAncestorDisagrees` is a record that does not.
- `database/transactor.go` promises that a scope's error rolls its writes back. On a connection
  that exposes no `*sql.DB` nothing is matched, so writes inside the scope are committed on
  their own (`Transactor.WriteEscapes`); `Transactor.DecidesIff` gives the exact condition. A
  plain repository (`database/base_repository.go`) escapes on any connection, by design.
- The doubling of `event/typed.go` overflows for a longest delay above 2^62 ns and for none at
  or below it (`Backoff.NoOverflowIff`, `Backoff.DoublingOverflows`).

## Model

| member | source | states |
|---|---|---|
| `EventTables.SiblingsMembers` | event/worker.go:56-66 | The names counted for an event are exactly those of the consumers of that event. |
| `EventTables.SiblingsDistinct` | event/typed.go:251-276 | With the distinct names the start-up check demands, no sibling is counted twice. |
| `EventTables.CountMeansAll` | event/queue.go:260-269 | Counting as many final rows as there are siblings holds exactly when every sibling has finished. |
| `EventTables.ClaimedRow` | event/queue.go:203-226 | The row of a claimed event is leased until five minutes after the clock reading, with the attempts the claim saw. |
| `EventInvariant.WritesOnlyUnderLock` | event/queue.go:163-278 | No commit of any kind changes an outbox row or an attempts row of an existing event whose outbox row the transaction did not lock. |
| `EventInvariant.CommitKeepsLocks` | event/queue.go:163-234 | A commit leaves every other transaction's locks exclusive and its snapshot of what it locked still true. |
| `EventInvariant.LeaseKeepsRows` | event/queue.go:163-234 | A lease keeps every attempts row within its consumer's retry policy and hands out events with the attempts it saw. |
| `EventInvariant.OutcomeRowOk` | event/worker.go:226-268 | The row a handler's outcome produces counts at most the policy's attempts, and exactly that many only when it is dead. |
| `EventInvariant.FinishKeepsOpen` | event/queue.go:241-278 | A final outcome that leaves its event unprocessed leaves another consumer unfinished, though it decided from its snapshot. |
| `EventInvariant.RetryKeepsOpen` | event/deadletter.go:126-160 | A retried event is unprocessed and the retried consumer is unfinished again. |
| `EventInvariant.CommitKeepsOpen` | event/housekeeping.go:136-252 | Whatever commits, expiry and pruning included, an unprocessed event with consumers has one that is neither done nor dead. |
| `EventInvariant.StepKeepsInv` | event/queue.go:163-278 | Every step of every transaction (publish, begin, lock, snapshot, commit, abort) keeps the protocol's invariant. |
| `EventRuns.RunKeepsInv` | event/queue.go:163-278 | The invariant holds in every state of every run. |
| `EventRuns.HeldIsAlone` | event/queue.go:163-278 | The rows a committing transaction holds are among those it would lock now, and exactly those unless it leases or prunes. |
| `EventRuns.LastFinisherMarksProcessed` | event/queue.go:241-278 | In every reachable state of every run, overruns and expiry included, an event with consumers that have all finished is marked processed. |
| `EventRuns.AttemptsWithinPolicy` | event/worker.go:226-268 | In every run no row counts more attempts than its policy, and a row that is not dead counts fewer. |
| `EventRuns.CommitsAreSerial` | event/queue.go:163-278 | Every commit of every run leaves the tables as if its transaction had run alone at that moment on the rows it locked, whatever it read before; an outcome, a retry and an expiry as if alone altogether. |
| `EventRuns.LeaseIsSerial` | event/queue.go:163-234 | A lease decided from a snapshot that agrees on the locked events writes what one decided from the tables would. |
| `EventRuns.FinishIsSerial` | event/queue.go:241-278 | The same for the count of finished siblings. |
| `EventRuns.PruneIsSerial` | event/housekeeping.go:136-184 | The same for the events a prune finds without a dead letter. |
| `EventRuns.ClaimLeases` | event/queue.go:205-226 | A claim leaves its event leased until five minutes after the claimer's clock reading. |
| `EventRuns.ClaimRespectsLease` | event/queue.go:163-214 | A claim never takes an event leased beyond its own clock reading, however stale its candidates. |
| `EventRuns.StepKeepsLease` | event/queue.go:163-278 | Only an outcome or a retry of that event and consumer shortens a lease. |
| `EventRuns.LeaseExclusion` | event/queue.go:96-234 | For every interleaving: of two claims of one event by one consumer with no outcome or retry recorded between, the second's clock had reached the end of the first's lease. |
| `EventCalm.StepKeepsOnceEach` | event/worker.go:195-224 | Each claim of an event is in at most one place: in a worker's hands or in one recording transaction. |
| `EventCalm.FinishMeetsOpen` | event/queue.go:241-278 | In runs without an overrun an outcome meets its event present and unprocessed. |
| `EventProcessed.MarkedMeansFinished` | event/queue.go:241-278 | An outcome that marks its event processed saw every consumer of it finished. |
| `EventProcessed.FailsLateBreaks` | event/queue.go:241-278 | A failure to be retried that is recorded for an event already processed leaves it processed with an unfinished consumer. |
| `EventProcessed.ProcessedStepIff` | event/queue.go:241-278 | Processed keeps meaning finished by every consumer if and only if the step neither records such a late failure nor expires a processed event's dead letter. |
| `EventProcessed.ProcessedRunIff` | event/queue.go:241-278 | For every run: processed has always meant finished by every consumer if and only if no step so far was one of those two. |
| `EventProcessed.ProcessedMeansFinished` | event/queue.go:241-278 | In every run without such a step, late successes and late dead letters included, processed implies every consumer is done or dead. |
| `EventProcessed.NothingDroppedEarly` | event/housekeeping.go:97-184 | In every such run an event that disappears was pruned, was processed at a time strictly before the cutoff and was recorded done by every one of its consumers, whatever retries run beside it. |
| `EventLaws.OutcomeIsRecorded` | event/worker.go:226-268 | A committed outcome writes one row and no other: a success is done, a malformed payload and the last failure allowed are dead, any other failure counts and waits out its delay. |
| `EventLaws.MalformedIsFinal` | event/worker.go:226-268 | In every run, from the outcome of a malformed payload on the row is a dead letter and no claim takes the event for that consumer at any clock reading, until the letter is retried or expires or another outcome of it is recorded. |
| `EventLaws.ClaimsIff` | event/queue.go:163-234 | A committing lease claims exactly the events it locked whose row for the consumer, as it is at that moment, is missing or neither final nor waiting. |
| `EventLaws.LocksIff` | event/queue.go:180-202 | A row is locked exactly when it is there and, for a lease, unprocessed, for a prune, processed before the cutoff. |
| `EventLaws.PublishedIsOpen` | event/typed.go:81-111 | A published event is unprocessed and no consumer has a row for it, so all of them may claim it. |
| `EventLaws.RetriedIsDue` | event/deadletter.go:126-160 | A retried letter counts no attempts and is due at the retry's own clock reading, its event is open, and nothing else changes. |
| `EventLaws.GoneWithItsRows` | event/housekeeping.go:136-184 | When any step removes an event, no attempts row of it is left. |
| `EventLaws.OnlyOldLettersGo` | event/housekeeping.go:136-252 | An attempts row a step removes went with its event or was a dead letter older than an expiry's cutoff. |
| `EventLaws.ExpiryIsComplete` | event/housekeeping.go:228-252 | After an expiry no letter of the events it names is older than its cutoff. |
| `EventLaws.PruneIsComplete` | event/housekeeping.go:136-184 | Of the events a prune locked exactly those go that no dead letter keeps. |
| `EventLaws.OutcomeMarksIff` | event/queue.go:241-278 | A committed outcome marks its event processed exactly when the event is there, the outcome is final and every consumer of the event is then done or dead; otherwise the outbox stays as it was. |
| `EventOverrun.LateFailureDropsEvent` | event/worker.go:195-268 | A run in which it is not: a second worker finishes the event when the first's lease ends, the first then reports a failure to be retried, and the housekeeper deletes the event though its only consumer is unfinished. |
| `EventCalm.StepKeepsCalmInv` | event/queue.go:163-278 | Without an overrun the latest claim of an event still owns its row, and processed events are finished by all. |
| `EventCalm.CalmIsTimely` | event/worker.go:195-224 | A run in which no outcome comes after a later claim and no dead letter expires has no such step. |
| `EventCalm.OutcomeUsesOne` | event/worker.go:226-268 | Each recorded outcome strictly lowers the attempts that remain for its event and consumer. |
| `EventCalm.OutcomesAndRemaining` | event/worker.go:226-268 | Outcomes recorded plus attempts remaining never exceed the policy, at every point of every run without an overrun that retries no letter of that event and consumer. |
| `EventCalm.OutcomesAreBounded` | event/worker.go:226-268 | So each event and consumer has at most `attempts` outcomes. |
| `QueueStore.ClaimListIds` | event/queue.go:203-214 | The events a lease returns are exactly the locked ones still due, in id order. |
| `QueueStore.UpsertIsLease` | event/queue.go:205-226 | Upserting the lease rows one after another is the lease effect of the protocol. |
| `QueueStore.Database.Lease` | event/queue.go:163-234 | Leases exactly the candidates that exist, are unprocessed and have no row or an unfinished one that is due, returns them with the attempts seen in id order, sets their rows to wait five minutes, and changes nothing else. |
| `QueueStore.Database.StillDue` | event/queue.go:203-214 | The loop over the locked events keeps exactly those with no row or an unfinished row that is due. |
| `QueueStore.Database.WriteLeases` | event/queue.go:205-226 | The upsert moves the due time of existing rows, creates missing ones and touches nothing else. |
| `QueueStore.Database.Finish` | event/queue.go:241-278 | Records the outcome and, for siblings of distinct names, marks the event processed exactly when it exists, the outcome is final and every sibling has finished; otherwise leaves the outbox as it was. |
| `QueueStore.Database.Run` | event/worker.go:226-268 | The one row it writes: success is done; a payload that cannot be decoded is dead at once, whatever the policy; the last failure allowed is dead; any other counts and waits out its delay. Other rows stay. |
| `QueueStore.Database.Retry` | event/deadletter.go:126-160 | Puts back exactly a dead letter whose event exists, counting from zero, due now and its event open, and otherwise says why not and changes nothing. |
| `QueueStore.Database.RetryAll` | event/deadletter.go:164-188 | Puts back every dead letter of the consumer whose event exists, counting from zero and due now, opens exactly their events, changes nothing else, and counts them. |
| `QueueStore.Database.Prune` | event/housekeeping.go:136-184 | Deletes exactly the listed events processed before the cutoff that no dead letter keeps and counts them; no attempts row of a deleted event is left, every other row is. |
| `QueueStore.Database.DeleteLetters` | event/housekeeping.go:228-252 | Deletes exactly the expired dead letters of the listed events and returns their number. |
| `QueueStore.Database.ExpireDeadLetters` | event/housekeeping.go:189-226 | The cursor loop ends and deletes exactly the dead letters past their age. |
| `QueueStore.Database.PruneAll` | event/housekeeping.go:97-131 | The cursor loop ends, deletes exactly the events processed before the cutoff that no dead letter keeps, with every attempts row of each and no other, and returns their number. |
| `QueueStore.Database.Sweep` | event/housekeeping.go:97-131 | The batches together are the one-shot filter, row by row: dead letters past their age go first, then exactly the events processed before the cutoff that no remaining letter keeps, with all their rows, each half by its own clock reading; the result is the number of events. |
| `QueueStore.PageStep` | event/housekeeping.go:107-130 | A page of ids beyond the cursor is exactly what lies between the cursor and the page's last id. |
| `QueueStore.PrunableLeft` | event/housekeeping.go:97-184 | Deleting some prunable events leaves exactly the others prunable. |
| `DuePoll.PartsHold` | event/queue.go:117-141 | The rows of the UNION ALL are exactly each consumer's picks under its number. |
| `DuePoll.PickIsFirst` | event/queue.go:96-115 | A consumer's pick is the first ids, ascending and at most the limit, of its unprocessed events with no row or an unfinished one that is due; no id left out is smaller than one picked. |
| `DuePoll.SortedOfferIsPick` | event/queue.go:117-158 | Any rearrangement of the rows, grouped and sorted, gives a consumer the ascending limited list its own query would. |
| `DuePoll.Group` | event/queue.go:148-151 | Grouping the rows by consumer loses, adds and reorders nothing within a consumer. |
| `DuePoll.DueFor` | event/queue.go:117-158 | For any order the rows come in, the entry of each consumer is exactly what claim's first step would pick for it, the first ids due up to the limit, and consumers with nothing due have none. |
| `Backoff.DelayGrows` | event/typed.go:204-212 | The wait never shrinks with more failures and stays between the first and the longest delay. |
| `Backoff.DelayDoubles` | event/typed.go:204-212 | The first wait is the first delay, and each further failure doubles the wait up to the longest. |
| `Backoff.DelayAfter` | event/typed.go:204-212 | The doubling loop in 64-bit durations returns min(first * 2^(failures-1), longest) without overflow. |
| `Backoff.NoOverflowIff` | event/typed.go:204-244 | No accepted policy with that longest delay overflows if and only if it is at most 2^62 ns. |
| `Backoff.DoublingOverflows` | event/typed.go:204-212 | A policy the start-up check accepts whose doubling leaves the 64-bit durations: it starts at 2^62 ns and may wait one longer. |
| `Scopes.ResolveChain` | authz/hierarchy.go:151-184 | The loop of Chain climbs level by level to the root, with the same error where a scope is malformed or missing. |
| `Scopes.ChainIff` | authz/hierarchy.go:151-184 | A sequence is the chain of a scope exactly when it starts there, has one well-formed scope for each level up to the root, and each is what the resolver says of the one before. |
| `Scopes.ChainFails` | authz/hierarchy.go:151-184 | Without a chain the answer says why: a malformed scope, or a parent that is not of the level above, is invalid; a parent the resolver does not know is missing; otherwise it is what is wrong further up. |
| `Scopes.ClimbShape` | authz/hierarchy.go:151-184 | A chain starts at its scope, has one valid scope for each level up and ends at the root. |
| `Scopes.ChainSuffix` | authz/hierarchy.go:151-184 | The chain of any scope on a chain is the rest of that chain. |
| `Scopes.KnownAncestorsAgree` | authz/hierarchy.go:151-184 | Ancestors a caller supplies truthfully give the same chain the resolver gives. |
| `Scopes.KnownIsTaken` | authz/hierarchy.go:151-196 | Where the caller supplies an ancestor of a level, the chain holds that one. |
| `Scopes.KnownSparesResolver` | authz/hierarchy.go:151-184 | With every ancestor below the root supplied, the chain is there and the same whatever the resolver says. |
| `Scopes.ChainsAreUpClosed` | authz/hierarchy.go:151-184 | A chain contains the whole chain of each of its scopes. |
| `Scopes.TenantOnChain` | authz/hierarchy.go:197-202 | The tenant of a chain is its one scope at the tenant level, and there is none without such a level. |
| `Clauses.CoversReflexive` | authz/effective.go:31-57 | covers is reflexive on clauses that carry the chain of their scope. |
| `Clauses.CoversTransitive` | authz/effective.go:31-57 | covers is transitive on such clauses: scope, qualifier and attributes together. |
| `Clauses.CoversIff` | authz/effective.go:31-57 | Of two clauses with the chain of their scope, the second admitting something, one covers the other exactly when it reaches every record the other reaches, of any owner, attributes and place that holds all its ancestors, for every principal. |
| `Clauses.Prune` | authz/effective.go:118-137 | The nested loops keep, in order, exactly the clauses no other makes redundant: whatever covers a kept clause comes later and is covered in turn. |
| `Clauses.KeptMembers` | authz/effective.go:118-137 | A clause is in the result exactly when some position holding it is not redundant. |
| `Clauses.PruneKeepsMeaning` | authz/effective.go:118-137 | Every clause, dropped ones included, is covered by a kept one, although redundancy may be mutual. |
| `Clauses.KeptIsMinimal` | authz/effective.go:118-137 | No kept clause covers another kept one. |
| `Clauses.CoversReaches` | authz/access.go:152-180 | A covering clause reaches every record the covered one reaches. |
| `Engine.AddClauses` | authz/engine.go:213-231 | Grant by grant, exactly the admissible grants of the role become clauses, and the result says whether any did. |
| `Engine.BuildEffective` | authz/engine.go:162-209 | The loop over bindings, with its cache of roles and its skipped bindings, builds the effective access of the specification. |
| `Engine.BuildClauses` | authz/engine.go:162-231 | A subject holds exactly the clauses its bindings give: resolvable role, resolvable scope, admissible grant. |
| `Engine.HeldIff` | authz/engine.go:162-247 | A subject holds a clause exactly when one of its bindings refers to a role that grants or selects the permission, at a scope with that chain, with an allowed qualifier and exactly the role's constraints on declared attributes; organization-only permissions at the root only. |
| `Engine.BuiltIsCoherent` | authz/engine.go:162-231 | Every clause built carries the chain of its scope. |
| `Engine.BuildPins` | authz/engine.go:162-209 | The root, tenant or unpinned mark of every clause's binding is recorded. |
| `Engine.TenantIff` | authz/effective.go:106-114 | Tenant answers t exactly when there is a binding that contributes and every one that does is pinned to tenant t. |
| `Engine.BuildIsLocal` | authz/engine.go:162-209 | Access depends on no role but those its bindings refer to. |
| `Engine.BuildUses` | authz/engine.go:162-209 | The roles recorded as used are exactly the custom roles valid bindings refer to, found or not. |
| `Engine.EachIsBuild` | authz/engine.go:162-209 | When every binding found what a lookup gives, though a missing role is looked up again for each, the access is the one built with that lookup. |
| `Access.RequireOn` | authz/access.go:97-133 | The loop, which resolves the record's chain at most once and only when needed, passes exactly when some clause passes. Held as Own only, the record is the user's own or co-owned, or unowned where that counts; held at the own location only, it is of that location; its attributes and its place lie within a clause; and any clause that asks no more lets the principal through. |
| `Access.PassesAsks` | authz/access.go:97-180 | What a clause that passes asks of the record: owner or location by its qualifier, every attribute among the allowed values, its scope among the places, the feature on for the record's tenant. |
| `Access.PassesAtRoot` | authz/access.go:97-180 | A root clause of a permission without a feature passes on every record that meets its qualifier and attributes, wherever it is. |
| `Access.ResourceChain` | authz/access.go:137-149 | A record without a scope is at the root; one whose chain cannot be resolved is nowhere. |
| `Access.AccessSet` | authz/access.go:211-229 | The clauses with an open feature gate, pruned. |
| `Access.OpenMembers` | authz/access.go:211-229 | The clauses Access starts from are those whose permission has no feature or whose own tenant has it on. |
| `Access.PruningAgrees` | authz/effective.go:118-137 | On a record whose places include the ancestors of each, the pruned clauses reach it exactly when the full ones do. |
| `Access.ListAgreesWithRecord` | authz/access.go:97-229 | For a permission without a feature and a record whose places hold all ancestors of each, RequireOn passes on the record exactly when a clause of Access reaches it. |
| `Access.TruthfulIsUpClosed` | authz/access.go:137-149 | The places hold them for an organization-wide record, whatever ancestors it carries, and for a record whose ancestors are true or left to the resolver. |
| `Access.MissingAncestorDisagrees` | authz/access.go:97-229 | A clause at a record place and one at an ancestor missing from its places: list and record check come apart. |
| `Access.FalseAncestorDisagrees` | authz/access.go:137-149 | One such record: a location of dealer 3 that says it belongs to dealer 4. |
| `Access.AgreementIff` | authz/access.go:97-229 | List and record check agree for every set of clauses and principal if and only if the record's places hold all ancestors of each place. |
| `Access.TenantWall` | authz/effective.go:106-114 | When Tenant answers t, every record any clause passes on, if its places hold all ancestors of each, has tenant t on its chain. |
| `Access.OneTenantPerRecord` | authz/hierarchy.go:197-202 | A record has at most one tenant. |
| `Delegation.ValidateRole` | authz/role.go:98-161 | Reports no problem exactly when the role has a name, a key that is a word or none, known and single grants with allowed qualifiers, every requirement granted, as widely where both can be owned, and declared attributes that allow something. |
| `Delegation.RequirementMetIff` | authz/role.go:132-145 | A requirement is met exactly when the role grants it, with the widest qualifier or the same one where both permissions can be owned. |
| `Delegation.GrantStep` | authz/role.go:113-131 | The next grant has no problem exactly when the grants with it are still in order, and the tally then holds it. |
| `Delegation.CheckCanSaveRole` | authz/delegation.go:19-33 | Passes exactly for an explicit valid role for each of whose grants the actor holds one clause with the same or the widest qualifier and with no constraint the role does not share. |
| `Delegation.CheckHoldsAll` | authz/delegation.go:105-125 | The search clause by clause passes exactly when one single clause covers each grant. |
| `Delegation.CheckHoldsWithin` | authz/delegation.go:94-101 | Finds a clause of the permission within the place exactly when there is one. |
| `Delegation.CheckCanBind` | authz/delegation.go:48-90 | Passes exactly for a valid role at a place with a chain when the actor manages bindings at a scope of the chain and holds every System permission of the role at one, and organization-only permissions are bound at the root by one who manages it. |
| `Delegation.CheckKeepsAccess` | authz/delegation.go:131-168 | Passes exactly when every protected permission held before is still given by a binding that is not dropped, with the replaced role in place. |
| `Delegation.OverridingFinds` | authz/delegation.go:131-168 | The replaced role stands in for the stored one of its id and for no other. |
| `Admin.EffectiveIsHeld` | authz/engine.go:129-231 | Effective access holds a clause exactly when a stored binding gives it, however the store lists bindings. |
| `Admin.SavedGrantsAreHeld` | authz/delegation.go:105-125 | Every grant of a role a save accepts is one the actor already holds at least as widely. |
| `Admin.BindNeedsSystem` | authz/delegation.go:48-90 | Assigning a role with a System permission takes holding that permission. |
| `Admin.NobodyGains` | authz/admin.go:89-211 | If nobody holds a System permission, no single operation of any actor makes anyone hold it. |
| `Admin.NoPermissionOutOfNothing` | authz/admin.go:89-211 | The same for every sequence of SaveRole, DeleteRole, Bind and Unbind by any actors. |
| `Admin.OwnOperationAddsNothing` | authz/admin.go:89-211 | No operation of an actor gives that actor a permission, a qualifier or an attribute value not held before, at whatever scope. |
| `Admin.OwnHistoryAddsNothing` | authz/admin.go:89-211 | The same for every sequence of an actor's own operations. |
| `AdminReach.OwnCallReachesNoWider` | authz/admin.go:119-211 | Whatever its actor holds after an allowed Bind, Unbind or DeleteRole is covered by what the actor held before, scope included. |
| `AdminReach.OwnSaveIff` | authz/admin.go:89-116 | Whatever its actor holds after an allowed SaveRole is covered by what the actor held before, scope included, if and only if the actor held each admitted grant, as widely and as broadly, at a place containing each of the actor's own bindings to the role. |
| `AdminReach.OwnHistoryReachesNoWider` | authz/admin.go:89-211 | For every sequence of a subject's own operations whose saved roles are within reach when saved, whatever the subject holds at the end is covered by what it held at the start. |
| `AdminReach.OwnHistoryWithoutSaves` | authz/admin.go:119-211 | The same for every sequence of a subject's own Bind, Unbind and DeleteRole calls, with nothing to ask. |
| `AdminExample.SaveReachesWider` | authz/admin.go:89-116 | A store in which it is not so: bound to the managers' role at the root and holding a permission at dealer 3 only, an actor may add that permission to the role, and then holds it at the root. |
| `AdminLaws.UnbindIff` | authz/admin.go:181-211 | After a removal a subject holds a clause exactly when a stored binding of another id gave it. |
| `AdminLaws.BindIff` | authz/admin.go:143-176 | After a binding its subject holds what it held and what the new binding gives, and everyone else what they held. |
| `AdminLaws.DeleteIff` | authz/admin.go:119-140 | Deleting a role no binding refers to changes nobody's clauses. |
| `AdminLaws.SaveIff` | authz/admin.go:89-116 | After a save a binding to the role gives what the saved role gives, and every other binding what it gave. |
| `AdminLaws.ProtectedIsKept` | authz/admin.go:89-211 | Whatever the call, its actor still holds every protected permission it held. |
| `AdminLaws.OwnHistoryKeepsProtected` | authz/admin.go:89-211 | And so after every sequence of an actor's own calls. |
| `AdminLaws.RolesAreManaged` | authz/admin.go:89-140 | A role is saved or deleted only by one who holds the permission for it. |
| `AdminLaws.CanBindIffHeld` | authz/delegation.go:48-90 | CanBind told of the store: the bindings of the actor give the managing permission, and each System permission of the role, at places on the chain, and the managing one at the root for organization-only permissions, which are bound there only. |
| `AdminLaws.BindAsks` | authz/admin.go:143-176 | A role is given only by someone else, who may hand it over at that place. |
| `AdminLaws.UnbindAsks` | authz/admin.go:181-211 | A binding to an existing role is removed only by one who may hand that role over at its place. |
| `AdminLaws.TopMayBind` | authz/admin.go:143-176 | Who manages bindings and holds every System permission for the whole organization may give anyone else any valid role wherever it may be bound. |
| `AdminLaws.TopMayUnbind` | authz/admin.go:181-211 | And may remove such a binding exactly when they keep every protected permission they hold. |
| `AdminLaws.TopMayDelete` | authz/admin.go:119-140 | Who manages roles for the whole organization may delete exactly the stored roles no binding refers to. |
| `AdminLaws.TopMayCreate` | authz/admin.go:89-116 | And may create every valid explicit role of permissions they hold for the whole organization. |
| `Administration.CurrentAgree` | authz/engine.go:129-144 | Two effective accesses built from one store hold the same clauses, whatever order the store lists in. |
| `Administration.SameKeepsAccess` | authz/delegation.go:131-168 | The lock-out check does not depend on the order bindings are listed in. |
| `Administration.UnusedRoleStaysCurrent` | authz/cache.go:84-93 | Access that refers to no binding of a role is still current after that role is saved or deleted. |
| `Administration.OthersStayCurrent` | authz/cache.go:76-81 | A binding written for one subject leaves every other subject's access current. |
| `Administration.Administrator.EffectiveOf` | authz/engine.go:129-144 | Cached or built, the access returned is built from what the store holds, and so is everything cached after. |
| `Administration.Administrator.SaveRole` | authz/admin.go:89-116 | Succeeds exactly when the store's present contents allow it (an id that names no role is refused). Then the role is stored without its key under its id or the new one, and no other row changes; otherwise nothing does. The actor keeps every protected permission and nothing stale stays cached. |
| `Administration.Administrator.DeleteRole` | authz/admin.go:119-140 | The same for deleting a role: refused while any binding refers to it; then that role is gone and every other row as it was. |
| `Administration.Administrator.Bind` | authz/admin.go:143-176 | The same for a binding: valid, not to oneself, managed at a place containing it, within the delegation rules, and not one the store has; then exactly that binding is added. |
| `Administration.Administrator.Unbind` | authz/admin.go:181-211 | The same for removing a binding, with the lock-out check when it is one's own: then that binding is gone and every other binding and every role is as it was. |
| `Cache.SubjectCache.constructor` | authz/cache.go:38-43 | An empty cache at epoch zero with the default lifetime when none is given. |
| `Cache.SubjectCache.Get` | authz/cache.go:45-57 | Serves an entry exactly before it expires, drops it after, and never moves the epoch. |
| `Cache.SubjectCache.Put` | authz/cache.go:66-73 | Stores a load exactly when no eviction ran since it began. |
| `Cache.SubjectCache.Evict` | authz/cache.go:76-81 | Advances the epoch and drops exactly the subject's entry. |
| `Cache.SubjectCache.EvictRole` | authz/cache.go:84-93 | Advances the epoch and, in any order of deletion, drops exactly the entries that use the role. |
| `Cache.SubjectCache.EvictAll` | authz/cache.go:97-102 | Advances the epoch and drops everything. |
| `CacheCoherence.EvictKeepsInv` | authz/cache.go:76-93 | An eviction deletes every entry its write concerns, so each entry left was read after that write or has its own eviction pending. |
| `CacheCoherence.EvictionSpares` | authz/cache.go:76-93 | An eviction leaves every entry its write does not concern. |
| `CacheCoherence.PutKeepsInv` | authz/cache.go:66-73 | The epoch keeps out every load that an eviction overtook. |
| `CacheCoherence.UnovertakenIsCached` | authz/cache.go:60-73 | In every run a load that no eviction overtakes between its beginning and its end is cached. |
| `CacheCoherence.OvertakenIsDropped` | authz/cache.go:66-73 | A load that an eviction overtook leaves the cache as it is. |
| `CacheCoherence.StepKeepsInv` | authz/engine.go:129-209 | Under any interleaving of loads, writes, evictions and expiry each cached entry is built from bindings, and from a role read for each binding on its own, that are current or have an eviction pending that deletes the entry. |
| `CacheCoherence.NothingReplacedIsServed` | authz/admin.go:110-211 | Once the eviction of a write has run, no later entry of its subject read the bindings before that write, and no binding of any entry read its role before it. |
| `CacheCoherence.SettledIsCurrent` | authz/cache.go:45-57 | In every run, when nothing pending concerns a subject, a get serves exactly the subject's current access. |
| `LockOut.CachedIsCurrent` | authz/delegation.go:131-168 | While no unfinished change concerns the actor, which the lock ensures up to the write, the access read from the cache is the actor's current access. |
| `LockOut.WriteMakesPlanCurrent` | authz/admin.go:101-114 | The write makes the access that was checked the actor's access. |
| `LockOut.CheckedIsPlanned` | authz/delegation.go:131-168 | What the check rebuilt from its own reads is what the write will leave. |
| `LockOut.PassesIff` | authz/delegation.go:131-168 | In every run the check of a call that has read all it needs passes exactly when the change would leave the actor every protected permission it holds at that moment. |
| `LockOut.StepKeepsInv` | authz/admin.go:59-65 | Every step of the lock holder and of everyone else keeps the invariant of the critical section. |
| `LockOut.StepKeepsProtected` | authz/admin.go:89-211 | No step takes a protected permission the actor holds away. |
| `LockOut.NeverLockedOut` | authz/admin.go:89-211 | For every interleaving of one actor's own Unbind and SaveRole calls, with nobody else changing that actor's access, a protected permission once held stays held. |
| `Transactor.FindEntry` | database/transactor.go:29-37 | The walk returns the nearest entry on the pool, none before it being on it, and the end of the chain for a connection without a pool or with no entry. |
| `Transactor.FindOutboxEntry` | database/transactor.go:83-91 | The walk returns the nearest entry on a pool the event queue lives on, none before it being on one, and the end of the chain otherwise. |
| `Transactor.JoinsIff` | database/transactor.go:94-100 | A connection joins exactly when it exposes a pool the context has a transaction on, and that transaction is the only one on it. |
| `Transactor.WriteMeans` | database/base_repository.go:22-29 | A repository write goes to that one transaction, or is committed at once when there is none. |
| `Transactor.PublishMeans` | event/typed.go:66-111 | Publish writes in the innermost transaction on an outbox connection; without one it fails, saying whether there was another transaction, and a payload that cannot be encoded fails too; then nothing is written. |
| `Transactor.PublishGoesTo` | event/typed.go:66-111 | An event is appended to what the innermost transaction on an outbox connection holds and changes no other transaction; a payload that cannot be encoded changes nothing. |
| `Transactor.PublishGoesNowhere` | event/typed.go:66-80 | Without such a transaction Publish fails, saying whether there was another one, and writes nothing. |
| `Transactor.RunMeans` | database/transactor.go:141-170 | Every program of nested scopes, in any context, has the outcome, the writes, the commits and the open transactions' contents its compositional meaning gives, and leaves no transaction open behind it. |
| `Transactor.ScopeOutcome` | database/transactor.go:125-170 | A scope returns its body's error or panic as it is, its own error when it cannot begin or commit, and the body's outcome when it joins. |
| `Transactor.OneTransactionEach` | database/transactor.go:58-70 | Every statement of every run sees at most one open transaction a connection. |
| `Transactor.WritesWait` | database/transactor.go:125-170 | Inside a scope on a connection, at any depth, nothing written on it is kept before that scope ends and nothing is lost. |
| `Transactor.OutermostDecides` | database/transactor.go:125-170 | The outermost scope on a connection keeps everything written on it inside when it returns no error and commits, and nothing otherwise. |
| `Transactor.PublishedIffCommitted` | event/typed.go:48-78 | What a whole run leaves committed on a connection: every row and event the run wrote on it, or none, by the outcome of its scope. |
| `Transactor.WriteEscapes` | database/transactor.go:28-37 | On a connection that exposes no pool a write inside a scope stays although the scope rolls back. |
| `Transactor.PlainWriteEscapes` | database/base_repository.go:44-57 | A plain repository's write stays although the scope around it rolls back, whatever the connection. |
| `Transactor.DecidesIff` | database/transactor.go:125-170 | A scope decides for every program that reaches its database through its connection and no plain repository, if and only if the connection exposes its pool. |
| `Catalogue.CycleSearch.Visit` | authz/catalogue.go:164-175 | The three-colour visit ends, keeps the visiting permissions a walk, leaves every visited one after what it requires unless reported, and reports only requirements on cycles. |
| `Catalogue.CycleSearch.SearchAll` | authz/catalogue.go:155-182 | The search reports nothing exactly when the requirements are acyclic, and each reported one lies on a cycle. |
| `Catalogue.ReturnIsCycle` | authz/catalogue.go:166-170 | A requirement of a permission still being visited closes a real cycle. |
| `Catalogue.FallingIsAcyclic` | authz/catalogue.go:155-182 | Permissions left after everything they require admit no cycle. |
| `Catalogue.Validate` | authz/catalogue.go:139-152 | A catalogue passes exactly when every requirement is defined and none leads back to itself; undefined requirements are reported each, in order, and only they, otherwise only requirements on cycles. |
| `Catalogue.UnknownNone` | authz/catalogue.go:140-147 | The list of unknown requirements is empty exactly when every requirement is defined. |
| `AuditWriter.NewIsOk` | audit/async.go:25-42 | A new writer has the buffer asked for or 100, the workers asked for or one, a WaitGroup that counts them, and meets the invariant. |
| `AuditWriter.WriterKeepsInv` | audit/async.go:61-79 | Every operation of Write, taken one at a time, keeps the invariant. |
| `AuditWriter.WorkerKeepsInv` | audit/async.go:44-53 | So does every operation of a worker; a worker leaves only when the channel is closed and empty. |
| `AuditWriter.ShutdownKeepsInv` | audit/async.go:86-104 | So does every operation of Shutdown, called any number of times. |
| `AuditWriter.NeverPanics` | audit/async.go:44-104 | In every interleaving no send or close meets a closed channel, the WaitGroup never goes below zero, and its count is live workers, queued entries, entries in process and a writer mid-send. |
| `AuditWriter.WriteOutcome` | audit/async.go:55-79 | In every interleaving a Write call returns nil with its entry queued once, or an error with nothing changed; nil exactly when there was room as it came to send, always when it locked an open writer with room, never a closed one. |
| `AuditWriter.ZeroMeansFlushed` | audit/async.go:93-104 | At a count of zero nothing is queued or in hand, every worker has left and every accepted entry was handed over. |
| `AuditWriter.ShutdownFlushes` | audit/async.go:86-104 | Shutdown returns nil only after every entry whose Write returned nil was handed to the underlying repository, each exactly as often as it was accepted. |
| `AuditWriter.WorkerProgress` | audit/async.go:44-53 | Every worker step brings the end of the drain nearer. |
| `AuditWriter.ClosedDrains` | audit/async.go:44-53 | After the close, while the WaitGroup holds Shutdown back, some worker can take a step. |
| `ServiceScan.ActsInside` | archtest/rules_service.go:298-324 | A node scanned inside a transaction has the same calls as outside, all of them inside. |
| `ServiceScan.CalledIff` | archtest/rules_service.go:326-358 | What classify takes a call for is told by the shape of what it calls: a function's name, a method of the receiver, or a write-named method of a repository field of the receiver. |
| `ServiceScan.AuditsIff` | archtest/rules_service.go:373-401 | A call is an audit call exactly when it is one the rule names, by method or by imported member, or, when it names none, Write or Record on an audit field of the receiver. |
| `ServiceScan.FoundIff` | archtest/rules_service.go:298-324 | A call is found inside a transaction exactly when the scan of its node began inside or its position in the syntax tree lies in the body of a function literal that is a direct argument of a call to a method of a transaction's name. |
| `ServiceScan.HelperIsReached` | archtest/rules_service.go:360-371 | The calls of a helper some path reaches are reached, with the flag of that path. |
| `ServiceScan.PathIsSeen` | archtest/rules_service.go:360-371 | A finished scan entered every helper at the end of every call path, in that path's transaction state. |
| `ServiceScan.ReachedIsRecorded` | archtest/rules_service.go:298-371 | And recorded every call a path reaches. |
| `ServiceScan.Scanner.Walk` | archtest/rules_service.go:298-324 | The walk ends for any call graph, recursion included, records only what paths reach, and records all of the node and of every helper it enters. |
| `ServiceScan.Scanner.WalkArgs` | archtest/rules_service.go:312-322 | Of a transaction call's arguments it records the calls of function literals as inside and of all others as they were; FoundIff tells which positions those are. |
| `ServiceScan.Scanner.Classify` | archtest/rules_service.go:326-401 | From its syntax and the function it stands in, a call is recorded as what it is: an audit call by the rule's list or the default, a helper to follow, or a write-named method of a repository field, with its place and flag. |
| `ServiceScan.Scanner.FollowHelper` | archtest/rules_service.go:360-371 | A helper is entered once a transaction state. |
| `ServiceScan.Scan` | archtest/rules_service.go:258-284 | A write with its flag is recorded exactly when some call path from the method reaches a function that makes it; the flag is true exactly when the call, or one on the path, stands by its position in a transaction closure. Audited exactly when a path reaches an audit call. |
| `ServiceScan.AtomicWrites` | archtest/rules_service.go:457-495 | A method is reported exactly when it reaches writes through two fields or more and one of them by a path no call of which, the write included, stands in a transaction closure. |
| `ServiceScan.WritesUnaudited` | archtest/rules_service.go:419-422 | A method offends exactly when it reaches a write and no audit call. |
| `ServiceScan.RequiresAudit` | archtest/rules_service.go:410-455 | A method is reported exactly when it offends and is not exempt; an exemption is stale exactly when no method of its name offends. |
| `StringConstants.Pass` | archtest/rules_permissions.go:168-183 | One pass in any order adds only values at the ends of chains; one that changes nothing leaves nothing resolvable. |
| `StringConstants.AddKeepsSound` | archtest/rules_permissions.go:222-249 | A value resolved from known ones is the string at the end of its constant's chain. |
| `StringConstants.ChainIsKnown` | archtest/rules_permissions.go:157-186 | When nothing more resolves, every constant on a chain to a string is known with that string. |
| `StringConstants.StringConstants` | archtest/rules_permissions.go:157-186 | The loop ends and maps exactly the constants whose chain of definitions ends in a string literal, each to that literal: a literal to itself, a name and an imported name to what they refer to, anything else to nothing. |
| `StringConstants.OrderDoesNotMatter` | archtest/rules_permissions.go:167-183 | Two results of the loop are equal, whatever orders were taken. |
| `StringConstants.CyclicIsUnresolved` | archtest/rules_permissions.go:157-186 | A constant whose definitions run into a cycle is not in the result. |

## Left out

- Admin.OwnOperationAddsNothing: compares no scopes, as saving a role does not; AdminReach states what holds with them.
- AdminReach.OwnHistoryReachesNoWider: one way only; a save that goes beyond reach may still stay within what was held at the start.
- Administration.Administrator.SaveRole: calls run one after another, the ids a store assigns are parameters, and a store that fails for a reason of its own is left out, as is a role's description.
- Delegation.ValidateRole: problems are listed in no particular order.
- ServiceScan.Scan: starts from the functions, the fields that are repositories or audit writers and the names files give imports; finding those, and which methods are a service's, is left out.
- Backoff.DelayAfter: requires a positive first delay not above the longest, as the start-up check does, and a longest delay of at most 2^62 ns, above which the code's product may overflow.
- CacheCoherence.SettledIsCurrent: one process; another process's writes are seen after the lifetime at the latest, which is not modelled beyond entries expiring at any time.
- LockOut.NeverLockedOut: the striped lock is one lock for the actor; two actors on one stripe only wait longer. A call that dies between write and eviction is not modelled.
- Transactor.RunMeans: a database lets a begin or a commit fail at will, a failed commit keeps nothing, and a rollback always works.
- Access.ListAgreesWithRecord: permissions with a feature, where the two ask the gate about different places, are outside it.
- AuditWriter.ShutdownFlushes: the outcome of the underlying write and OnError are left out; a failed write counts as handed over, as in the code.
- StringConstants.StringConstants: starts from the collected declarations and imports; reading them from files is left out.
- Event queue: payloads, JSON envelopes, the last_error and updated_at columns, rounding of times to whole seconds, tracing, logging, the lanes and channels of a worker, and the SQL and its dialects.
- A deadlock the database resolves by rolling back is an abort at any step; waiting times and fairness are left out.
- Authorization: resolver and store failures other than "not found", predefined roles changing at run time, the SQL filter built from clauses, HTTP middleware and the TypeScript output.
- The epoch of the cache is unbounded here; the code's 64-bit counter is taken not to wrap.
- Catalogue: Define and the patterns of names and attributes; the order in which one permission's cycle edges are reported is the order of the search and is not stated.
- Everything else in the repository (HTTP, configuration, health, i18n, code generation, datatables, notifications, incidents, the other architecture rules): plumbing, text rendering or single-pass checks that would only add easy members.
