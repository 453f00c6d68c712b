# Event-sourced writes and the transactional outbox

A Dafny model of goaxon's write path: optimistic appends to Postgres, the transactional outbox and its
dispatchers, aggregates and their repository, and the orders example that turns the guarantees of the
lower layers into statements about whole runs.

## The system

`Protocol.dfy` is one interleaved transition system: the committed `events` and `outbox` tables, any number of
appends in flight, any number of dispatchers with open claims, the bus, and the log of what was published. A run
is a sequence of steps from the empty database; each step is enabled or not, and `Protocol.After` says what it
does.

| step | what it is | source |
|---|---|---|
| `Begin`, `HeadCheck` | `Append` opens its transaction and compares `MAX(sequence)` with the expected version | `store/postgres/postgres.go:88-103` |
| `InsertEvent` | one row of `events`; waits while another open transaction holds the key, conflicts if the key is committed | `store/postgres/postgres.go:46`, `store/postgres/postgres.go:123-134` |
| `InsertOutbox`, `SkipId` | one row of `outbox` under an id from the bigserial counter, which no rollback resets; ids can be lost | `store/postgres/postgres.go:50`, `store/postgres/postgres.go:135-143` |
| `CommitAppend` | all rows of the batch become visible in both tables | `store/postgres/postgres.go:92`, `store/postgres/postgres.go:109-110` |
| `ReportError`, `ServerCommit`, `Rollback` | a statement or the commit reports an error; the server then applies a complete transaction after all, or rolls back | `store/postgres/postgres.go:92-110` |
| `Subscribe` | a handler is added | `store/memory/memory.go:82-86` |
| `Claim` | lock committed, pending, unlocked rows in id order | `store/postgres/postgres.go:156-191` |
| `Publish`, `CrashPublishing` | one `Bus.Publish` of the claim's next entry; or the dispatcher dies in the middle of it | `event/dispatcher.go:112-120`, `store/memory/memory.go:90-102` |
| `CommitClaim`, `CommitClaimError`, `ServerMark` | mark the delivered entries and commit; an error may hide a commit that is applied later | `store/postgres/postgres.go:202-218` |
| `ReleaseClaim`, `Abandon`, `Drop` | roll the claim back; the dispatcher is gone; the server notices a lost connection and drops the locks | `store/postgres/postgres.go:220-228` |

Above it, `OrdersSystem.dfy` adds command runs (load, decide, save, retry) on the orders aggregate.

The code that changes state in Go does so here. `Memory.Store`, `Memory.Bus`, `Aggregate.Aggregate` (an aggregate
with its embedded `Base`), `Aggregate.Repository`, `Orders.SummaryProjection`, `Postgres.Store` and
`Dispatcher.Dispatcher` are classes whose methods follow the Go methods. `Postgres.Store` keeps the run it has made so
far as a ghost sequence of steps; `Valid()` says that its state is what this run reaches, and between any two of
its own steps everybody else may take any number of theirs. So every call of `Append`, `Load`, `Claim`, `Commit`,
`Release`, and every tick of a dispatcher, is proved to be a run of the protocol. A store constructed as `calm` has
no failures and no other parties; the statements about draining use it.

## Hypotheses

- Appends run at READ COMMITTED, the default of Postgres and pgx: a statement sees the rows committed when it runs.
- Neither `Append` checks that sequences run from `expectedVersion + 1`, or that the envelopes belong to the stream.
  `Events.WellFormedBatch` is therefore a precondition of `Postgres.Store.Append`; `Aggregate.Repository.Save`
  establishes it (`Aggregate.EnvelopesAreWellFormed`).
- The two stores differ on empty batches: Postgres accepts one unseen, the memory store checks the version and may
  create an empty stream. `Save` never sends one. Linearizability is stated for non-empty batches, the only ones
  that begin a transaction.
- What a claim takes is a hypothesis on the claim, not on the number of dispatchers. `DispatchOrder.Guard` says which
  rows a claim may take for delivery in order, for dispatching prefixes, and for the read model; each guard is
  proved exact. The code does not check any of them. A claim of the first rows fulfils all of them when no open
  claim, in a dispatcher or on the server, has rows of the same streams (`DispatchOrder.ApartIsGuarded`), so in
  particular when the previous claim has ended on both sides (`DispatchOrder.IdleIsGuarded`). Whole runs of such
  claims are guarded (`DispatchOrder.ApartRunIsGuarded`, `ProjectionAgreement.ApartWorldRunIsGuarded`).
- The projection's records outlive a dispatcher that crashes: they are the fold of the log of all deliveries. Where
  the records live only in the memory of the crashed process, that process's restart is not modelled.
- Handlers close over state. They are functions that pass this state on explicitly.
- Identifiers are an opaque type, apart from the zero UUID; sequences and outbox ids are natural numbers.

## Findings

- *Events can be overtaken, and the read model left wrong for good, with several dispatchers and with one.* The
  documentation says that stopping a batch at the first failed publish keeps later entries from overtaking
  (event/dispatcher.go:22-24), and that several dispatchers can run safely (event/outbox.go:26-28).
  - With two dispatchers and no failure at all, one claims `OrderPlaced`, the other claims and publishes `OrderShipped`
    first, and `OnOrderPlaced` then overwrites the record (`Counterexamples.TwoDispatchersDisagree`). Every row is
    dispatched and no claim is open, so nothing will correct the record.
  - One dispatcher does the same after a commit that reported an error while the server keeps the locks of the
    lost transaction: its next claim skips the locked row and takes the one behind it
    (`Counterexamples.OneDispatcherDisagrees`). `Run` makes that claim at once after a full batch
    (event/dispatcher.go:86-91).
  - One dispatcher offers the second event of a stream before the first one was ever delivered, after a failed
    publish whose release reported an error (`Counterexamples.OneDispatcherOvertakes`).
  - The exact conditions, at the claim and with any number of dispatchers: no event is ever overtaken if and only if
    each claim leaves out only predecessors that have been delivered (`DispatchOrder.OvertakingCondition`); the
    dispatched rows stay prefixes of their streams if and only if each claim takes every pending predecessor of its
    rows (`DispatchOrder.PrefixCondition`); the read model stays right if and only if, besides, no dispatcher has
    yet to publish a row that comes before one of the claimed rows (`AgreementGuard.AgreementGuardIsExact`). For a
    claim of the first rows, the second condition says that no open transaction locks a row that comes before one
    of them (`DispatchOrder.FirstClaimIsClosed`).
  - After the fact, the record of a dispatched stream is right if and only if the projection saw the last event of the
    stream last (`ProjectionAgreement.AgreementCondition`).
- *A commit that reports an error may have been applied.* The comment at event/dispatcher.go:130-131 says that the
  rows are still pending then. Right after the error a published row is pending if and only if no other claim has
  marked it; while the transaction is still open, it always is (`FailedCommits.AfterFailedCommit`). It need not stay
  so: in the run of `Counterexamples.FailedCommitMarks` the server applies the commit after all. Unless another
  claim marks them, the published rows stay pending whatever happens next if and only if the transaction was
  already gone when the commit was sent (`FailedCommits.FailedCommitCondition`). Nothing is lost either way
  (`DispatchSafety.NothingIsLost`).
- *`Run` does not back off after every failure.* The comment at event/dispatcher.go:95-97 has zero returned on errors.
  A tick is followed by no wait exactly when it fetched batchSize rows, whether or not it published them
  (`Dispatcher.Dispatcher.Run`). A tick that made a claim fetched as many rows as could be claimed at that moment, up
  to batchSize (`Dispatcher.FetchedAt`, in the contracts of `Tick` and `Run`). So for a positive batch size there is
  no wait after a tick that failed to publish if and only if at least batchSize rows were claimable at its claim; and
  with a batch size of zero there is never a wait.
- *Delivery does not follow the outbox ids across streams.* Ids are drawn before commit, so a row can come in below one
  that has been delivered (`GlobalOrder.OutOfIdOrder`); and a claim can pass over a lower row that another claim
  holds (`GlobalOrder.OutOfIdOrderWhenSettled`, in which no append is open and nothing fails). The exact condition, at
  the claim and with any number of dispatchers: each row is offered after all rows with lower ids, also those that
  come in later, if and only if no append that may still be applied has drawn an id below a claimed one, and each
  lower row that the claim leaves out has been delivered (`GlobalOrder.IdOrderCondition`). For a claim of the first
  rows the second part says that each lower row locked by an open transaction has been delivered
  (`GlobalOrder.FirstClaimIdGuard`). Within each stream the ids do follow the sequences
  (`Streams.OutboxIdsFollowSequences`).

## Reading order

`Events`, `Protocol`, then the invariants `AppendSafety`, `Streams`, `DispatchSafety`; `Continuations` and
`DispatchOrder`, `Handlers` on order and its guards; the specification `Memory` and its refinement
`Linearizability`; the code as classes in `Postgres`, `Dispatcher`, `Aggregate`; the client in `Orders`,
`OrdersSystem`, `ProjectionAgreement`, `AgreementGuard`, `OrdersApp`; and what is false in `Counterexamples`,
`FailedCommits`, `Arrivals`, `GlobalOrder`.

Lemmas with a `requires AppendInv(s)` (and `DispatchInv(s)`, `WorldInv(w)`) hold in every state of every run, because
`RunKeepsAppendInv` (`RunKeepsDispatchInv`, `WorldRunKeepsInv`) establish these for every run. Lemmas with a
`requires OfferInv(s)`, `PrefixInv(s)`, `OrderInv(s, promise)` or `AgreementInv(w)` hold in every state of every run
with guarded claims, by `DispatchOrder.GuardedRunKeepsOrder` and `ProjectionAgreement.GuardedWorldRunKeepsInv`.

## Model

| member | source | states |
|---|---|---|
| `AppendSafety.RunKeepsAppendInv` | store/postgres/postgres.go:88-145 | In every reachable state, with any number of interleaved appends: streams have no gaps, the two tables hold the same envelopes, ids follow sequences within a stream, at most one open append per stream holds rows, and every committed row has exactly one committed append as its writer. |
| `AppendSafety.HeadIsMax` | store/postgres/postgres.go:93-101 | In a gap-free table, what the head check's MAX(sequence) reads is h exactly if h is stored (or 0) and h + 1 is not. |
| `AppendSafety.FirstRowExcludes` | store/postgres/postgres.go:46 | When another append has uncommitted rows of a stream, an append that may insert into that stream meets a committed key: the primary key alone excludes a second writer. |
| `AppendSafety.ApplyKeeps` | store/postgres/postgres.go:104-110 | Making a complete append visible keeps the whole invariant. |
| `AppendSafety.InsertRowsAdds` | store/postgres/postgres.go:104-108 | The row-by-row inserts of a batch add exactly the batch's keys, with the batch's contents, and change no other row. |
| `Streams.StreamsAreContiguous` | store/postgres/postgres.go:276-327 | The committed sequences of a stream are exactly 1..head, and Load returns head rows, the i-th with sequence i. |
| `Streams.LoadReadsStream` | store/postgres/postgres.go:277-283 | Any sequence that holds exactly the stream's rows in sequence order is the stream. |
| `Streams.SingleWriter` | store/postgres/postgres.go:63-65 | At most one open append holds uncommitted event rows of a stream, and these start right after the committed head. |
| `Streams.FirstRowDecides` | store/postgres/postgres.go:104-108 | Once the first row of a batch is in, no later insert of that batch waits or conflicts. |
| `Streams.ConflictMeansStale` | store/postgres/postgres.go:84-87 | A conflict, by head check or by unique violation, is reported only at a moment when the committed length differs from the expected version. |
| `Streams.ApplyExtendsStream` | store/postgres/postgres.go:88-111 | A commit appends its batch to its own stream, whose length was the expected version, and leaves all other streams as they were. |
| `Streams.RunKeepsPrefix` | store/postgres/postgres.go:28-32 | What a stream held at any earlier moment of a run is a prefix of what it holds later. |
| `Streams.OneOutboxRowPerEvent` | store/postgres/postgres.go:135-140 | Each committed event has exactly one outbox row, with equal contents. |
| `Streams.OutboxIdsFollowSequences` | store/postgres/postgres.go:50 | For two committed outbox rows of a stream, the lower id has the lower sequence and conversely, although ids are drawn before commit and have gaps. |
| `Streams.StepDrawsIds` | store/postgres/postgres.go:50 | The counter of outbox ids moves by one with each outbox insert or lost id, and never otherwise, not even back on a rollback. |
| `Streams.RollbackFrees` | store/postgres/postgres.go:92-110 | A rollback stores nothing, frees the keys that the append held, and gives no drawn id back. |
| `Streams.AppendIsAtomic` | event/outbox.go:13-23 | A key is stored exactly if a committed append wrote it, an id is in use exactly if a committed append drew it; an append that failed at any insert left no row in either table. |
| `Streams.CommittedInPlace` | store/postgres/postgres.go:88-111 | The batch of an applied append stands in its stream right behind the version that it expected, at every later moment. |
| `Streams.RetryConflicts` | aggregate/aggregate.go:98-101 | After an append has been applied, acknowledged or not, no append with the same expected version ever holds a row or is applied, and its head check and first insert both conflict. |
| `Memory.Store.Append` | store/memory/memory.go:30-43 | Compare-and-append: error when cancelled, conflict exactly when the length differs, otherwise the batch goes to the end of the stream; nothing changes on an error. |
| `Memory.Store.Load` | store/memory/memory.go:46-61 | The stream, or not-found exactly when the key is missing. |
| `Memory.RunAllRunsEach` | store/memory/memory.go:88-102 | The handlers run one after the other, each on the state that the one before it left, whatever that one returned; the joined errors are those of exactly the handlers that failed in their turn, and nil if and only if none did. |
| `Memory.Bus.Publish` | store/memory/memory.go:90-102 | All handlers subscribed at the call run in registration order, each on the state left by the one before, and the last one's state is the result; the errors are exactly those of the handlers that failed, in order; the subscriptions stay. |
| `Linearizability.RunsAreLinearizable` | store/memory/memory.go:30-43 | Every run of interleaved Postgres appends is a sequential run of the memory store's compare-and-append, which gives the same answers and ends with the same streams. |
| `Linearizability.EffectRefines` | store/postgres/postgres.go:88-133 | Step by step: success takes effect at the commit, a conflict at the head check or the violating insert, and no other step changes what the memory store holds. |
| `Linearizability.HistoryExplains` | store/postgres/postgres.go:88-111 | That sequential history has exactly one operation for each append that took effect, with its arguments and its answer, and none for any other. |
| `Linearizability.HistoryRespectsRealTime` | store/postgres/postgres.go:88-111 | An append that was answered before another one began comes first in the history. |
| `DispatchSafety.RunKeepsDispatchInv` | event/outbox.go:25-36 | In every reachable state with any number of dispatchers: live claims are pairwise disjoint, claimed rows are pending, dispatched rows were delivered and marked by their claim, and publishes are accounted for. |
| `DispatchSafety.NothingIsLost` | event/outbox.go:13-17 | Each committed event is still pending in the outbox, or the log has a Publish of it in which each of the handlers subscribed at that moment has answered, and every answer is nil; under crashes, lost connections and commits of unknown outcome. |
| `DispatchSafety.NothingIsLostInRuns` | event/outbox.go:13-17 | The same of the steps of any run: the row is pending, or one of the steps published it and all handlers that the bus had for its type at that step answered nil. |
| `DispatchSafety.RedeliveryBound` | event/dispatcher.go:17-20 | In every run whose claims ask for at most batchSize rows, successful publishes equal the dispatched rows plus what was published in sessions whose marks never took effect; at most batchSize for each such session. |
| `DispatchSafety.RowsAreConserved` | store/postgres/postgres.go:164-172 | Committed outbox rows are exactly free, claimed and dispatched ones, without overlap, also by number; the claimed ones are as many as the entries of live claims. |
| `DispatchSafety.FirstClaimSize` | store/postgres/postgres.go:164-172 | A claim of the first unlocked rows takes as many as can be claimed, up to its batch size. |
| `DispatchSafety.OnlyTheOwnerMarks` | store/postgres/postgres.go:202-218 | A row goes from pending to dispatched at most once, in a commit of the one live claim that holds it. |
| `DispatchSafety.ReleasedRowsAreFree` | event/outbox.go:55-57 | A release, or the loss of the connection, makes every row of the claim claimable again. |
| `DispatchSafety.EndedOnce` | event/outbox.go:39-43 | A claim that its dispatcher no longer works on was ended by exactly one step. |
| `DispatchOrder.GuardedRunKeepsOrder` | event/dispatcher.go:112-128 | In every run with guarded claims, with any number of dispatchers and transactions that linger on the server: whatever was offered had all its predecessors delivered before, dispatched rows are prefixes of their streams, and no dispatcher has yet to publish a row that comes before one that is dispatched or may be marked; each as far as the guard promises it. |
| `DispatchOrder.OvertakingCondition` | event/dispatcher.go:22-24 | From a state that guarded claims have led to, every continuation with guarded claims offers each event after its predecessors, if and only if each predecessor that this claim leaves out has been delivered. |
| `DispatchOrder.PrefixCondition` | event/dispatcher.go:122-132 | In every continuation with guarded claims the dispatched rows are prefixes of their streams, if and only if this claim takes every pending predecessor of its rows. |
| `DispatchOrder.FirstClaimIsClosed` | store/postgres/postgres.go:164-172 | A claim of the first unlocked rows takes every pending predecessor of its rows if and only if no open transaction locks one. |
| `DispatchOrder.ApartIsGuarded` | store/postgres/postgres.go:164-172 | A claim of the first unlocked rows fulfils every guard when no open claim, in a dispatcher or on the server, has rows of the same streams. |
| `DispatchOrder.ApartRunIsGuarded` | store/postgres/postgres.go:164-172 | A run whose claims take the first unlocked rows, each while no claim is open or none on the same streams, fulfils every guard throughout. |
| `DispatchOrder.NeverOvertakes` | event/dispatcher.go:22-24 | With guarded claims, an event is not offered to the bus before each of its predecessors in the stream has been published successfully, with appends, other dispatchers, crashes and failures in between. |
| `DispatchOrder.FirstDeliveriesAreConsecutive` | event/dispatcher.go:113-119 | With guarded claims, at the first delivery of position n of a stream exactly the positions 1 to n - 1 have been delivered. |
| `DispatchOrder.DispatchedIsPrefix` | store/postgres/postgres.go:164-172 | With guarded claims, the dispatched rows of each stream form a prefix of it. |
| `Handlers.StepKeepsSeen` | event/dispatcher.go:112-132 | With guarded claims, a handler subscribed to all stored types has, in each stream, last seen a position no lower than any dispatched one, whatever is redelivered and by whom. |
| `Handlers.StepSubscribes` | store/memory/memory.go:82-86 | A new handler comes last among those of its type, and nothing else changes the subscriptions. |
| `Postgres.FirstPendingIsFirst` | store/postgres/postgres.go:164-172 | The claim takes claimable rows in id order, at most batchSize, and leaves a claimable row out only if the batch is full of lower ids. |
| `Postgres.SelectHead` | store/postgres/postgres.go:93-97 | The aggregate query yields the largest sequence of the stream, or 0. |
| `Postgres.SelectStream` | store/postgres/postgres.go:277-283 | The query yields exactly the stream's rows in sequence order. |
| `Postgres.OthersKeep` | store/postgres/postgres.go:63-65 | Whatever others do, an append or a claim in progress changes only by the server rolling it back. |
| `Postgres.Store.Append` | store/postgres/postgres.go:88-111 | Success means that the batch stands in the stream right behind the expected version; a conflict that it was not applied and that the committed length is not the expected version; any other error leaves it open. With a current version, and nothing failing and nobody else at work, it succeeds and adds exactly the batch. The empty batch does nothing; the call is a run of the protocol and streams only grow. |
| `Postgres.Store.InsertRow` | store/postgres/postgres.go:113-145 | One more row in both tables, or the answer that the failed insert calls for; a conflict only if the stream's committed length is not the expected version. |
| `Postgres.Store.Load` | store/postgres/postgres.go:276-327 | The non-empty committed stream in order, or not-found only when it is empty; never a conflict; no stream shrinks meanwhile. When nothing fails it answers by exactly whether the stream is empty. |
| `Postgres.Store.Claim` | store/postgres/postgres.go:156-191 | No claim for a batch size of at most 0 or when nothing is claimable; otherwise a fresh claim on between 1 and batchSize rows with their contents, the first claimable ones at that moment. |
| `Postgres.Store.Commit` | store/postgres/postgres.go:202-218 | The claim is over; success means that of its entries exactly the delivered ones are dispatched. |
| `Postgres.CommitMarksExactly` | store/postgres/postgres.go:207-209 | Committing a live claim dispatches its published entries and none of its others. |
| `Postgres.Store.Publish` | store/memory/memory.go:90-102 | The claim's next entry went to exactly the handlers subscribed to its type, each of them answered, and the Publish succeeds if and only if every answer is nil; the claim goes on or stops accordingly. |
| `Postgres.Store.Release` | store/postgres/postgres.go:220-228 | The claim is over; success means that it has marked nothing and that all its rows are claimable again. |
| `Postgres.OnlyMineAdded` | store/postgres/postgres.go:88-111 | Between two moments at which no other append to a stream was applied, the stream gains exactly what the caller's own append added. |
| `Dispatcher.Dispatcher.PublishAll` | event/dispatcher.go:112-120 | The delivered ids are a prefix of the claim's, each answered nil by every handler; the whole claim if no publish failed, and otherwise the last Publish was of the next entry, some handler's answer to it is an error, and exactly one failure was reported. |
| `Dispatcher.Dispatcher.Tick` | event/dispatcher.go:98-134 | The tick is a run of the protocol that ends its claim exactly once on every path. Unless the commit or the release reports an error, exactly the published prefix of the claimed entries is dispatched, also when it is empty; every handler has answered nil to each of that prefix. The entries it fetched are as many as could be claimed at its claim, up to the batch size. Fetching entries and reporting nothing means that all are dispatched; fetching none and reporting nothing means that none was claimable. |
| `Dispatcher.Dispatcher.Run` | event/dispatcher.go:75-93 | The timer wait is 0 exactly after ticks that fetched batchSize entries, and the poll interval otherwise. From an idle store where nothing fails and nothing is appended, so many firings empty the outbox if and only if firings * batchSize reaches the number of pending rows, and the waits of 0 are exactly those after the full batches. |
| `Dispatcher.QuietTickDrains` | event/dispatcher.go:98-134 | An undisturbed tick removes exactly the rows it claimed, the first ones, from the pending rows. |
| `Dispatcher.QuietTicksDrain` | event/dispatcher.go:98-134 | k undisturbed ticks publish the first k * batchSize pending rows once each in id order, mark exactly these, and leave the others pending. |
| `Dispatcher.Drains` | event/dispatcher.go:85-91 | k undisturbed ticks empty the outbox if and only if k * batchSize is at least the number n of pending rows, so the ceiling of n / batchSize ticks do and fewer do not; the next tick is full exactly if (k + 1) * batchSize <= n. |
| `Aggregate.Aggregate.LiveStateIsReplay` | aggregate/aggregate.go:47-57 | For every deterministic Apply, the live state is the fold of the observed events followed by the queued ones, and the version counts both. |
| `Aggregate.Aggregate.SetID` | aggregate/aggregate.go:62-71 | Set exactly if it was unset and the new ID is not zero; nothing else changes. |
| `Aggregate.Aggregate.Raise` | aggregate/aggregate.go:88-92 | Applies, queues and counts the event; the invariant of versions and state is kept. |
| `Aggregate.Aggregate.MarkCommitted` | aggregate/aggregate.go:102-105 | The queue joins the observed events; state and current version stay, the committed version catches up. |
| `Aggregate.Aggregate.Rehydrate` | aggregate/aggregate.go:110-114 | A stored event is applied and both versions advance, also with events queued, which stay queued; with none queued the state is again the replay of what was observed. |
| `Aggregate.EnvelopesAreWellFormed` | aggregate/aggregate.go:197-207 | The envelopes of a Save run from the committed version + 1 in the aggregate's stream, and carry the queued events in order. |
| `Aggregate.Repository.Load` | aggregate/aggregate.go:155-170 | A fresh aggregate whose state is the fold of the whole committed stream, on either store; not-found only for an empty stream. |
| `Aggregate.Repository.Save` | aggregate/aggregate.go:186-223 | Nothing for an empty queue; a failed append leaves the aggregate as it was; what the aggregate counts as committed stays a prefix of what the store holds. On a plain store it answers cancellation and conflicts as such, and publishes the envelopes of the queued events one after the other up to the first error, returning nil if and only if there is none; on an outbox store it publishes nothing and answers as the append did. |
| `Aggregate.Repository.SaveAndReload` | aggregate/aggregate.go:155-223 | On either store, with interleaved writers on Postgres: what is loaded after a Save extends what was saved, and equals it in state and versions whenever the aggregate was up to date and no other append to its stream was applied in between. When nothing fails and nobody else is at work, saving and loading succeed. |
| `Aggregate.Repository.SaveAgain` | aggregate/aggregate.go:98-101 | Of a Save on Postgres that reported an error and its retry at most one append is ever applied; if the first one was, the retry reports an error and leaves the aggregate as it was. |
| `Aggregate.Aggregate.VersionsDecide` | aggregate/aggregate.go:49-55 | Of two copies with nothing queued, one having observed what the other has, equal versions imply equal states. |
| `Aggregate.Repository.PublishAppended` | aggregate/aggregate.go:217-221 | Each envelope goes in turn to the handlers of its own type, on the state left by the one before; all before the result succeed, and if one reports an error nothing follows it. |
| `Orders.LegalReplay` | examples/orders/domain/orders.go:187-196 | A prefix of [OrderPlaced, OrderShipped] replays to the name and amount of its OrderPlaced and the status Placed or Shipped by its length, or to the empty new order. |
| `Orders.HandlersDecide` | examples/orders/domain/orders.go:201-219 | On such a history PlaceOrder raises OrderPlaced with its own name, amount and notes exactly if the history is empty, ShipOrder raises OrderShipped exactly after OrderPlaced alone; everything else is refused. |
| `Orders.HandleKeepsLegal` | examples/orders/domain/orders.go:201-219 | Some command raises an event on a legal history if and only if the extended history is legal. |
| `Orders.SummaryOfRows` | examples/orders/domain/orders.go:244-264 | The fold of an order's stream is a record with the placed data, shipped exactly if the stream has both events. |
| `Orders.SummaryProjection.OnOrderPlaced` | examples/orders/domain/orders.go:244-255 | Overwrites the record of the order with the placed values, not shipped, and leaves all others. |
| `Orders.SummaryProjection.OnOrderShipped` | examples/orders/domain/orders.go:257-264 | Sets Shipped in the record, a zero record if there was none; all other records stay. |
| `Orders.SummaryProjection.Get` | examples/orders/domain/orders.go:267-272 | The record and whether there is one; the zero record if not. |
| `OrdersSystem.WorldRunKeepsInv` | examples/orders/domain/orders.go:306-330 | Under any interleaving of any number of command runs with retries: every append is the decision of its command run, what a run loaded stays a prefix of its stream, and every stream is that of an order. |
| `OrdersSystem.NoLostUpdates` | aggregate/aggregate.go:98-101 | Every committed event was decided by a command run on exactly the committed prefix before it. |
| `OrdersSystem.CommitDecidedOnHead` | store/postgres/postgres.go:101-103 | At the commit of an append, what its command run had loaded is the whole committed stream. |
| `OrdersSystem.OrderStreamsAreLegal` | examples/orders/domain/orders.go:201-219 | In every run, every committed order stream is a prefix of [OrderPlaced, OrderShipped]. |
| `ProjectionAgreement.ViewIsExplained` | examples/orders/domain/orders.go:244-264 | For any order of deliveries, a record is fixed by the position delivered last and by whether OrderPlaced was ever delivered. |
| `ProjectionAgreement.StepUpdatesView` | examples/orders/domain/orders.go:302-304 | A Publish applies the event to the records exactly if the projection is subscribed to its type, whatever any handler answers; one cut short by a crash exactly if the projection's turn had come; no other step touches them. |
| `ProjectionAgreement.AgreementCondition` | event/outbox.go:25-28 | With any number of dispatchers and any claims: the record of a fully dispatched stream is the fold of the stream if and only if the projection saw the last event last. |
| `AgreementGuard.AgreementGuardIsExact` | event/outbox.go:26-28 | From a world that guarded claims have led to, with any number of dispatchers, every continuation with guarded claims has the records of all fully dispatched streams right, if and only if this claim is guarded: it takes every pending predecessor of its rows, and no dispatcher has yet to publish one. |
| `AgreementGuard.UnguardedDisagrees` | examples/orders/domain/orders.go:244-255 | After any unguarded claim, steps with guarded claims lead to a wrong record of a fully dispatched order. |
| `ProjectionAgreement.ProjectionAgrees` | event/dispatcher.go:22-24 | With guarded claims and any number of dispatchers, in every reachable state, each record is the fold of a non-empty prefix of its stream, and of the whole stream once all its rows are dispatched, although redelivering OrderPlaced resets Shipped. |
| `ProjectionAgreement.ApartProjectionAgrees` | event/dispatcher.go:22-24 | The record of every fully dispatched stream is the fold of the stream, in every run of the orders application whose claims take the first unlocked rows, each while no claim is open or none on the same streams. |
| `ProjectionAgreement.GuardedWorldRunKeepsInv` | examples/orders/domain/orders.go:302-304 | The subscribed projection never falls behind what is dispatched, in every run with guarded claims. |
| `Counterexamples.TwoDispatchersDisagree` | examples/orders/domain/orders.go:244-255 | A run without failures in which two dispatchers leave a shipped order recorded as not shipped, with every row dispatched and no claim open. |
| `Counterexamples.OneDispatcherDisagrees` | event/dispatcher.go:86-91 | The same with claims made by one dispatcher at a time, no handler failing, after a commit that reported an error. |
| `Counterexamples.OneDispatcherOvertakes` | event/dispatcher.go:22-24 | A run with one dispatcher in which the second event of a stream is offered although the first has never been delivered. |
| `Counterexamples.FailedCommitMarks` | event/dispatcher.go:130-131 | A run in which a commit reports an error and its row is dispatched all the same. |
| `FailedCommits.FailedCommitCondition` | store/postgres/postgres.go:214-216 | After a commit that reported an error, what the claim published stays pending in every continuation unless another claim marks it, if and only if the transaction was already gone when the commit was sent. |
| `FailedCommits.AfterFailedCommit` | event/dispatcher.go:128-132 | Right after a commit that reported an error, a row that the claim published is pending if and only if no other claim has marked it; always, while its transaction is still open. |
| `FailedCommits.EndedClaim` | event/dispatcher.go:128-132 | Once a claim has ended on both sides, a row that it published is dispatched exactly if its own marks or those of another claim took effect, and otherwise claimable or held by another claim. |
| `GlobalOrder.OutOfIdOrder` | store/postgres/postgres.go:50 | A run in which the row with id 2 is delivered and dispatched before the row with id 1 comes in. |
| `GlobalOrder.OutOfIdOrderWhenSettled` | store/postgres/postgres.go:164-172 | A run without failures in which both rows are there, no append is open, and row 2 is delivered before row 1, which another claim holds. |
| `GlobalOrder.IdOrderCondition` | store/postgres/postgres.go:164-172 | From a state that guarded claims have led to, every continuation with guarded claims offers each row after all rows with lower ids, those that come in later included, if and only if this claim is guarded: no append that may still be applied has drawn an id below a claimed one, and each lower row that the claim leaves out has been delivered. |
| `GlobalOrder.IdGuardedRunKeepsIdOrder` | store/postgres/postgres.go:164-172 | Every run with guarded claims, with any number of dispatchers, offers rows in the order of their ids. |
| `GlobalOrder.FirstClaimIdGuard` | store/postgres/postgres.go:164-172 | A claim of the first unlocked rows is guarded if and only if nothing can come in below its rows and each lower row that is locked has been delivered. |
| `Arrivals.ArrivalCondition` | store/postgres/postgres.go:50 | In no continuation does a row with a lower id come in later, if and only if no append that may still be applied has drawn a lower id. |
| `Arrivals.Finish` | store/postgres/postgres.go:104-108 | An append that has a row in both tables can insert all its rows whatever the other appends hold. |
| `OrdersApp.Place` | examples/orders/domain/orders.go:201-207 | Raises OrderPlaced exactly on a new order; otherwise nothing changes. |
| `OrdersApp.Ship` | examples/orders/domain/orders.go:210-219 | Raises OrderShipped exactly on a placed order; otherwise nothing changes. |
| `OrdersApp.ProjectExtendsAgreement` | examples/orders/domain/orders.go:302-304 | Publishing the appended event keeps the whole read model equal to the folds of all stored streams. |
| `OrdersApp.LoadOrder` | examples/orders/domain/orders.go:306-326 | The order of the stored stream, with its status, name and amount; when nothing fails, missing exactly if the stream is empty. |
| `OrdersApp.HandlePlaceOrder` | examples/orders/domain/orders.go:306-319 | After a Load that succeeded, an append is issued if and only if the decision on the loaded history raises an event, and the answer is that of the append. In process the stored streams change by exactly this decision and the whole read model agrees with them afterwards. On Postgres the append is the next step after the Load; when nothing fails and nobody else is at work, the stream grows by the decided event and the answer is success, or nothing changes and the command is refused. |
| `OrdersApp.CarriedOut` | examples/orders/domain/orders.go:306-330 | For legal streams: PlaceOrder stores one OrderPlaced event with its own values under sequence 1 and type name "OrderPlaced" in an empty stream and is refused otherwise; ShipOrder stores OrderShipped under sequence 2 behind OrderPlaced and is refused otherwise. |
| `OrdersApp.ExecutedIsCarried` | examples/orders/domain/orders.go:306-330 | In process the executed command changes its own stream as decided, and no other stream. |
| `OrdersApp.HandleShipOrder` | examples/orders/domain/orders.go:321-330 | The same for ShipOrder, where a missing order is an error. |
| `OrdersApp.IssuedIsCommandRun` | examples/orders/domain/orders.go:306-330 | What a handler issues on Postgres is a Load and a Save of the world of command runs: they extend any run of it by the handler's step. |

## Left out

- JSON encoding, `event.Registry` and `types/maybe` marshalling: payloads are stored as values, so decoding is assumed
  to undo encoding and every event type to be registered; a row that cannot be decoded is one way for a claim to fail.
- SQL, pgx, connection pools, timestamps and metadata: the statements are steps on the two tables.
- `context.Context` and timers: a cancelled call fails at some step; of `Run` only the choice of the wait is kept, and a
  run of it is cut off after some number of timer firings.
- Waiting for a key as an activity of its own: the insert step is enabled when the wait is over. In
  `Postgres.Store.InsertEventRow` the others' steps before the insert are the wait; if the key is still held after them,
  the caller's context has ended and the method reports an error.
- Row-by-row locking in the claim's SELECT from a stale snapshot: with several dispatchers `Protocol.Claim` allows any
  ascending choice of claimable rows up to the batch size, which covers it. `Postgres.Store.Claim` makes the choice of
  an undisturbed SELECT.
- Postgres.Store.Commit: takes what a dispatcher passes, the ids of the claim's published entries; marking another
  subset of the entries, which `event.Claim` would allow a different client, is not modelled.
- Mutexes and concurrent calls of the in-memory store, bus and projection: their methods are atomic.
- Panics of handlers and of the payload type assertion in `OnOrderPlaced`, which is a precondition here.
- Command and query buses, value-object parsing, validation, the application facade, the HTTP adapter and the example
  programs: branch-level checks and plumbing.
- Generation of UUIDs and the conversions between `int64` and `uint64` sequences.
- `aggregatetest` and `internal/pgtest`, which are test support, and the lease-based design in NOTES.md, which was
  not built.
- Eventual delivery without assumptions on failures: `Dispatcher.Drains` is about undisturbed ticks.
