# SQLite bindings: connection pool, cursor window, per-connection state

A model of the hard parts of the `org.sqlite.database` Android bindings, with proofs that Dafny checks:
`dafny verify dfyconfig.toml`.

**The connection pool** (`SQLiteConnectionPool`). `PoolModel` is the pool as a state machine: each block under
the pool's lock is one step, and the calls that leave the pool are answered by an arbitrary environment, so
every open and every reconfiguration may fail. `PoolInvariants`, `PoolSteps`, `PoolWaiting`, `PoolQueue` and
`PoolRequests` prove that each step keeps the global invariant; `PoolRuns`, `PoolAnswers`, `PoolOvertaking` and
`PoolCapacity` draw the consequences for every run (`PoolPasses` names the wake pass of a step, `PoolExamples`
builds runs). `PoolServices` and `PoolReturns` say exactly which connection a request gets and what becomes of each
connection afterwards. `ConnectionPool` is the same pool as a class, with the intrusive waiter queue, the free list
of waiter objects and the loops that unlink and remove; each method is proved to be a step of the machine.

**Configurations** (`Configuration`, `DatabaseConfiguration`, `Database`). The setters of `SQLiteDatabase` as
methods on objects, with the undo on failure, kept in lock-step with the pool and free of aliasing.

**The windowed cursor** (`WindowChunks`, `CursorWindows`, `Packing`, `CursorModel`, `SQLiteCursors`). The native
fill loop with its restarts is proved to compute a function of row sizes, and the cursor to be a faithful view
of the plain result list.

**Prepared statements** (`StatementModel`, `StatementLives`, `StatementRuns`, `StatementSafety`,
`StatementHits`, `PreparedStatements`). A machine of nested operations that logs its native calls, and the
class with holder objects, cache callback and free list that refines it. `ReadOnlyHolds` joins it with the pool:
the machine of a pool together with the statements of all its connections.

**The operation log** (`OperationLog`), **nested cancellation** (`Cancellation`, `CancelableConnections`) and the
**LOCALIZED collation** (`Collation`). `Options`, `Sequences` and `Words` are shared vocabulary.

## Where the code does less than one would expect

- An operation that finds its statement in the cache does not mark it as in use
  (`SQLiteConnection.java:896-898`), so operations nested inside it can free it. `NestedUnderHitMisuses` is such
  a run. `RunIsSoundIff` gives the exact condition, step by step: no acquisition pushes out the entry, and no
  nested operation removes it. Runs without operations inside a cache hit meet it (`DisciplinedIsSpared`);
  `HitSurvivesIff` and `SharedStatementSurvivesIff` say how many and which nested operations it takes. The
  lifetime theorems are about the runs that meet the condition.
- When a statement is already in use, its SQL is prepared once more. Should looking at that copy throw, the
  handler would mistake the cached holder for the new one and not finalize the copy
  (`SQLiteConnection.java:915-922`); `CopyIsForgotten` is such a run for every cache and every cacheable SQL. The
  native calls made there today (`android_database_SQLiteConnection.cpp:370-384`) only return values, so this is
  conditional on one of them throwing. `StatementModel.Lost` collects these statements; the lifetime theorems hold
  for all others, and `StatementLifetimes` counts the lost ones as live, which makes the condition exact.
- A primary connection lost to a leak or a failure can be reopened on top of a full pool. `RunStaysWithinIff` gives
  the exact condition: the live connections stay within the pool size throughout a run if and only if no step
  opens a primary connection while the non-primary ones alone fill the pool. For every pool size
  `OneOverIsReached` breaks it, by one connection, which is the most there can be (`AtMostOneOver`).
- While a leak has not been noticed, a newcomer can get a connection that a queued request was waiting for:
  `LeakLetsNewcomerOvertake`. In general this is so exactly for the waiters that are not blocked
  (`NewcomerOvertakesIff`), of which there are none unless a leak is under way.
- An operation inside which twenty or more later ones begin is never marked finished in the log
  (`OperationLog.NeverResolvesToAnother`).
- On an open pool `setLocale`, `setMaxSqlCacheSize` within its range and `addCustomFunction` never throw, so their
  undo is reached only if the pool was closed meanwhile (`SetLocale`, `SetMaxSqlCacheSize`, `AddCustomFunction`).
- `updateParametersFrom` clears its function list before it copies the other one, so it loses the functions
  exactly when the two lists are one non-empty list.
- The comment at `SQLiteConnectionPool.java:930` speaks of waiters of the same or a lower priority; the code, and
  the model, take the same or a higher one.
- A changed statement-cache size reaches every configuration but resizes no cache: the call is commented out
  (`SQLiteConnection.java:438`).

## Model

| member | source | states |
|---|---|---|
| `PoolRuns.NoLostWakeUp` | app/src/main/java/org/sqlite/database/sqlite/SQLiteConnectionPool.java:784-907 | In every reachable state of an open pool with no leak under way, every queued request finds the primary acquired and, if it takes non-primaries, no idle one and at least `max` acquired; an attempt to serve it would find nothing and change nothing |
| `PoolRuns.ReachableInv` | app/src/main/java/org/sqlite/database/sqlite/SQLiteConnectionPool.java:784-843 | Over every run, with every mix of failed opens, failed reconfigures, leaks, cancellations and closing, the whole invariant of connections and requests holds |
| `PoolRequests.NextKeepsInv` | app/src/main/java/org/sqlite/database/sqlite/SQLiteConnectionPool.java:595-738 | Each of the ten kinds of step (acquire, cancel, pick-up, release, reconfigure, close, leak, finalize, notice, recover) keeps that invariant |
| `PoolOvertaking.NewcomerOvertakesIff` | app/src/main/java/org/sqlite/database/sqlite/SQLiteConnectionPool.java:602-621 | In every reachable state of an open pool, leaks under way or not, some newcomer in some environment is served at once with a connection that a given queued request would accept if and only if that request is not blocked |
| `PoolOvertaking.NewcomerOvertakesNobody` | app/src/main/java/org/sqlite/database/sqlite/SQLiteConnectionPool.java:602-621 | So with no leak under way no newcomer, in no environment, overtakes anybody |
| `PoolOvertaking.LeakLetsNewcomerOvertake` | app/src/main/java/org/sqlite/database/sqlite/SQLiteConnectionPool.java:602-621 | For every pool: the primary leaks while a request waits for it, and a newcomer opens and gets a new one while that request stays queued |
| `PoolOvertaking.PassOvertakesOnlyPrimarySeekers` | app/src/main/java/org/sqlite/database/sqlite/SQLiteConnectionPool.java:788-842 | Over every run, in the wake pass of whatever step (release, cancel, reconfigure, leak recovery), a waiter left behind a later served one insisted on the primary, and the later one got a non-primary |
| `PoolOvertaking.StepOvertakesOnlyPrimarySeekers` | app/src/main/java/org/sqlite/database/sqlite/SQLiteConnectionPool.java:784-843 | The same of queue and outcomes: over every run and step, if of two queued requests the later one is assigned a connection while the earlier one stays queued, the earlier one insists on the primary and the later one got a non-primary |
| `PoolOvertaking.ReleaseOvertakes` | app/src/main/java/org/sqlite/database/sqlite/SQLiteConnectionPool.java:386-391 | Such overtaking happens: in every pool of two or more connections, a release lets a later waiter pass one that waits for the primary |
| `PoolPasses.StepIsPass` | app/src/main/java/org/sqlite/database/sqlite/SQLiteConnectionPool.java:784-843 | Each step either ends in one wake pass from the state it had reached, or assigns nothing to anybody |
| `PoolPasses.PassStart` | app/src/main/java/org/sqlite/database/sqlite/SQLiteConnectionPool.java:328-393 | In the state from which a step starts its pass the pool invariant holds, the requests have their places, and nobody has joined the queue or been assigned anything |
| `PoolRuns.RequestHasOnePlace` | app/src/main/java/org/sqlite/database/sqlite/SQLiteConnectionPool.java:680-735 | While the pool is open a parked request is in exactly one of: answered, outcome waiting to be picked up, queued once |
| `PoolRuns.InteractiveFirst` | app/src/main/java/org/sqlite/database/sqlite/SQLiteConnectionPool.java:624-642 | In every reachable state interactive requests are queued before background ones, and each kind in order of arrival |
| `PoolAnswers.RequestIsAnswered` | app/src/main/java/org/sqlite/database/sqlite/SQLiteConnectionPool.java:680-691 | Over every run, a waiting thread that looks gets the connection assigned to it, held in the mode it asked for and primary if it insisted; an exception for a failed request or a closed pool; nothing while it is queued |
| `PoolAnswers.AnswerComesFrom` | app/src/main/java/org/sqlite/database/sqlite/SQLiteConnectionPool.java:680-691 | Only the request's own thread answers it; an exception exactly for a failed request or a closed pool, a connection exactly for that assignment |
| `PoolAnswers.FailureComesFrom` | app/src/main/java/org/sqlite/database/sqlite/SQLiteConnectionPool.java:712-738 | A parked request fails only by its own cancellation or because a connection numbered in that very step did not open |
| `PoolAnswers.NextKeepsFits` | app/src/main/java/org/sqlite/database/sqlite/SQLiteConnectionPool.java:797-815 | Every step keeps: each assignment suits what was asked under its ticket, whatever others do meanwhile |
| `PoolAnswers.WakeFailsOnlyIf` | app/src/main/java/org/sqlite/database/sqlite/SQLiteConnectionPool.java:821-825 | A waiter fails in a pass only if one of the connections the pass numbered did not open |
| `PoolRequests.CancelRaises` | app/src/main/java/org/sqlite/database/sqlite/SQLiteConnectionPool.java:712-738 | A canceled queued request is out of the queue and failed, whatever the pass after it hands out |
| `PoolRuns.AnswersAreFinal` | app/src/main/java/org/sqlite/database/sqlite/SQLiteConnectionPool.java:680-691 | An answer once given is never withdrawn or replaced over any continuation |
| `PoolRuns.AssignmentIsExclusive` | app/src/main/java/org/sqlite/database/sqlite/SQLiteConnectionPool.java:813-815 | A connection assigned to a waiter is acquired, and assigned to no other waiter |
| `PoolRuns.IdlePrimarySlotIsFree` | app/src/main/java/org/sqlite/database/sqlite/SQLiteConnectionPool.java:376-383 | A primary that comes back and is kept always finds the idle-primary slot empty: the assertion there never fails |
| `PoolRuns.ReleaseReconfiguresSafely` | app/src/main/java/org/sqlite/database/sqlite/SQLiteConnectionPool.java:396-412 | A connection reconfigured on its return already has the pool's open flags and foreign-key mode, and what is put back carries exactly the pool's configuration with each function registered once |
| `PoolRuns.HeldConnectionIsStable` | app/src/main/java/org/sqlite/database/sqlite/SQLiteConnectionPool.java:545-592 | From grant to release, over any interleaving, a held connection stays the same, its read-only mode stays that of the request that holds it, and its status only rises |
| `PoolRuns.ServiceSetsMode` | app/src/main/java/org/sqlite/database/sqlite/SQLiteConnectionPool.java:910-922 | A served request gets its connection in its own read-only mode |
| `PoolRuns.WakeSetsMode` | app/src/main/java/org/sqlite/database/sqlite/SQLiteConnectionPool.java:797-815 | So does every waiter that a wake pass serves, and one that insists on the primary connection gets that |
| `PoolRuns.ClosedPoolIsEmpty` | app/src/main/java/org/sqlite/database/sqlite/SQLiteConnectionPool.java:219-241 | A closed pool has nothing idle and nobody queued, and a connection that comes back is not kept |
| `PoolRequests.CloseEmpties` | app/src/main/java/org/sqlite/database/sqlite/SQLiteConnectionPool.java:212-243 | Closing leaves nothing idle and nobody queued, makes up no result, and leaves acquired connections alone |
| `PoolReturns.ClosedStaysClosed` | app/src/main/java/org/sqlite/database/sqlite/SQLiteConnectionPool.java:602-645 | Over every run, a closed pool stays closed, numbers no connection and hands none out |
| `PoolReturns.LeaksAreHandled` | app/src/main/java/org/sqlite/database/sqlite/SQLiteConnectionPool.java:666-671 | From every state with the invariant, handling the leaks under way ends, and then no queued request could be served |
| `PoolWaiting.BlockedIffUnavailable` | app/src/main/java/org/sqlite/database/sqlite/SQLiteConnectionPool.java:846-907 | No connection is idle or may be opened for a request if and only if an attempt to serve it comes back empty-handed, leaving the pool as it was |
| `PoolServices.ServiceIs` | app/src/main/java/org/sqlite/database/sqlite/SQLiteConnectionPool.java:846-925 | One attempt in full: empty-handed exactly if blocked, failing exactly if one has to be opened and does not open, else one connection of the right kind in the request's mode, the preferred idle one or a new current one |
| `PoolServices.ChooseIsPreferred` | app/src/main/java/org/sqlite/database/sqlite/SQLiteConnectionPool.java:876-893 | Of the idle connections the first with the SQL cached is taken, if SQL is given, there is a choice and there is one; otherwise the last |
| `PoolWaiting.WakeLeavesBlocked` | app/src/main/java/org/sqlite/database/sqlite/SQLiteConnectionPool.java:784-843 | Every waiter that a wake pass keeps is blocked in the pool the pass leaves behind, although the pass stops early and remembers failures in two flags |
| `PoolWaiting.WakeHandsOutOnce` | app/src/main/java/org/sqlite/database/sqlite/SQLiteConnectionPool.java:797-815 | One pass never hands the same connection to two waiters |
| `PoolRequests.QuietReleaseKeepsBlocked` | app/src/main/java/org/sqlite/database/sqlite/SQLiteConnectionPool.java:384-385 | The release branch that closes an excess connection and wakes nobody leaves every blocked request blocked |
| `PoolRequests.RefusalKeepsNoneForgotten` | app/src/main/java/org/sqlite/database/sqlite/SQLiteConnectionPool.java:264-304 | A reconfiguration that throws after it has closed idle connections strands nobody |
| `PoolInvariants.WakeKeepsPoolInv` | app/src/main/java/org/sqlite/database/sqlite/SQLiteConnectionPool.java:784-907 | A wake pass keeps single ownership, the single live primary, configuration freshness, read-only modes and the capacity bound |
| `PoolSteps.TakeBackKeepsPoolInv` | app/src/main/java/org/sqlite/database/sqlite/SQLiteConnectionPool.java:367-412 | So does taking a connection back |
| `PoolSteps.ReconfigureKeepsPoolInv` | app/src/main/java/org/sqlite/database/sqlite/SQLiteConnectionPool.java:258-330 | So does a reconfiguration, applied or refused, in place or by reopening with two primaries alive for a while |
| `PoolSteps.NextKeepsPoolInv` | app/src/main/java/org/sqlite/database/sqlite/SQLiteConnectionPool.java:258-412 | So does every step of the machine |
| `PoolSteps.InPlaceSwitchesNoWal` | app/src/main/java/org/sqlite/database/sqlite/SQLiteConnectionPool.java:318-326 | Reconfiguring in place never reaches the WAL switch of a connection |
| `PoolSteps.ReturningPrimaryFindsNoneIdle` | app/src/main/java/org/sqlite/database/sqlite/SQLiteConnectionPool.java:378-382 | A live primary that returns excludes an idle one |
| `PoolReturns.ReturnedIsKeptIff` | app/src/main/java/org/sqlite/database/sqlite/SQLiteConnectionPool.java:367-412 | A returned connection, primary or not, becomes idle exactly if the pool is open, it is not to be discarded, reconfiguring it works if due, and it is the primary or there is room; a normal one unchanged, the primary in its free place, another one last; nothing else moves |
| `PoolReturns.ReturnWakesIff` | app/src/main/java/org/sqlite/database/sqlite/SQLiteConnectionPool.java:376-392 | A return wakes waiters exactly unless the pool is closed or the connection is one too many |
| `PoolReturns.ServeThenReturn` | app/src/main/java/org/sqlite/database/sqlite/SQLiteConnectionPool.java:846-925 | Serving a request from the idle connections and returning the connection restores the pool, up to that connection's mode and its place at the end |
| `PoolReturns.RefusedIff` | app/src/main/java/org/sqlite/database/sqlite/SQLiteConnectionPool.java:264-308 | A reconfiguration is refused exactly for a closed pool, a WAL or foreign-key change with acquired connections, or changed flags and a failed opening; and exactly what is left then |
| `PoolReturns.InPlaceKeeps` | app/src/main/java/org/sqlite/database/sqlite/SQLiteConnectionPool.java:318-326 | With equal open flags nothing is opened or interrupted: acquired connections are marked, and exactly the idle ones that can be reconfigured survive, in order |
| `PoolReturns.ReopenReplaces` | app/src/main/java/org/sqlite/database/sqlite/SQLiteConnectionPool.java:297-317 | With changed open flags the pool has one new current idle primary and nothing else idle, and every acquired connection is to be discarded |
| `PoolQueue.InsertKeepsOrdered` | app/src/main/java/org/sqlite/database/sqlite/SQLiteConnectionPool.java:624-642 | Insertion keeps the queue in descending priority, first in first out within one, with distinct tickets |
| `PoolQueue.RemoveKeepsOrdered` | app/src/main/java/org/sqlite/database/sqlite/SQLiteConnectionPool.java:719-730 | So does removing a waiter that is canceled, and it removes exactly that one |
| `PoolQueue.KeptIsOrdered` | app/src/main/java/org/sqlite/database/sqlite/SQLiteConnectionPool.java:828-841 | So does a wake pass |
| `PoolCapacity.AtMostOneOver` | app/src/main/java/org/sqlite/database/sqlite/SQLiteConnectionPool.java:862-906 | Over every run: at most max-1 idle non-primaries, at most max non-primaries not marked for discarding, and at most max+1 such connections in all |
| `PoolCapacity.RunStaysWithinIff` | app/src/main/java/org/sqlite/database/sqlite/SQLiteConnectionPool.java:846-906 | The exact condition: every state of a run has at most max live connections if and only if no step of the run opens a primary while max non-primaries are live |
| `PoolCapacity.StepExceedsIff` | app/src/main/java/org/sqlite/database/sqlite/SQLiteConnectionPool.java:846-906 | From any state within max, a step of any kind ends above max if and only if it serves a request, at once or in its wake pass, by opening a primary while max non-primaries are live |
| `PoolCapacity.PassExceedsIff` | app/src/main/java/org/sqlite/database/sqlite/SQLiteConnectionPool.java:784-843 | The same of a wake pass, which never lowers the number of live connections |
| `PoolCapacity.TryPrimaryExceedsIff` | app/src/main/java/org/sqlite/database/sqlite/SQLiteConnectionPool.java:846-868 | The guard, readable before the attempt: no idle and no acquired primary, the open succeeds, and max non-primaries are live |
| `PoolCapacity.TryNonPrimaryStaysWithin` | app/src/main/java/org/sqlite/database/sqlite/SQLiteConnectionPool.java:871-907 | An attempt at a non-primary connection never goes above max |
| `PoolCapacity.BeforePassStaysWithin` | app/src/main/java/org/sqlite/database/sqlite/SQLiteConnectionPool.java:258-412 | Nothing that a release, a reconfiguration, a close or a leak does before its wake pass goes above max |
| `PoolCapacity.NeverOverWithoutLoss` | app/src/main/java/org/sqlite/database/sqlite/SQLiteConnectionPool.java:895-906 | In a run that never loses its primary to a leak or a failure, never more than max, because it meets that condition |
| `PoolCapacity.OneOverIsReached` | app/src/main/java/org/sqlite/database/sqlite/SQLiteConnectionPool.java:862-867 | For every pool size, a leaked primary reopened in a full pool reaches max+1: without the condition the bound is false |
| `PoolCapacity.WalPoolSizeIsReached` | app/src/main/java/org/sqlite/database/sqlite/SQLiteConnectionPool.java:952-964 | A WAL database without codec serves as many requests at once as the configured pool size, two at least, and one more waits |
| `PoolCapacity.SinglePoolKeepsNoOther` | app/src/main/java/org/sqlite/database/sqlite/SQLiteConnectionPool.java:952-964 | Over every run, with a codec or outside WAL mode no non-primary connection is idle |
| `Configuration.MaxPoolSize` | app/src/main/java/org/sqlite/database/sqlite/SQLiteConnectionPool.java:952-964 | One connection with a codec or without WAL; otherwise the configured pool size, two at least |
| `Configuration.ReconfigureMakesCurrent` | app/src/main/java/org/sqlite/database/sqlite/SQLiteConnection.java:415-454 | Reconfiguring an outdated connection registers exactly the functions it lacks, each once, and never switches the WAL mode |
| `ConnectionPool.SQLiteConnectionPool.constructor` | app/src/main/java/org/sqlite/database/sqlite/SQLiteConnectionPool.java:152-155 | A new pool has its own copy of the configuration |
| `ConnectionPool.SQLiteConnectionPool.OpenPool` | app/src/main/java/org/sqlite/database/sqlite/SQLiteConnectionPool.java:186-195 | Opening either throws or reaches the start state of the machine |
| `ConnectionPool.SQLiteConnectionPool.TryAcquirePrimary` | app/src/main/java/org/sqlite/database/sqlite/SQLiteConnectionPool.java:846-868 | Refines the machine's attempt at the primary connection |
| `ConnectionPool.SQLiteConnectionPool.TryAcquireNonPrimary` | app/src/main/java/org/sqlite/database/sqlite/SQLiteConnectionPool.java:871-907 | Refines the attempt at a non-primary one. With idle ones it takes exactly one out of the list and grants it: the first that has the SQL cached, if there is a choice, SQL and such a one; else the last |
| `ConnectionPool.SQLiteConnectionPool.ServeRequest` | app/src/main/java/org/sqlite/database/sqlite/SQLiteConnectionPool.java:798-820 | Refines one service attempt with the two flags |
| `ConnectionPool.SQLiteConnectionPool.Enqueue` | app/src/main/java/org/sqlite/database/sqlite/SQLiteConnectionPool.java:628-642 | The linked list after insertion shows the queue with the waiter put in: an interactive one before the first background one, a background one last; acyclic, disjoint from the free list |
| `ConnectionPool.SQLiteConnectionPool.WakeConnectionWaiters` | app/src/main/java/org/sqlite/database/sqlite/SQLiteConnectionPool.java:784-843 | The loop over the linked list, unlinking as it goes, computes exactly the machine's wake pass |
| `ConnectionPool.SQLiteConnectionPool.AcquireConnection` | app/src/main/java/org/sqlite/database/sqlite/SQLiteConnectionPool.java:602-645 | The first locked block of a request is the machine's acquire step; on a closed pool or with a canceled signal it throws and changes nothing |
| `ConnectionPool.SQLiteConnectionPool.ObtainWaiter` | app/src/main/java/org/sqlite/database/sqlite/SQLiteConnectionPool.java:973-989 | A waiter object is new or off the free list, undecided, linked nowhere, and stands for a new request |
| `ConnectionPool.SQLiteConnectionPool.TakeResult` | app/src/main/java/org/sqlite/database/sqlite/SQLiteConnectionPool.java:680-691 | The waiting thread's locked block is the machine's pick-up step: with the pool open it returns exactly the assigned connection, throws exactly for a failed request, and otherwise goes on waiting with nothing changed; with the pool closed it throws |
| `ConnectionPool.SQLiteConnectionPool.RecycleWaiter` | app/src/main/java/org/sqlite/database/sqlite/SQLiteConnectionPool.java:991-999 | A recycled object is blank, in no list but the free list, with its nonce counted up |
| `ConnectionPool.SQLiteConnectionPool.OnCancel` | app/src/main/java/org/sqlite/database/sqlite/SQLiteConnectionPool.java:649-657 | A listener acts on its own request only, however the object has been recycled since (short of 2^32 times), and while the pool is open its search never runs off the queue; on a closed pool it changes nothing, whatever has become of the object |
| `ConnectionPool.SQLiteConnectionPool.CancelWaiter` | app/src/main/java/org/sqlite/database/sqlite/SQLiteConnectionPool.java:712-738 | Canceling is the machine's cancel step: while the pool is open a waiter without a result is found, leaves the queue and carries an exception; one with a result is left alone |
| `ConnectionPool.SQLiteConnectionPool.FindWaiter` | app/src/main/java/org/sqlite/database/sqlite/SQLiteConnectionPool.java:719-725 | The unlink search fails exactly when the waiter is not queued |
| `ConnectionPool.SQLiteConnectionPool.StaleIsAnswered` | app/src/main/java/org/sqlite/database/sqlite/SQLiteConnectionPool.java:653-655 | A nonce that does not match belongs to a request that has been answered |
| `ConnectionPool.SQLiteConnectionPool.CurrentListener` | app/src/main/java/org/sqlite/database/sqlite/SQLiteConnectionPool.java:653-655 | A nonce that matches belongs to the request the object is in use for |
| `Words.TellsApart` | app/src/main/java/org/sqlite/database/sqlite/SQLiteConnectionPool.java:997 | 32-bit nonces tell apart uses less than 2^32 apart |
| `Words.CountsUp` | app/src/main/java/org/sqlite/database/sqlite/SQLiteConnectionPool.java:997 | Counting up a wrapped counter is counting up and then wrapping |
| `ConnectionPool.SQLiteConnectionPool.ShouldYield` | app/src/main/java/org/sqlite/database/sqlite/SQLiteConnectionPool.java:425-440 | The early-exit scan equals, on the flags: the pool is open and some queued request that is interactive if mine is would accept what I hold |
| `ConnectionPool.LowerTailDoesNotContend` | app/src/main/java/org/sqlite/database/sqlite/SQLiteConnectionPool.java:929-943 | Behind the first waiter of lower priority nobody contends |
| `ConnectionPool.SQLiteConnectionPool.RecycleConnection` | app/src/main/java/org/sqlite/database/sqlite/SQLiteConnectionPool.java:396-412 | Refines what is put back, if anything |
| `ConnectionPool.SQLiteConnectionPool.ReleaseConnection` | app/src/main/java/org/sqlite/database/sqlite/SQLiteConnectionPool.java:367-393 | Releasing is the machine's release step; throws exactly for a connection that is not acquired |
| `ConnectionPool.SQLiteConnectionPool.CloseExcessConnections` | app/src/main/java/org/sqlite/database/sqlite/SQLiteConnectionPool.java:520-527 | The loop keeps exactly the first max-1 idle connections |
| `ConnectionPool.SQLiteConnectionPool.MarkAcquired` | app/src/main/java/org/sqlite/database/sqlite/SQLiteConnectionPool.java:575-592 | The two-phase marking sets the status of all but the DISCARD ones |
| `ConnectionPool.SQLiteConnectionPool.ReconfigureNonPrimaries` | app/src/main/java/org/sqlite/database/sqlite/SQLiteConnectionPool.java:557-569 | The loop that removes while it iterates keeps exactly the reconfigured ones, in order |
| `ConnectionPool.SQLiteConnectionPool.ApplyConfiguration` | app/src/main/java/org/sqlite/database/sqlite/SQLiteConnectionPool.java:258-326 | Refines a reconfiguration up to its wake pass. It throws exactly if the pool is closed, if a WAL or foreign-key change meets an acquired connection, or if changed open flags need a connection that does not open; the own configuration is then untouched |
| `ConnectionPool.SQLiteConnectionPool.ReconfigureConnections` | app/src/main/java/org/sqlite/database/sqlite/SQLiteConnectionPool.java:258-330 | Reconfiguring is the machine's step, with the same exact condition for a throw; the pool's configuration equals the new one on return and is untouched on a throw |
| `ConnectionPool.SQLiteConnectionPool.ClosePool` | app/src/main/java/org/sqlite/database/sqlite/SQLiteConnectionPool.java:212-243 | Closing is the machine's close step; throws exactly if closed already; afterwards nothing is idle or queued and what is acquired stays acquired |
| `ConnectionPool.SQLiteConnectionPool.OnConnectionLeaked` | app/src/main/java/org/sqlite/database/sqlite/SQLiteConnectionPool.java:471-498 | The finalizer raises the leak flag |
| `ConnectionPool.SQLiteConnectionPool.NoticeLeak` | app/src/main/java/org/sqlite/database/sqlite/SQLiteConnectionPool.java:667 | The compare-and-set is the machine's notice step |
| `ConnectionPool.SQLiteConnectionPool.RecoverFromLeak` | app/src/main/java/org/sqlite/database/sqlite/SQLiteConnectionPool.java:668-670 | The wake pass after it is the machine's recover step |
| `ConnectionPool.ReconfigureConnection` | app/src/main/java/org/sqlite/database/sqlite/SQLiteConnection.java:415-435 | The registration loop computes the reconfigured connection |
| `WakeProgress.FinishIsWakeAll` | app/src/main/java/org/sqlite/database/sqlite/SQLiteConnectionPool.java:784-843 | A pass finished from its first waiter on is the whole wake pass |
| `DatabaseConfiguration.SQLiteDatabaseConfiguration.constructor` | app/src/main/java/org/sqlite/database/sqlite/SQLiteDatabaseConfiguration.java:103-115 | The defaults |
| `DatabaseConfiguration.SQLiteDatabaseConfiguration.Copy` | app/src/main/java/org/sqlite/database/sqlite/SQLiteDatabaseConfiguration.java:122-130 | A copy has the same value and shares neither object nor function list |
| `DatabaseConfiguration.SQLiteDatabaseConfiguration.UpdateParametersFrom` | app/src/main/java/org/sqlite/database/sqlite/SQLiteDatabaseConfiguration.java:138-153 | Throws exactly for another path; otherwise takes over the value if and only if the lists are not one shared non-empty list |
| `DatabaseConfiguration.AppendThenRemove` | app/src/main/java/org/sqlite/database/sqlite/SQLiteDatabase.java:851-855 | Undoing an append by removing the first occurrence restores the list, for a new wrapper |
| `Database.SQLiteDatabase.Open` | app/src/main/java/org/sqlite/database/sqlite/SQLiteDatabase.java:806-811 | The pool gets its own copy; on a throw the database stays closed |
| `Database.SQLiteDatabase.Reconfigure` | app/src/main/java/org/sqlite/database/sqlite/SQLiteConnectionPool.java:258-330 | Pool and database agree afterwards, or the pool still has the previous configuration; which of the two, exactly |
| `Database.SQLiteDatabase.SetLocale` | app/src/main/java/org/sqlite/database/sqlite/SQLiteDatabase.java:1757-1774 | Lock-step and no aliasing on both exits; throws exactly if the database or its pool is closed, and changes the setting otherwise |
| `Database.SQLiteDatabase.SetMaxSqlCacheSize` | app/src/main/java/org/sqlite/database/sqlite/SQLiteDatabase.java:1789-1807 | The same; throws exactly if closed or for a size outside 0..100 |
| `Database.SQLiteDatabase.SetForeignKeyConstraintsEnabled` | app/src/main/java/org/sqlite/database/sqlite/SQLiteDatabase.java:1838-1854 | The same, although a failure negates instead of restoring; throws exactly if closed or for a change while a connection is acquired |
| `Database.SQLiteDatabase.ReopenReadWrite` | app/src/main/java/org/sqlite/database/sqlite/SQLiteDatabase.java:770-789 | The same for the read-only bit; throws exactly if closed or read-only and no new primary connection opens |
| `Database.SQLiteDatabase.EnableWriteAheadLogging` | app/src/main/java/org/sqlite/database/sqlite/SQLiteDatabase.java:1930-1968 | The same for the WAL bit; exactly when it returns false (read-only, in memory, attached databases), and exactly when it throws (closed, a connection acquired, the new one does not open) |
| `Database.SQLiteDatabase.DisableWriteAheadLogging` | app/src/main/java/org/sqlite/database/sqlite/SQLiteDatabase.java:1979-1995 | The same for clearing it, with the exact condition for a throw |
| `Database.SQLiteDatabase.AddCustomFunction` | app/src/main/java/org/sqlite/database/sqlite/SQLiteDatabase.java:844-859 | The same for appending a new function wrapper; throws exactly if closed |
| `Database.WalBitRoundTrip` | app/src/main/java/org/sqlite/database/sqlite/SQLiteDatabase.java:1959-1963 | Setting and clearing the bit undo each other exactly where the setters rely on it |
| `Database.FlagBits` | app/src/main/java/org/sqlite/database/sqlite/SQLiteDatabase.java:770-789 | On the bits of the flag word: WAL is bit 29, read-only bit 0, and each change is to its own bit alone |
| `WindowChunks.RequiredIsPresentIff` | app/jni/sqlite/android_database_SQLiteConnection.cpp:791-819 | The required row is in the window if and only if it exists, filling does not begin beyond it, and every row from there up to it fits an empty window alone |
| `WindowChunks.GreedyIsMaximal` | app/jni/sqlite/android_database_SQLiteConnection.cpp:793-819 | The rows from the start of a window are the longest run whose total fits |
| `WindowChunks.RestartOnlyWhenNeeded` | app/jni/sqlite/android_database_SQLiteConnection.cpp:797-809 | A window that does not begin where it was asked to could not hold the rows from there to the required one |
| `CursorWindows.CopyRowToWindow` | app/jni/sqlite/android_database_SQLiteConnection.cpp:645-702 | Appends exactly the row, at the index just allocated, if and only if it fits; a failed row leaves no trace |
| `CursorWindows.CopyOrRestart` | app/jni/sqlite/android_database_SQLiteConnection.cpp:795-816 | One turn of the fill loop keeps the loop's meaning, restart included |
| `CursorWindows.FillWindow` | app/jni/sqlite/android_database_SQLiteConnection.cpp:743-831 | The window holds exactly the contiguous rows of the greedy chunk the model determines, and the count is the total when counting all, otherwise one past the last row |
| `CursorWindows.ResetWindow` | app/jni/sqlite/android_database_SQLiteConnection.cpp:704-715 | Clears the window and sets its columns |
| `Packing.PackRoundTrip` | app/src/main/java/org/sqlite/database/sqlite/SQLiteConnection.java:861-868 | The count always unpacks; the start does exactly when the count is not negative or the start is -1 |
| `Packing.PackBits` | app/jni/sqlite/android_database_SQLiteConnection.cpp:829-830 | Shift and or on 64 bits are what the arithmetic packing says |
| `CursorModel.PickStart` | app/src/main/java/org/sqlite/database/ExtraUtils.java:115-118 | Zero, or exactly a third of the window before the position; never further away |
| `CursorModel.FillStartsAt` | app/src/main/java/org/sqlite/database/sqlite/SQLiteCursor.java:163-187 | The first fill puts the requested row first; a later one has exactly a third of a window before it, or all there is, if those rows fit together with it |
| `CursorModel.MoveFindsRow` | app/src/main/java/org/sqlite/database/sqlite/SQLiteCursor.java:126-134 | A move brings the row into the window when each row fits an empty one |
| `CursorModel.ForwardScanBound` | app/src/main/java/org/sqlite/database/sqlite/SQLiteCursor.java:126-187 | Counting and then scanning N rows, C to a window, runs the query exactly 1 + ceil(max(0, N-C) / (C - C/3)) times |
| `CursorModel.ScanCost` | app/src/main/java/org/sqlite/database/sqlite/SQLiteCursor.java:163-187 | From any window, the exact number of further queries of a forward scan |
| `CursorModel.UniformRows` | app/jni/sqlite/android_database_SQLiteConnection.cpp:791-819 | Rows of one size fill every window with the same number of rows |
| `CursorModel.CeilDivIsCeiling` | app/src/main/java/org/sqlite/database/ExtraUtils.java:115-118 | The counting function is division rounded up |
| `SQLiteCursors.ExecuteForCursorWindow` | app/src/main/java/org/sqlite/database/sqlite/SQLiteConnection.java:836-890 | Through packing and unpacking, the window's start position and the count are those of the fill |
| `SQLiteCursors.SQLiteCursor.ClearOrCreateWindow` | app/src/main/java/org/sqlite/database/sqlite/SQLiteCursor.java:150-161 | An empty window; a new one forgets the count |
| `SQLiteCursors.SQLiteCursor.Refresh` | app/src/main/java/org/sqlite/database/sqlite/SQLiteCursor.java:163-187 | The window shows the model's fill at its true position; the first fill measures the window, later ones keep that measure; a failing query closes it |
| `SQLiteCursors.SQLiteCursor.GetCount` | app/src/main/java/org/sqlite/database/sqlite/SQLiteCursor.java:137-142 | The count is the length of the result, before and after any refill |
| `SQLiteCursors.SQLiteCursor.OnMove` | app/src/main/java/org/sqlite/database/sqlite/SQLiteCursor.java:126-134 | A move is the model's move; an uncounted cursor, or one without a window, gets its first window there and its count; it throws only when it needs the query |
| `SQLiteCursors.SQLiteCursor.ReadRow` | app/src/main/java/org/sqlite/database/sqlite/SQLiteCursor.java:126-134 | A row in the window is the row of the result at that position |
| `SQLiteCursors.SQLiteCursor.Visit` | app/src/main/java/org/sqlite/database/sqlite/SQLiteCursor.java:126-187 | Any sequence of moves reads the rows of the plain result list, and the count is its length |
| `StatementRuns.StatementLifetimes` | app/src/main/java/org/sqlite/database/sqlite/SQLiteConnection.java:892-953 | Over every run in which no step frees a held statement: no native statement is used or finalized unless live; the live ones are exactly the cached, the held and the lost ones; mInCache is membership; a holder is on the free list exactly when neither cached nor held; the cache is within its bound |
| `StatementRuns.FinalizedExactlyOnce` | app/src/main/java/org/sqlite/database/sqlite/SQLiteConnection.java:238-256 | After disposal every statement ever prepared, but for the lost ones, was finalized, and that was the last native call on it |
| `StatementRuns.DisposeFreesAll` | app/src/main/java/org/sqlite/database/sqlite/SQLiteConnection.java:246-252 | With no operation in progress, evicting all leaves no live statement but the lost ones |
| `StatementSafety.AcquiredIsOwn` | app/src/main/java/org/sqlite/database/sqlite/SQLiteConnection.java:892-925 | An operation gets a live statement that was prepared from the very SQL it asked for, even if it pushes out one that is held; another operation in progress holds it too only if both found it in the cache |
| `ReadOnlyHolds.ReadOnlyRequestOnlyReads` | app/src/main/java/org/sqlite/database/sqlite/SQLiteConnection.java:1039-1044 | End to end, over every interleaving of pool steps and statement calls on all connections: a holder's execution goes through unless its request was read-only and the statement writes, and what a read-only request gets executed was prepared from SQL that does not write |
| `ReadOnlyHolds.PoolEventKeepsModes` | app/src/main/java/org/sqlite/database/sqlite/SQLiteConnectionPool.java:910-922 | Whatever the pool does, every held connection is in the mode of the request it was granted to, also when it is released and handed on in one step |
| `ReadOnlyHolds.AdvanceKeepsInv` | app/src/main/java/org/sqlite/database/sqlite/SQLiteConnection.java:456-461 | Each event of the joint machine keeps the pool invariant, the agreement of modes and the truth of the holders |
| `ReadOnlyHolds.ReadOnlyHolderOnlyReads` | app/src/main/java/org/sqlite/database/sqlite/SQLiteConnection.java:1039-1044 | Over every run of one connection, also those that free a held statement, a statement executed in read-only mode was prepared before from SQL that does not write |
| `ReadOnlyHolds.NextKeepsDescribed` | app/src/main/java/org/sqlite/database/sqlite/SQLiteConnection.java:892-953 | Each step keeps every holder true to the SQL its native statement was prepared from |
| `StatementRuns.RunKeeps` | app/src/main/java/org/sqlite/database/sqlite/SQLiteConnection.java:892-953 | The invariant is kept over every run, and the lost statements are exactly those of recursive preparations that fail half-way |
| `StatementRuns.NextKeeps` | app/src/main/java/org/sqlite/database/sqlite/SQLiteConnection.java:892-953 | Each step keeps the invariant |
| `StatementLives.NothingAfterFinalize` | app/src/main/java/org/sqlite/database/sqlite/SQLiteConnection.java:950-953 | In a well-used log nothing concerns a statement after it is finalized |
| `StatementLives.LiveMeans` | app/src/main/java/org/sqlite/database/sqlite/SQLiteConnection.java:950-953 | Live means prepared and not finalized since |
| `StatementSafety.RunIsSoundIff` | app/src/main/java/org/sqlite/database/sqlite/SQLiteConnection.java:892-948 | Over every run, all operations hold live statements throughout if and only if no step pushes out or removes the cache entry of a statement that an operation found there and still holds |
| `StatementSafety.SoundIffSpared` | app/src/main/java/org/sqlite/database/sqlite/SQLiteConnection.java:892-948 | The same from any state that satisfies the invariant |
| `StatementSafety.StepIsSoundIff` | app/src/main/java/org/sqlite/database/sqlite/SQLiteConnection.java:892-948 | One step leaves every operation with a live statement if and only if its guard says that it frees none that is held |
| `StatementSafety.EvictionFrees` | app/src/main/java/org/sqlite/database/sqlite/SQLiteConnection.java:911-914 | Pushing out an entry that a cache hit holds leaves that operation with a finalized statement |
| `StatementSafety.RemovalFrees` | app/src/main/java/org/sqlite/database/sqlite/SQLiteConnection.java:927-948 | So does removing it because a nested operation could not reset it |
| `StatementSafety.DisciplinedIsSpared` | app/src/main/java/org/sqlite/database/sqlite/SQLiteConnection.java:892-948 | If no operation starts inside one that found its statement in the cache, no step frees a held statement |
| `StatementHits.ReusedIffCacheable` | app/src/main/java/org/sqlite/database/sqlite/SQLiteConnection.java:892-948 | After an operation on SQL that was not cached, the next one on it uses the same native statement and prepares nothing, exactly if the SQL is cacheable; otherwise the statement is finalized when the operation ends |
| `StatementHits.HitSurvivesIff` | app/src/main/java/org/sqlite/database/sqlite/SQLiteConnection.java:892-898 | A statement found in the cache survives nested operations on distinct new cacheable SQL if and only if they are fewer than the cache has places |
| `StatementHits.SurvivesIff` | app/src/main/java/org/sqlite/database/sqlite/SQLiteConnection.java:911-914 | The same for any idle entry, by its place in the recency order |
| `StatementHits.SharedStatementSurvivesIff` | app/src/main/java/org/sqlite/database/sqlite/SQLiteConnection.java:927-948 | A nested operation on the same SQL as a cache hit shares the outer statement and frees it exactly when it cannot reset it |
| `StatementHits.NestedUnderHitMisuses` | app/src/main/java/org/sqlite/database/sqlite/SQLiteConnection.java:896-898 | A concrete run with a cache of one place that finalizes a statement twice |
| `StatementHits.CopyIsForgotten` | app/src/main/java/org/sqlite/database/sqlite/SQLiteConnection.java:915-922 | For every cache size and every cacheable SQL, a run in which nothing held is freed and which leaves exactly one native statement behind after disposal, if looking at a copy can throw |
| `PreparedStatements.SQLiteConnection.constructor` | app/src/main/java/org/sqlite/database/sqlite/SQLiteConnection.java:168-179 | A connection with an empty cache |
| `PreparedStatements.SQLiteConnection.AcquirePreparedStatement` | app/src/main/java/org/sqlite/database/sqlite/SQLiteConnection.java:892-925 | Refines the model's acquisition: hit, copy of a statement in use, new statement, failure before and after the preparation |
| `PreparedStatements.SQLiteConnection.PrepareStatement` | app/src/main/java/org/sqlite/database/sqlite/SQLiteConnection.java:905-924 | The part after the cache lookup, with the branch that forgets a native statement |
| `PreparedStatements.SQLiteConnection.IsPreparedStatementInCache` | app/src/main/java/org/sqlite/database/sqlite/SQLiteConnection.java:463-467 | Answers whether the SQL is cached, and is the model's touch: the entry becomes the most recently used |
| `PreparedStatements.SQLiteConnection.CachePut` | app/src/main/java/org/sqlite/database/sqlite/SQLiteConnection.java:911-914 | Adding an entry drops the eldest one exactly when the cache was full |
| `PreparedStatements.SQLiteConnection.EntryRemoved` | app/src/main/java/org/sqlite/database/sqlite/SQLiteConnection.java:1272-1278 | A dropped statement is finalized at once unless it is in use |
| `PreparedStatements.SQLiteConnection.ObtainPreparedStatement` | app/src/main/java/org/sqlite/database/sqlite/SQLiteConnection.java:1197-1213 | Takes the head of the free list, or a new holder, and fills it |
| `PreparedStatements.SQLiteConnection.RecyclePreparedStatement` | app/src/main/java/org/sqlite/database/sqlite/SQLiteConnection.java:1215-1219 | Pushes the holder on the free list, which stays a duplicate-free chain |
| `PreparedStatements.SQLiteConnection.FinalizePreparedStatement` | app/src/main/java/org/sqlite/database/sqlite/SQLiteConnection.java:950-953 | Finalizes and recycles |
| `PreparedStatements.SQLiteConnection.ReleasePreparedStatement` | app/src/main/java/org/sqlite/database/sqlite/SQLiteConnection.java:927-948 | Refines the model's release: kept in the cache, dropped because it cannot be reset, or finalized |
| `PreparedStatements.SQLiteConnection.ExecuteStatement` | app/src/main/java/org/sqlite/database/sqlite/SQLiteConnection.java:1039-1044 | Executes exactly unless the connection is read-only and the SQL writes; one native execution of that statement is logged if so and none otherwise |
| `PreparedStatements.SQLiteConnection.EvictAll` | app/src/main/java/org/sqlite/database/sqlite/SQLiteConnection.java:249 | Drops every entry, as the model does |
| `PreparedStatements.SQLiteConnection.Dispose` | app/src/main/java/org/sqlite/database/sqlite/SQLiteConnection.java:238-256 | No live statement but the lost ones is left when the native handle is closed |
| `OperationLog.SameCookieIff` | app/src/main/java/org/sqlite/database/sqlite/SQLiteConnection.java:1402-1405 | Two begins get the same cookie if and only if their distance is a multiple of 5*2^24 |
| `OperationLog.CookieBits` | app/src/main/java/org/sqlite/database/sqlite/SQLiteConnection.java:1402-1409 | Shift, or and mask on 32 bits are what the arithmetic cookie says |
| `OperationLog.CookieIs` | app/src/main/java/org/sqlite/database/sqlite/SQLiteConnection.java:1402-1409 | The slot is read back from the cookie, whatever the wrapped generation |
| `OperationLog.ResolvesToItselfIff` | app/src/main/java/org/sqlite/database/sqlite/SQLiteConnection.java:1407-1411 | A cookie stands for its own operation if and only if fewer than 20 later ones have begun |
| `OperationLog.NeverResolvesToAnother` | app/src/main/java/org/sqlite/database/sqlite/SQLiteConnection.java:1407-1411 | For distances below 5*2^24 it otherwise stands for nothing |
| `OperationLog.ResolvesIff` | app/src/main/java/org/sqlite/database/sqlite/SQLiteConnection.java:1407-1411 | For every distance, exactly when it stands for some operation |
| `OperationLog.OperationLog.BeginOperation` | app/src/main/java/org/sqlite/database/sqlite/SQLiteConnection.java:1313-1350 | The ring holds the last 20 operations, each under its own cookie; the new one is appended to the history |
| `OperationLog.OperationLog.GetOperation` | app/src/main/java/org/sqlite/database/sqlite/SQLiteConnection.java:1407-1411 | Finds an entry exactly when the cookie resolves |
| `OperationLog.OperationLog.FailOperation` | app/src/main/java/org/sqlite/database/sqlite/SQLiteConnection.java:1352-1359 | Records the exception with the operation the cookie stands for, and with no other |
| `OperationLog.OperationLog.EndOperation` | app/src/main/java/org/sqlite/database/sqlite/SQLiteConnection.java:1361-1367 | Marks that operation finished, and no other |
| `Cancellation.CancellationInStep` | app/src/main/java/org/sqlite/database/sqlite/SQLiteConnection.java:955-983 | Over every run of nested operations with exceptions and concurrent cancellations: the count is the number of executing operations with a signal, never negative; the handler is on exactly when positive; only the outermost signal is listened to; the native flag is up exactly when that signal is canceled |
| `Cancellation.CancelIsNotErased` | app/jni/sqlite/android_database_SQLiteConnection.cpp:842-858 | Once the outermost signal is canceled the native flag stays up, whatever nested operations begin and end, until that operation itself ends |
| `Cancellation.ClearsTheListenerItSet` | app/src/main/java/org/sqlite/database/sqlite/SQLiteConnection.java:975-981 | Over every run, the signal whose listener is taken away is the only one that has it |
| `Cancellation.NestedCancelIsUnheard` | app/src/main/java/org/sqlite/database/sqlite/SQLiteConnection.java:959-966 | Over every run, canceling only a nested operation's signal does not raise the flag |
| `Cancellation.OutermostCancelIsHeard` | app/src/main/java/org/sqlite/database/sqlite/SQLiteConnection.java:959-966 | Over every run, canceling the signal of the outermost operation that has one raises the flag at once |
| `Cancellation.CanceledStartsNothing` | app/src/main/java/org/sqlite/database/sqlite/SQLiteConnection.java:959-966 | A canceled signal stays canceled, and no operation with it starts, whatever the run does |
| `Cancellation.NextKeepsInv` | app/src/main/java/org/sqlite/database/sqlite/SQLiteConnection.java:955-983 | Each step of attaching, detaching and canceling keeps the invariant of its phase |
| `CancelableConnections.CancelableConnection.AttachCancellationSignal` | app/src/main/java/org/sqlite/database/sqlite/SQLiteConnection.java:955-968 | Throws exactly for a canceled signal, before it counts; otherwise the model's steps in one go |
| `CancelableConnections.CancelableConnection.DetachCancellationSignal` | app/src/main/java/org/sqlite/database/sqlite/SQLiteConnection.java:970-983 | The model's steps of ending an operation |
| `CancelableConnections.CancelableConnection.Cancel` | app/src/main/java/org/sqlite/database/sqlite/SQLiteConnection.java:985-993 | Canceling a signal reaches the connection exactly if it listens |
| `Collation.ComparesLexicographically` | app/jni/sqlite/android_database_SQLiteConnection.cpp:130-142 | Negative, zero, positive exactly for lexicographically less, equal, greater byte strings |
| `Collation.SwappingNegates` | app/jni/sqlite/sqlite3.h:4568-4580 | Equality is symmetric and the order antisymmetric |
| `Collation.CompareIsTransitive` | app/jni/sqlite/sqlite3.h:4568-4580 | Equality and order are transitive |
| `Collation.CompareFits` | app/jni/sqlite/android_database_SQLiteConnection.cpp:138-140 | The length difference of the tie-break does not overflow |

## Left out

- The catch branch of `finishAcquireConnectionLocked` (`SQLiteConnectionPool.java:916-921`): what it guards is a field assignment and a map insertion, so acquiring is modelled as infallible once a connection exists.
- Connection objects inside the pool are values keyed by their id, so aliasing between connection objects is not captured; waiter, configuration, holder, signal and log-entry objects are objects.
- Leaks: an acquired connection may vanish between two locked blocks, not in the middle of one, and not while it is on its way to a waiter.
- Requests after closing: only that idle sets and queue are empty, that a waiter gets an exception, and that returned connections are closed; a connection assigned just before closing is abandoned, as in the code.
- ConnectionPool.SQLiteConnectionPool.OnCancel: assumes that a waiter object is recycled fewer than 2^32 times while one of its listeners is still set, because the nonce wraps around.
- ConnectionPool.SQLiteConnectionPool.ApplyConfiguration: takes a configuration of the same path that shares no object with the pool's own, which is what every caller passes; `Database` proves it of them.
- ConnectionPool.SQLiteConnectionPool.ReconfigureConnections: takes a configuration of the same path that shares no object with the pool's own, which is what every caller passes; `Database` proves it of them.
- PreparedStatements.SQLiteConnection.AcquirePreparedStatement: excludes the acquisitions that push out a held entry, because the holder then ends up on the free list twice and the list is none any more; `StatementModel.Acquire` and `StatementSafety` cover them.
- PreparedStatements.SQLiteConnection.ReleasePreparedStatement: excludes, for the same reason, the releases that remove a held entry.
- Callers of `reconfigure` only ever append custom functions and keep the path; this is the model's `Extends`, and the database setters satisfy it.
- LruCache and CursorWindow are platform classes. The cache is modelled with a bound of at least one, recency order and a removal callback; the window with a finite capacity, whole-row allocation, and a cleared window that accepts any number of columns.
- SQLiteCursors.SQLiteCursor.OnMove: start positions are never negative, because they come from `PickStart`; a query that changes between two fills is not modelled, and neither are more than 2^31 - 1 rows.
- A cache insertion that throws (`SQLiteConnection.java:912`): the cache throws only for null keys and values.
- OperationLog: start and end times, bind arguments and the texts of the log; a cookie that no begin returned.
- Cancellation: a signal shared with other listeners at the same time.
- CancelableConnections.CancelableConnection.AttachCancellationSignal: has no cancellation in between its steps; `Cancellation` has.
- Collation.Compare: `memcmp` has a meaning only in its sign, for which the difference of the first differing bytes stands.
- Timing, parking and re-parking, logging, dumps, statistics, CloseGuard and finalizers other than the leak step.
- The SQL and pragmas that opening and reconfiguring execute, error-code mapping, JNI registration: native calls succeed or fail arbitrarily.
- Whether a database is in memory, whether a codec is compiled in, and the pool size set for WAL mode (10 in `SQLiteGlobal`) are parameters.
- StatementModel: once a run has freed a held statement, the free list stays a sequence, whereas the linked list may then have lost its end.
- ReadOnlyHolds: the pool asks idle connections about their caches at any time, not just inside an acquisition, and all connections describe SQL alike.
- SQLiteSession, SQLiteStatement, SQLiteClosable counting, page-size rounding, `findEditTable`, `setWindow` by clients: they would add easy members.
- SQLiteNaive, SQLiteRTree, the activities, services and helpers of the application.
