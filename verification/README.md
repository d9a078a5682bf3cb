# Neo4j Go driver: a verified model of its core

A Dafny 4.11 model of the parts of the Neo4j driver for Go whose correctness is a matter of every run
or every input, with proofs. `dafny verify dfyconfig.toml` checks all of it.

| files | what they model |
|---|---|
| `Bolt`, `BoltConnection` | the Bolt 5 connection: pipelined requests, the queue of response handlers, several result streams at once |
| `BoltCalls` | what its calls give out, take away and ask for, in every run whatever fails; failure and reset |
| `BoltTx`, `BoltResults`, `BoltAuto` | transactions and auto-commit queries in which nothing fails: every call succeeds and every result arrives |
| `Pool`, `PoolRuns`, `PoolLending`, `PoolWakeUps`, `PoolServer` | the connection pool: concurrent Borrow, Return, CleanUp and deactivate, one critical section at a time |
| `Session` | sessions and transactions as clients of the pool |
| `ReadAhead` | the socket that reads ahead on a goroutine of its own |
| `Chunking` | the chunker, which builds headers over bytes it has sent, and the dechunker |
| `PackStream`, `PackStreamBuffers` | the packer and the unpacker, byte for byte |
| `PropertyScheme`, `PropertyEncoder`, `PropertyCodec`, `Envelope` | encoding of property values, its versions, and the Encrypted structure |
| `Cache`, `KeyResolution`, `KeyOverlap` | the LRU cache with expiry, the key lookup it speeds up, and lookups that overlap with other calls |
| `Retry` | the retry loop of transaction functions |
| `Duration` | `Duration.String` and a reader of what it prints |
| `WireFormat` | the formats above against literal octets |
| `Bytes` | octets, big-endian integers, Go's division |

Code that changes things in place is a class or a method with loops, each tied by its `ensures` to a
function of the old state; the laws are lemmas about those functions. Concurrent code is a state
machine whose steps are the critical sections or channel operations, and the lemmas are about every
sequence of steps. Whatever the driver does not decide (an answer of the server, a failing call, a
clock, a random number) is a parameter or an arbitrary value.

## What the proofs turned up

- `Pool.Close` means to wake every waiter, but takes an element off the list before asking it for its
  successor, so it wakes one, and the others sleep on in the closed pool (`PoolServer.WakeWaiters`,
  `PoolWakeUps.CloseWakesOne`, `PoolWakeUps.ClosedAsleep`).
- A waiter looks once more for room before it sleeps, and counts a server that is not in the map as
  full. If the server's entry was dropped meanwhile, the waiter sleeps with the whole server free and
  nobody left to wake it (`PoolWakeUps.SleepsWithRoom`, `PoolWakeUps.DroppedEntryStrands`).
- `Duration.String` promises ISO 8601 text. When seconds and nanoseconds cancel out without both
  being zero it ends in a bare `T` (`Duration.StringMeans`, `Duration.CancelsOut`).
- Growing the dechunker's buffer copies only the slice's length, so bytes received into spare capacity
  are lost; it is right on all inputs exactly when the buffer has no spare capacity, as the
  connection's own has not (`Chunking.BufferMustBeFull`).
- A key lookup asks the repository and notes the answer in the caches as two steps. If meanwhile the
  alias was moved and the index cleared, or the key deleted and taken out of the cache, the lookup puts
  it back, and the next caller is given a key that is no longer bound, or no longer exists, until it
  expires (`KeyOverlap.UnboundAliasServed`, `KeyOverlap.DeletedKeyServed`). It is right exactly if at the
  moment of noting the repository still has what was found or the change has yet to clean up
  (`KeyOverlap.NoteExact`); so it is right if no such change of that key comes between
  (`KeyOverlap.OverlapsStayRight`). Calls that do not overlap are always right.
- `Consume` promises to discard all records of a stream. Records already buffered stay, and `Next` still
  returns them, if the result has arrived already, or its stream is current with nothing in flight; just
  then (`BoltResults.ConsumeEmpties`, `BoltResults.NextAfterConsume`, `BoltResults.ConsumedYetReturned`).
- `Consume` and `Buffer` of a stream that is not current ask for it again without looking whether an
  answer for it is on its way (`BoltResults.SwitchAsksAgain`).
- An encoded value or a sealed structure of 4 GiB or more can be written but never read back, since the
  unpacker keeps its length in 32 bits (`PropertyCodec.LaterDriversDecode`, `Envelope.EnvelopeRoundTrip`).

## Model

| member | source | states |
|---|---|---|
| `Bolt.Calls` | neo4j/internal/bolt/message_queue.go:141-200 | Over every sequence of calls, answers and failures: the handlers are exactly the requests not finally answered, in order, and for each stream not being discarded what was given out of it followed by its buffer is all the server sent for it, in order; what is given out is what Next returns by the rows of `BoltCalls` |
| `Bolt.EveryRun` | neo4j/internal/bolt/bolt5.go:560-836 | The same from a new connection on, spelled out; `BoltCalls.EveryRun` says it of the records returned |
| `Bolt.DeliveredPaired` | neo4j/internal/bolt/message_queue.go:152-200 | An answer reaches the handler of the oldest unanswered request; a record leaves that handler at the front, anything final removes it |
| `Bolt.DeliveredKeepsAll` | neo4j/internal/bolt/bolt5.go:1090-1130 | No record is lost, repeated or given to another stream by the handling of any answer |
| `Bolt.HandledBuffers` | neo4j/internal/bolt/bolt5.go:1031-1155 | Handling an answer touches no stream's buffer but that of the stream it is for |
| `Bolt.ReceiveAll` | neo4j/internal/bolt/message_queue.go:141-150 | It ends; when it succeeds no handler is left |
| `BoltCalls.EveryRun` | neo4j/internal/bolt/bolt5.go:560-836 | In every run from a new connection, whatever is called, answered or fails: the records Next returned of a stream, in order, then those buffered, are those the server sent for it, if it is not being discarded, and always if there was no Consume and no end of a transaction; a stream has a summary only if the server said there is no more; and there are no more commits and rollbacks than calls for each |
| `BoltCalls.NextGives` | neo4j/internal/bolt/bolt5.go:664-695 | The record Next returns is the one given out, after those given out before, of that stream and no other; without a record none is given out |
| `BoltCalls.CallGives` | neo4j/internal/bolt/bolt5.go:560-836 | No other call gives out any record, whatever fails |
| `BoltCalls.CallDiscards` | neo4j/internal/bolt/bolt5.go:454-504 | A stream starts losing its records only in Consume, where it is the stream made current, and in the end of a transaction, where it is the current one |
| `BoltCalls.CallEnds` | neo4j/internal/bolt/bolt5.go:388-452 | Only TxCommit asks for a commit, once and for no rollback, and only TxRollback for a rollback; every other call asks for neither |
| `BoltCalls.RunGives` | neo4j/internal/bolt/stream.go:45-60 | Over any calls, what is given out of a stream grows by exactly the records those calls returned, in order |
| `BoltCalls.RunEnds` | neo4j/internal/bolt/bolt5.go:388-452 | Over any calls, commits and rollbacks carried out or outstanding grow by no more than the calls for each |
| `BoltCalls.SummaryIsTrue` | neo4j/internal/bolt/bolt5.go:1070-1130 | In every run, Next and Consume answer with a summary only if the server has said that there is no more of that stream |
| `BoltCalls.ErrorStays` | neo4j/internal/bolt/bolt5.go:370-386 | Once an error is recorded it stays until a reset, and meanwhile every Run, RunTx, TxBegin and end of a transaction answers with an error |
| `BoltCalls.FailureEffect` | neo4j/internal/bolt/bolt5.go:197-233 | The first failure leaves the connection failed, or dead if it is fatal or the socket broke, with no stream current; the current stream and the one the failed request was for are cut short |
| `BoltCalls.IgnoredEffect` | neo4j/internal/bolt/bolt5.go:1063-1130 | A PULL or DISCARD the server ignored cuts its stream short |
| `BoltCalls.ForceResetRestores` | neo4j/internal/bolt/bolt5.go:817-836 | If what was outstanding is drained without failure and RESET is acknowledged, the connection is ready with no error and nothing outstanding, and the server neither failed nor in a transaction |
| `BoltCalls.ResetRestores` | neo4j/internal/bolt/bolt5.go:798-836 | Reset likewise, or without a message if it was ready, with transaction, error and streams forgotten |
| `BoltTx.ReachesItsQuery` | neo4j/internal/bolt/bolt5.go:1001-1011 | A PULL or DISCARD, with or without a query id, makes the server act on the query of the stream it was sent for |
| `BoltTx.DeliveredInTx` | neo4j/internal/bolt/bolt5.go:1031-1130 | Every answer keeps the transaction's invariant: the count of open streams, query ids, what is in flight for which stream, rows still to come |
| `BoltTx.ReceiveInTx` | neo4j/internal/bolt/message_queue.go:152-200 | A receive without failure keeps it too, whatever other streams have in flight |
| `BoltTx.NextInTx` | neo4j/internal/bolt/bolt5.go:664-695 | Next on any stream of the transaction returns a record, the next one given out of that stream, or the summary with nothing buffered, and never finds that there should be more to pull |
| `BoltTx.ConsumeInTx` | neo4j/internal/bolt/bolt5.go:697-734 | Consume on the current stream or one with nothing in flight ends with its summary and leaves every other stream in order |
| `BoltTx.BufferInTx` | neo4j/internal/bolt/bolt5.go:736-772 | Buffer likewise, with the stream ended; of a stream not discarded, the records returned before and those now buffered are all the query's rows in order |
| `BoltTx.RunInTx` | neo4j/internal/bolt/bolt5.go:560-601 | A further query pauses the current stream, finds none current when it attaches, and waits until its own RUN is answered |
| `BoltTx.BeginInTx` | neo4j/internal/bolt/bolt5.go:308-358 | BEGIN, awaited or pipelined, starts a transaction with no stream open; earlier streams keep what they have |
| `BoltTx.EndInTx` | neo4j/internal/bolt/bolt5.go:388-452 | Commit and rollback drain everything and leave the connection ready with no stream open; the server has carried out exactly one commit more if that was asked for, and else exactly one rollback more, and nothing of the other |
| `BoltTx.TransactionRuns` | neo4j/internal/bolt/stream.go:92-155 | In every state of every failure-free transaction, num is the number of attached unfinished streams, the state is StreamingTx exactly while there are some, every call succeeds, and nothing has been committed or rolled back |
| `BoltTx.WholeTransaction` | neo4j/internal/bolt/bolt5.go:308-452 | A transaction from BEGIN to its end returns the connection to the state the next starts from; the server has committed it once and not rolled it back, or the other way round, as was asked for |
| `BoltTx.ResultArrivesWhole` | neo4j/internal/bolt/bolt5.go:664-695 | Records given out, then buffered, then left with the server are the query's rows in order; with the summary and nothing buffered, all have been given out |
| `BoltTx.FirstQuery` | neo4j/internal/bolt/bolt5.go:560-601 | Such transactions exist: after a pipelined BEGIN a server's two answers open the first stream, for any fetch size and rows |
| `BoltResults.RowsReturned` | neo4j/internal/bolt/bolt5.go:664-695 | Of a query a failure-free transaction opens and does not consume, under any interleaving with other queries: the records its Next calls returned, in order, then those buffered, then those left with the server, are the query's rows |
| `BoltResults.ReadToTheEnd` | neo4j/internal/bolt/bolt5.go:664-695 | Once Next has answered with the summary, the records it returned are exactly the query's rows |
| `BoltResults.CallSpares` | neo4j/internal/bolt/bolt5.go:697-734 | In such a transaction a stream starts losing its records only by a Consume of that very stream |
| `BoltResults.ConsumeEmpties` | neo4j/internal/db/connection.go:117-118 | A Consume that succeeds ends the stream and leaves its buffer empty exactly if it still had to ask for it or wait for an answer, and otherwise as it was |
| `BoltResults.NextAfterConsume` | neo4j/internal/bolt/bolt5.go:697-734 | After it Next answers with the summary exactly in that case or if nothing was buffered |
| `BoltResults.ConsumedYetReturned` | neo4j/internal/bolt/bolt5.go:697-708 | A run in which a query with one row is buffered, consumed, and Next then returns the row |
| `BoltResults.SwitchAsksAgain` | neo4j/internal/bolt/bolt5.go:722-729 | With no stream current, Consume and Buffer have two requests outstanding for their stream exactly if an answer for it was on its way |
| `BoltResults.QueryRequests` | neo4j/internal/bolt/bolt5.go:574-616 | A query is sent as RUN and PULL of as many records as the caller gave, all of them if negative, 1000 if zero |
| `BoltAuto.RunInAuto` | neo4j/internal/bolt/bolt5.go:560-640 | An auto-commit query while an earlier result is pending succeeds; every earlier result has arrived whole and the new one streams |
| `BoltAuto.BeginInAuto` | neo4j/internal/bolt/bolt5.go:308-358 | A transaction begun while a result is pending starts within the transaction's invariant, with that result arrived whole |
| `BoltAuto.NextInAuto` | neo4j/internal/bolt/bolt5.go:664-695 | Next on any auto-commit result returns a record, or the summary with the result arrived and nothing buffered |
| `BoltAuto.BufferInAuto` | neo4j/internal/bolt/bolt5.go:736-772 | Buffer has the whole result arrive and discards nothing |
| `BoltAuto.ConsumeInAuto` | neo4j/internal/bolt/bolt5.go:697-734 | Consume ends with the summary and takes nothing from any other stream |
| `BoltAuto.AutoRuns` | neo4j/internal/bolt/bolt5.go:560-772 | After any auto-commit calls without failure at most one result is streaming, all earlier ones have arrived, and only consumed ones were discarded |
| `BoltAuto.RowsReturnedAuto` | neo4j/internal/bolt/bolt5.go:560-772 | Of an auto-commit query not consumed, the records returned, then buffered, then left with the server are its rows, whatever queries came after |
| `BoltConnection.Connection.Receive` | neo4j/internal/bolt/message_queue.go:152-192 | The method pops the front handler, runs it on the message and pushes it back for a record, as the machine says |
| `BoltConnection.Connection.ReceiveAll` | neo4j/internal/bolt/message_queue.go:141-150 | The loop does what the machine's ReceiveAll says |
| `BoltConnection.Connection.OnMessage` | neo4j/internal/bolt/bolt5.go:1031-1155 | Each handler's effect on streams, state and error |
| `BoltConnection.Connection.SetError` | neo4j/internal/bolt/bolt5.go:197-233 | An error becomes the connection's, fails it or kills it, and goes to the current stream |
| `BoltConnection.Connection.CheckStreams` | neo4j/internal/bolt/bolt5.go:171-182 | With no stream open, streaming states go back to their idle ones |
| `BoltConnection.Connection.BufferStream` | neo4j/internal/bolt/bolt5.go:506-531 | The loop asks for everything and receives to the end of the stream |
| `BoltConnection.Connection.PauseStream` | neo4j/internal/bolt/bolt5.go:533-552 | The current stream's batch is received and then no stream is current |
| `BoltConnection.Connection.DiscardStream` | neo4j/internal/bolt/bolt5.go:454-492 | The loop discards what is buffered and to come of the current stream |
| `BoltConnection.Connection.RunQuery` | neo4j/internal/bolt/bolt5.go:560-601 | RUN and PULL are pipelined and answers received until the new stream is attached |
| `BoltConnection.Connection.Next` | neo4j/internal/bolt/bolt5.go:664-695 | The loop returns a buffered record, asks for the next batch or reports the end, as the machine says; the record it returns is the one given out of that stream |
| `BoltConnection.Connection.Consume` | neo4j/internal/bolt/bolt5.go:697-734 | The method does what the machine's Consume says |
| `BoltConnection.Connection.Buffer` | neo4j/internal/bolt/bolt5.go:736-772 | The method does what the machine's Buffer says, and no stream starts being discarded by it |
| `BoltConnection.Connection.TxBegin` | neo4j/internal/bolt/bolt5.go:308-358 | The method does what the machine's TxBegin says |
| `BoltConnection.Connection.EndTx` | neo4j/internal/bolt/bolt5.go:388-452 | Commit and rollback, as the machine says; it asks for one more of the one called for and for none of the other |
| `BoltConnection.Connection.ForceReset` | neo4j/internal/bolt/bolt5.go:817-836 | Everything outstanding is received, then RESET sent and its answer received |
| `BoltConnection.Connection.Reset` | neo4j/internal/bolt/bolt5.go:798-815 | As the machine says, with streams, transaction and error cleared |
| `PoolRuns.StepInv` | neo4j/internal/pool/pool.go:151-516 | Every critical section keeps the pool's invariant: each open connection stands once in idle or busy of the one server mapped under its name, in busy exactly when somebody has it; reservations are the threads connecting; sizes within the maximum; counters right. Where each step takes each connection is `PoolLending.PlaceMoves` |
| `PoolRuns.EveryRun` | neo4j/internal/pool/pool.go:198-516 | The invariant holds in every state of every interleaving of any number of threads |
| `PoolRuns.PoolSafe` | neo4j/internal/pool/pool.go:312-366 | In every reachable state no server exceeds the maximum, no connection was closed twice, the two counters equal the open connections with and without server-side routing, and no step misses its server |
| `PoolRuns.ServerFound` | neo4j/internal/pool/pool.go:382-396 | Whoever has a connection or a reservation finds its server in the map, so the branches for a missing one and the nil server in the error callback cannot be reached |
| `PoolRuns.OneConnection` | neo4j/internal/pool/server.go:57-67 | A connection is listed exactly once while open and never after, and in busy exactly if lent out or in some thread's hands |
| `PoolLending.PlaceMoves` | neo4j/internal/pool/pool.go:198-516 | The whole life of a connection: every step moves every connection as a table of its places (unmade, idle, checked, dropped, lent, going back, closed) says, and no other way |
| `PoolLending.SomePlace` | neo4j/internal/pool/server.go:57-67 | Every connection is in one of those places |
| `PoolLending.PlacesApart` | neo4j/internal/pool/server.go:57-67 | and in no two |
| `PoolLending.HeldAfter` | neo4j/internal/pool/pool.go:312-366 | Only a passed health check and a successful connect lend a connection, only Return takes one back |
| `PoolLending.ClosesAfter` | neo4j/internal/pool/pool.go:382-420 | Exactly the connections that are dropped, returned dead or to a closing server, or idle and too old or deactivated are closed, once, and no other is touched |
| `PoolLending.EveryLoan` | neo4j/internal/pool/pool.go:198-330 | In every run, whatever Borrow lends has passed that Borrow's health check or was just made by it, is open, and is to one of the servers that Borrow named |
| `PoolLending.RejectedForGood` | neo4j/internal/pool/pool.go:324-332 | A connection that failed its health check is never lent again in any run, and is closed once, by the thread that found it |
| `PoolLending.ClosedForGood` | neo4j/internal/pool/pool.go:410-430 | A closed connection stays closed and is never lent |
| `PoolLending.DeactivateEffect` | neo4j/internal/pool/pool.go:554-563 | Deactivating a server closes each of its idle connections, leaves none, marks it closing and touches nothing lent or under way |
| `PoolLending.CleanUpEffect` | neo4j/internal/pool/pool.go:147-162 | CleanUp closes exactly the idle connections that are too old, and drops the entry exactly if nothing is left of it and no connect failed in the last three minutes |
| `PoolLending.TryServerChoice` | neo4j/internal/pool/pool.go:311-345 | A server with an idle connection gives its front one, a full one is passed over, any other is connected to, on a new entry if it has none |
| `PoolLending.FailureGoesOn` | neo4j/internal/pool/pool.go:224-252 | After a failed connect the next server is tried unless the failure is fatal; when none is left Borrow fails if the last server did and else waits; the failure is remembered unless it is not the server's |
| `PoolLending.CheckGoesOn` | neo4j/internal/pool/pool.go:328-341 | After a failed check the same server is tried again if it failed quietly, else the next one unless the failure is fatal |
| `PoolLending.ClosedTurnsAway` | neo4j/internal/pool/pool.go:369-374 | A closed pool turns away whoever comes, is woken or goes on to the next server, and changes nothing else |
| `Pool.Forgotten` | neo4j/internal/pool/pool.go:393-395 | A server's entry is dropped only with nothing idle, busy or reserved, and dropping it keeps the invariant |
| `Pool.TakeIdleInv` | neo4j/internal/pool/server.go:57-67 | Taking an idle connection for its health check keeps the invariant |
| `Pool.ReserveInv` | neo4j/internal/pool/pool.go:316-345 | Reserving a place when the size is below the maximum keeps it |
| `Pool.RegisterInv` | neo4j/internal/pool/pool.go:362-366 | Turning a reservation into a busy connection keeps it |
| `Pool.ConnectFailedInv` | neo4j/internal/pool/pool.go:350-360 | Giving up a reservation keeps it |
| `Pool.CloseBusyInv` | neo4j/internal/pool/pool.go:382-396 | Unregistering and closing a busy connection keeps it |
| `Pool.IdleAgainInv` | neo4j/internal/pool/server.go:145-153 | Putting a busy connection back keeps it |
| `Pool.CloseIdleInv` | neo4j/internal/pool/server.go:186-222 | Closing any idle connections keeps it |
| `Pool.CloseAllEffect` | neo4j/internal/pool/server.go:186-222 | Closing a list of distinct open connections closes each once, touches no other and keeps the counters right |
| `Pool.CloseConnTracked` | neo4j/internal/pool/ssr_tracker.go:39-45 | Counting a connection out as it is closed keeps both counters equal to the open connections of their kind |
| `PoolWakeUps.NoSendBlocks` | neo4j/internal/pool/pool.go:264-293 | In every run, whoever stands in the queue stands there once with an empty wake-up channel |
| `PoolWakeUps.NoWakeUpLost` | neo4j/internal/pool/pool.go:252-293 | With one server, no failing connect or check and the entry not dropped: whenever waiters are queued, free capacity is at most the wake-ups on their way, in every interleaving and with any timeouts |
| `PoolWakeUps.WakeFrontNoneLost` | neo4j/internal/pool/pool.go:499-507 | Return either passes its wake-up on or nobody waits |
| `PoolWakeUps.LockNoneLost` | neo4j/internal/pool/pool.go:252-268 | Looking for room with the queue locked, nobody sleeps while there is any |
| `PoolWakeUps.AbandonNoneLost` | neo4j/internal/pool/pool.go:275-291 | A waiter that times out after being woken takes its wake-up along and wakes the next |
| `PoolWakeUps.CloseWakesOne` | neo4j/internal/pool/pool.go:100-108 | Closing the pool empties the queue exactly if at most one waits; all others still sleep |
| `PoolWakeUps.WalkOnClose` | neo4j/internal/pool/pool.go:103-107 | The walk as it is written leaves the queue as that step says and wakes just those that no longer sleep |
| `PoolWakeUps.ClosedAsleep` | neo4j/internal/pool/pool.go:100-108 | A run from an empty pool in which two wait when it is closed and the second still sleeps |
| `PoolWakeUps.SleepsWithRoom` | neo4j/internal/pool/pool.go:184-196 | A waiter goes to sleep with room on its server exactly if the server's entry is missing |
| `PoolWakeUps.DroppedEntryStrands` | neo4j/internal/pool/pool.go:252-268 | A run in which a waiter sleeps, nothing is in use and nobody is left to wake it |
| `PoolServer.Server.GetIdle` | neo4j/internal/pool/server.go:57-67 | The front idle connection moves to the front of busy |
| `PoolServer.Server.RegisterBusy` | neo4j/internal/pool/server.go:165-170 | To the front of busy, with the next turn of the counter all servers share |
| `PoolServer.Server.UnregisterBusy` | neo4j/internal/pool/server.go:172-180 | The first occurrence leaves busy, order kept |
| `PoolServer.Server.ReturnBusy` | neo4j/internal/pool/server.go:145-153 | Back to idle, or to be closed if the server is closing |
| `PoolServer.Server.RemoveIdleOlderThan` | neo4j/internal/pool/server.go:186-200 | Exactly the idle connections that are too old go, in order, and the rest stay in order |
| `PoolServer.Server.StartClosing` | neo4j/internal/pool/server.go:211-222 | All idle connections are to be closed and the list is empty |
| `PoolServer.Server.CalculatePenalty` | neo4j/internal/pool/server.go:118-143 | The step-by-step computation gives the penalty whose order the next row describes |
| `PoolServer.PenaltyOrders` | neo4j/internal/pool/server.go:114-143 | One server's penalty is lower exactly if it has not failed within three minutes and the other has, or else has fewer busy connections up to 255, or else has an idle one and the other none, or else its turn is first; a server without a record counts as one never used |
| `PoolServer.WakeWaiters` | neo4j/internal/pool/pool.go:103-107 | The walk over the queue that removes before it asks for the next wakes the first waiter only |
| `Session.Session.GetConnection` | neo4j/session.go:590-639 | One connection more is out, or none: whatever was borrowed on a path that fails has gone back |
| `Session.Session.BeginTransaction` | neo4j/session.go:316-403 | A transaction holding one connection on which BEGIN succeeded, or none and nothing out; a pending result is drained and its connection has gone back |
| `Session.Session.OnClose` | neo4j/session.go:386-396 | The transaction's connection goes back once however often this is called, and another transaction is not disturbed |
| `Session.Session.OnError` | neo4j/transaction.go:57-62 | A recorded error lets the connection go and asks nothing of it |
| `Session.Session.TxRun` | neo4j/transaction.go:73-86 | A query on a transaction that is not over, and on no other; a failing one ends it and gives the connection back |
| `Session.Session.Commit` | neo4j/transaction.go:88-98 | Commits a transaction that is not over, once, and says so only if the server did; it holds no connection afterwards |
| `Session.Session.Rollback` | neo4j/transaction.go:108-123 | At most one rollback of a transaction that is not over, and nothing else; it holds no connection afterwards |
| `Session.Session.TxClose` | neo4j/transaction.go:100-106 | Likewise, any number of times; it never commits |
| `Session.Session.ResultAdvance` | neo4j/result.go:279-290 | A failing result ends its transaction, or does nothing if that is over |
| `Session.Session.FinishAutocommit` | neo4j/transaction.go:151-165 | The pending result is drained once, its connection goes back and none is pending |
| `Session.Session.Run` | neo4j/session.go:725-826 | A pending result with one connection on which the query succeeded, or nothing out; the query is tried at most twice |
| `Session.Session.Attempt` | neo4j/session.go:482-555 | A commit is asked for exactly if the transaction began and the work then succeeded, on its connection; the attempt is complete exactly if that commit succeeded; what was out before is out afterwards |
| `Session.Session.Execute` | neo4j/session.go:429-480 | Exactly one commit succeeds if it says so and none otherwise, over any number of attempts, and nothing is left out |
| `Session.Session.Close` | neo4j/session.go:840-870 | Nothing is out afterwards; what is pending is rolled back or drained, never committed |
| `Session.Session.NoErrorHoldsConnection` | neo4j/transaction.go:52-123 | A transaction with an error recorded holds no connection |
| `Session.LiveSession` | neo4j/session.go:316-870 | For any calls in any order on a session and its transactions, any of them failing, ended by Close: every connection borrowed was given back exactly once and no other; it was used only while borrowed and not after its transaction was asked to end; and no more commits succeeded than calls asked for one |
| `ReadAhead.StepInv` | neo4j/internal/bolt/connections.go:50-128 | Every channel operation, socket read and Close keeps exactly one token and loses nothing delivered |
| `ReadAhead.EveryRun` | neo4j/internal/bolt/connections.go:50-128 | In every interleaving: one token; no send blocks; the socket writes into the buffer only while nothing unread lies in it; what Read returned plus what is unread is what the socket delivered, errors in their place; a waiting Read is served unless closed |
| `ReadAhead.BytesInOrder` | neo4j/internal/bolt/connections.go:50-69 | The bytes Read returned are a prefix of those the socket delivered |
| `ReadAhead.PeerAliveOnlyLooks` | neo4j/internal/bolt/connections.go:99-112 | Asking whether the peer is alive changes nothing; it says no exactly if the reader is done or an error is pending |
| `Chunking.FramesRead` | neo4j/internal/bolt/chunker.go:60-107 | A message in chunks is read back whole, whatever follows it |
| `Chunking.StreamRoundTrip` | neo4j/internal/bolt/dechunker.go:36-78 | Any list of non-empty messages, with any number of no-op chunks before each, is read back in order |
| `Chunking.SendThenReceive` | neo4j/internal/bolt/chunker.go:43-107 | What is written for any messages is read back as the non-empty ones, in order |
| `Chunking.SendAndReceive` | neo4j/internal/bolt/chunker.go:43-107 | Chunker, a socket that takes only so many bytes, and dechunker together: all non-empty messages arrive in order, or the first of them if a write fails |
| `Chunking.CutShort` | neo4j/internal/bolt/dechunker.go:36-78 | Of a stream cut short, the complete messages are the first ones of the whole |
| `Chunking.Chunker.BeginMessage` | neo4j/internal/bolt/chunker.go:43-47 | Room for a header is made |
| `Chunking.Chunker.EndMessage` | neo4j/internal/bolt/chunker.go:49-58 | The message is complete and its size noted |
| `Chunking.Chunker.Send` | neo4j/internal/bolt/chunker.go:60-107 | Although it overwrites bytes already sent to build each further header, what reaches the wire is exactly the chunked stream, or a prefix of it if a write fails |
| `Chunking.DechunkMessage` | neo4j/internal/bolt/dechunker.go:36-78 | The loop returns what its specification says for every byte stream, slice length and capacity |
| `Chunking.DechunkAll` | neo4j/internal/bolt/dechunker.go:36-78 | Repeated calls return every message in order across growth of the buffer |
| `Chunking.FullBufferIsSafe` | neo4j/internal/bolt/dechunker.go:60-70 | With no spare capacity, growing loses nothing |
| `Chunking.BufferMustBeFull` | neo4j/internal/bolt/dechunker.go:60-70 | The dechunker is right on all inputs exactly if the buffer it is given has no spare capacity |
| `PackStream.SignedRoundTrip` | neo4j/internal/packstream/unpacker.go:89-102 | Sign extension is right at every width |
| `PackStream.IntRoundTrip` | neo4j/internal/packstream/packer.go:56-75 | Every int64 comes back from the width chosen for it, and nothing more is read |
| `PackStream.FloatRoundTrip` | neo4j/internal/packstream/packer.go:110-114 | Every 64-bit pattern comes back |
| `PackStream.HeaderRoundTrip` | neo4j/internal/packstream/packer.go:120-143 | Every length the header can say comes back with its type |
| `PackStream.StringRoundTrip` | neo4j/internal/packstream/packer.go:145-148 | Every string comes back, read to its end and no further |
| `PackStream.ByteArrayRoundTrip` | neo4j/internal/packstream/packer.go:226-253 | Every byte array comes back, read to its end and no further |
| `PackStream.PackRoundTrip` | neo4j/internal/packstream/unpacker.go:65-196 | Unpacking any packed nested value gives it back and stops exactly at its end, whatever follows |
| `PackStream.ProperPrefixRunsOut` | neo4j/internal/packstream/unpacker.go:156-196 | No proper beginning of a packed value is read without running out |
| `PackStreamBuffers.Packer.Int64` | neo4j/internal/packstream/packer.go:56-75 | Appends the integer's bytes |
| `PackStreamBuffers.Packer.Uint64` | neo4j/internal/packstream/packer.go:93-96 | An error exactly if the number does not fit an int64; its bytes, then wrapped around, are appended all the same |
| `PackStreamBuffers.Packer.ListHeader` | neo4j/internal/packstream/packer.go:120-143 | Appends the header, or notes an error exactly if the length does not fit |
| `PackStreamBuffers.Packer.Bytes` | neo4j/internal/packstream/packer.go:226-253 | Appends the array, or appends nothing and notes an error exactly if it is too long |
| `PackStreamBuffers.Packer.StructHeader` | neo4j/internal/packstream/packer.go:47-54 | Appends marker and tag, or notes an error exactly above fifteen fields |
| `PackStreamBuffers.Packer.PackValue` | neo4j/internal/bolt/outgoing.go:406-509 | A nested value's bytes are appended, or an error noted exactly if some length within it does not fit its header |
| `PackStreamBuffers.WrappedTest` | neo4j/internal/packstream/unpacker.go:84-88 | The bounds test on a 32-bit sum accepts a field that does not fit exactly if the sum wraps, which takes a buffer within eight bytes of 4 GiB |
| `PackStreamBuffers.FillMarkers` | neo4j/internal/packstream/unpacker.go:206-260 | The loops fill the table of 256 markers as specified |
| `PackStreamBuffers.Unpacker.DoNext` | neo4j/internal/packstream/unpacker.go:65-69 | Reads one marker, or the one for zero with an error noted at the end |
| `PackStreamBuffers.Unpacker.DoInt` | neo4j/internal/packstream/unpacker.go:78-105 | Reads the integer after its marker without leaving the buffer |
| `PackStreamBuffers.Unpacker.DoLen` | neo4j/internal/packstream/unpacker.go:71-76 | Reads the length after its marker |
| `PackStreamBuffers.Unpacker.DoRead` | neo4j/internal/packstream/unpacker.go:166-175 | Reads exactly the bytes asked for, or none and notes an error |
| `PackStreamBuffers.Unpacker.DoStr` | neo4j/internal/packstream/unpacker.go:119-127 | Reads a string after its marker, a negative short length wrapping around |
| `PackStreamBuffers.Unpacker.DoValue` | neo4j/internal/bolt/hydrator.go:456-553 | The generic reader reads as specified and ends on any bytes |
| `PackStreamBuffers.Unpacker.DoArray` | neo4j/internal/bolt/hydrator.go:427-435 | The loop reads the elements in order |
| `PackStreamBuffers.Unpacker.DoMap` | neo4j/internal/bolt/hydrator.go:415-425 | The loop reads keys and values in order |
| `PackStreamBuffers.PackThenUnpack` | neo4j/internal/packstream/unpacker.go:50-260 | Packer and unpacker together: every value whose lengths fit is packed; packed into less than 4 GiB it comes back, and beyond that the unpacker runs out |
| `WireFormat.IntegerOctets` | neo4j/internal/packstream/packer.go:56-75 | An integer is written in the shortest of the five forms, with the literal markers of each |
| `WireFormat.MarkerOctets` | neo4j/internal/packstream/packer.go:47-253 | Every other kind of value begins with its literal marker and announces its length after it |
| `WireFormat.ChunkOctets` | neo4j/internal/bolt/chunker.go:60-107 | A chunk is two octets of length and at most 65535 octets; two zero octets end a message |
| `WireFormat.SealedOctets` | neo4j/internal/propertyencryption/structure.go:28-124 | A sealed value of the implemented profile begins with 01 b8 65 88, ENVELOPE in ASCII, 01 |
| `WireFormat.OpenedOctets` | neo4j/internal/propertyencryption/structure.go:127-182 | Nothing opens that does not begin with 01 b8 65 or is of another profile |
| `WireFormat.PropertyTags` | neo4j/internal/propertyencryption/encode.go:285-367 | The tag letter and the number of fields of each property value written as a structure |
| `PropertyScheme.VersionOrder` | neo4j/internal/propertyencryption/scheme.go:71-85 | The version comparison is a total order |
| `PropertyScheme.BaselineUnique` | neo4j/internal/propertyencryption/encode.go:95-109 | The baseline of a set of types is determined by the table |
| `PropertyScheme.DayIsFloor` | neo4j/internal/propertyencryption/encode.go:285-296 | A date's day number is the floor, before 1970 too |
| `PropertyScheme.ListAccepted` | neo4j/internal/propertyencryption/encode.go:171-236 | A list is accepted exactly if it holds no null, list or vector, all types are permitted, and every two elements are of one type and, if points, of one SRID and dimension |
| `PropertyEncoder.Encoder.Accept` | neo4j/internal/propertyencryption/encode.go:95-109 | A permitted type raises the baseline to the greater of the two; any other is an error |
| `PropertyEncoder.Encoder.EncodeOne` | neo4j/internal/propertyencryption/encode.go:113-189 | Fails exactly if the value is not acceptable; otherwise appends its bytes, reports its kind and raises the baseline to the greatest of all types it contains |
| `PropertyEncoder.Encoder.EncodeList` | neo4j/internal/propertyencryption/encode.go:210-236 | The same for a list, which holds no null, list or vector and whose elements agree in type and coordinate system |
| `PropertyEncoder.Encode` | neo4j/internal/propertyencryption/encode.go:60-72 | Succeeds exactly on acceptable values whose lengths fit; the recorded baseline is the maximum over the types contained |
| `PropertyCodec.DecodeOne` | neo4j/internal/propertyencryption/decode.go:147-198 | Ends on any bytes; without an error there is a value and at least one byte was read |
| `PropertyCodec.DecodeUndoesEncode` | neo4j/internal/propertyencryption/decode.go:147-477 | An encoded value all of which the unpacker sees comes back, read to its end and no further, exactly if every type in it is known; otherwise the outcome is unsupported and nothing else |
| `PropertyCodec.LaterDriversDecode` | neo4j/internal/propertyencryption/decode.go:51-93 | Whatever a driver encodes into less than 4 GiB, it and every later one that keeps the rows and the major version decode to the same value; what takes more is never decoded |
| `PropertyCodec.AnyDriverDecodes` | neo4j/internal/propertyencryption/decode.go:51-144 | Under any other table and version the outcome is that value or an UnsupportedType, with the condition for each; again up to 4 GiB |
| `PropertyCodec.ProperPrefixFails` | neo4j/internal/propertyencryption/decode.go:147-251 | No proper beginning of an encoded value is decoded without an error |
| `PropertyCodec.ElementsBack` | neo4j/internal/propertyencryption/decode.go:467-477 | Vector elements of each of the six kinds come back |
| `PropertyCodec.BaselineIsRow` | neo4j/internal/propertyencryption/encode.go:82-109 | The recorded baseline is the table's version of one of the types contained |
| `PropertyCodec.ThisDriver` | neo4j/internal/propertyencryption/scheme.go:87-121 | The driver's own table meets what the two rows above ask of one, and so does its part for authenticated data |
| `Envelope.OneOrdering` | neo4j/internal/propertyencryption/structure.go:107-109 | The metadata's keys have one order, so the bytes are determined |
| `Envelope.EncodeEncrypted` | neo4j/internal/propertyencryption/structure.go:95-124 | Succeeds exactly if every entry is a string, bytes or an integer and all lengths fit, and then gives the specified bytes with the keys in order |
| `Envelope.EnvelopeRoundTrip` | neo4j/internal/propertyencryption/structure.go:127-182 | Opening a structure sealed into less than 4 GiB gives it back, metadata included, for the implemented profile, and for any other says which it is; what takes more is never opened |
| `Envelope.PrefixNotOpened` | neo4j/internal/propertyencryption/structure.go:137-182 | No proper beginning of a sealed structure is opened |
| `Envelope.MetadataBack` | neo4j/internal/propertyencryption/structure.go:184-215 | The metadata come back as the same map |
| `Envelope.DecodeListLoop` | neo4j/internal/propertyencryption/decode.go:200-217 | On any bytes the loop over a list's elements goes round at most once more than there are bytes left |
| `Envelope.MetadataLoop` | neo4j/internal/propertyencryption/structure.go:195-214 | The loop over the metadata's entries has the same bound |
| `Cache.StepExplained` | neo4j/internal/propertyencryption/cache.go:65-156 | Every operation at any later time leaves a cache whose entries are the last put, in order of use, and whose missing live keys were pushed out by at least maxSize others |
| `Cache.CacheTells` | neo4j/internal/propertyencryption/cache.go:65-156 | After any operations: the size is within bounds; what Get returns was put last under that key and is neither removed nor expired; a live unexpired key is missing only if at least maxSize distinct other keys were used since it was |
| `Cache.Cache.DoGet` | neo4j/internal/propertyencryption/cache.go:65-82 | Map and list agree and do what the recency list says |
| `Cache.Cache.DoPut` | neo4j/internal/propertyencryption/cache.go:85-101 | Map and list agree and do what the recency list says |
| `Cache.Cache.PurgeExpired` | neo4j/internal/propertyencryption/cache.go:132-140 | Exactly the expired entries go, order kept |
| `Cache.Cache.Evict` | neo4j/internal/propertyencryption/cache.go:143-147 | The least recently used go until the size fits |
| `Cache.Cache.DoRemove` | neo4j/internal/propertyencryption/cache.go:104-111 | The key goes from both |
| `Cache.Cache.DoClear` | neo4j/internal/propertyencryption/cache.go:114-120 | Both are empty |
| `KeyResolution.Profile.ResolveById` | neo4j/propertyencryption/encryption.go:389-409 | The answer is the repository's, or a failure because a service failed; both caches stay right |
| `KeyResolution.Profile.ResolveByAlias` | neo4j/propertyencryption/encryption.go:411-440 | The same by alias |
| `KeyResolution.Profile.Create` | neo4j/propertyencryption/encryption.go:471-500 | A new key is stored and cached, unless its alias is taken |
| `KeyResolution.Profile.SetAlias` | neo4j/propertyencryption/encryption.go:531-545 | The alias is moved and no cached mapping survives |
| `KeyResolution.Profile.DeleteById` | neo4j/propertyencryption/encryption.go:549-563 | The key is gone from the repository and from both caches |
| `KeyResolution.FreshIsUnique` | neo4j/propertyencryption/encryption.go:382-387 | The repository gives one answer to a reference |
| `KeyResolution.RunCalls` | neo4j/propertyencryption/encryption.go:382-563 | Over any sequence of resolving, creating, rebinding and deleting, every resolution answers as the repository would at that moment, whatever expired or was evicted |
| `KeyOverlap.NoteExact` | neo4j/propertyencryption/encryption.go:407-438 | In any state of overlapping calls, noting what was found leaves the caches sound exactly if the repository still has it, or a change under way has yet to take it out, or the cache has no room |
| `KeyOverlap.StepSound` | neo4j/propertyencryption/encryption.go:389-563 | Every other step of every call keeps each cached entry as in the repository or about to be taken out |
| `KeyOverlap.OverlapsStayRight` | neo4j/propertyencryption/encryption.go:389-563 | In every interleaving in which no alias is moved and no key deleted between a lookup that found it and its noting, a resolution with no change half done answers from the caches what the repository would |
| `KeyOverlap.NotedKeyAnswers` | neo4j/propertyencryption/encryption.go:389-409 | Whatever came between, the next caller by id is told what was noted, and that is fresh exactly if the repository still has that key |
| `KeyOverlap.NotedAliasAnswers` | neo4j/propertyencryption/encryption.go:411-440 | The next caller by alias likewise, exactly if the alias is still bound to that key |
| `KeyOverlap.DeletedKeyServed` | neo4j/propertyencryption/encryption.go:547-563 | For every key of every repository, the run in which it is looked up, deleted and then noted gives the next caller the deleted key |
| `KeyOverlap.UnboundAliasServed` | neo4j/propertyencryption/encryption.go:531-545 | For every alias of every repository, the run in which it is looked up, unbound and then noted gives the next caller a key no longer bound to it |
| `Retry.NextDelay` | neo4j/internal/retry/throttler.go:27-32 | The next delay is at least 1.8 and at most 2.2 times the last, up to one nanosecond |
| `Retry.State.OnFailure` | neo4j/internal/retry/state.go:52-67 | What is recorded of a failure; a commit lost with its connection becomes an error that is not retried |
| `Retry.State.Continue` | neo4j/internal/retry/state.go:69-124 | The first attempt exactly if the context is not done; another exactly if also the last error is one of connectivity or one the server calls retriable, the time and the allowed dead connections are not exceeded and no sleep was interrupted; at once after a dead connection, otherwise after the next delay |
| `Retry.RunRetriable` | neo4j/session.go:461-480 | It ends; at most one attempt beyond those allowed fails on a dead connection; the j-th sleep is at least 1.8^j first delays and all but the last fit the retry time together, so they are logarithmically few; every further attempt is paid for; nothing runs after a lost commit; every failure followed by another attempt is one of connectivity or retriable, and after such a one it gives up only when stopped, out of time or out of connections |
| `Retry.SleepsBounded` | neo4j/internal/retry/state.go:90-96 | n sleeps that fit the retry time have 1.8^n first delays within it |
| `Duration.SignTrick` | neo4j/dbtype/temporal.go:99-123 | For every int64, the shifting and flipping of its bits gives the number the branching version would |
| `Duration.DividedIs` | neo4j/dbtype/temporal.go:149-166 | The division loses nothing and every component is within its bounds |
| `Duration.Divide` | neo4j/dbtype/temporal.go:149-166 | The steps give that division with every intermediate result within 64 bits |
| `Duration.String` | neo4j/dbtype/temporal.go:126-209 | The method prints exactly the text the next row speaks of |
| `Duration.StringMeans` | neo4j/dbtype/temporal.go:125-209 | For all fields, the text read as ISO 8601 means exactly those months, days and nanoseconds, unless seconds and nanoseconds cancel out, when it is not a duration |
| `Duration.CancelsOut` | neo4j/dbtype/temporal.go:146-206 | Whenever they cancel out the text is that of the date followed by a bare `T` |
| `Duration.OneSecondLessItself` | neo4j/dbtype/temporal.go:146-206 | One second less a thousand million nanoseconds, for example |
| `Duration.PartsBack` | neo4j/dbtype/temporal.go:132-206 | Printed components are read back one by one |
| `Duration.FractionIs` | neo4j/dbtype/temporal.go:174-202 | Nine digits without trailing zeros still say the same nanoseconds |

## Left out

- Bolt 3, 4 and 6, the handshake, authentication, routing, telemetry and bookmarks: other copies of the machine, or content of messages that does not move streams.
- Consume and Buffer on a stream that is not current and has a PULL in flight: outside the claims about transactions, since they ask for it twice (BoltResults.SwitchAsksAgain).
- BoltTx.TransactionRuns: only runs in which nothing fails; what holds when something fails is BoltCalls.EveryRun and the rows after it.
- Bolt.Calls: stream keys taken from the clock are counters here, so two are never the same.
- Packing errors of values no protocol can carry, and reflection over Go types, structs and pointers.
- Pool: routing and health checks are outcomes; closing all servers in Pool.Close is one step per server, which allows more interleavings than the driver has.
- PoolWakeUps.NoWakeUpLost: one server, since Return wakes only the front waiter whatever it waits for, and a failed connect wakes nobody.
- PoolServer.Server.CalculatePenalty: the counter shared by all servers for taking turns is passed to and from RegisterBusy; its use by the health check is not modelled.
- Session.LiveSession: queries a transaction function runs are not in the log; calls made from inside a transaction function on the same session, and the fields of a result that do not concern connections.
- ReadAhead.EveryRun: one caller at a time, as the connection's owner guarantees.
- PackStreamBuffers.Unpacker.DoValue: a structure is its tag and its fields; turning them into nodes, paths or dates is not modelled, and a map is the list of its entries.
- PackStreamBuffers.Packer.PackValue: lengths and offsets only; the growth of Go slices is not modelled.
- PropertyCodec.DecodeOne: date-times with a named zone, whose table is not part of this model, are unsupported here; local times are taken without gaps of the local zone, and seconds beyond what Go's calendar holds are not wrapped.
- PropertyEncoder.Encoder.EncodeOne: 32-bit floats are taken as the 64-bit ones they widen to; named types and pointers are taken as what they stand for.
- AES-GCM, initialisation vectors and the key services: keys are compared, never used.
- Cache.StepExplained: the clock is read once for each operation; a list element and the map's entry for it are one object in the driver and two here that agree.
- KeyResolution.RunCalls: calls that do not overlap; those that do are the subject of KeyOverlap.
- PropertyCodec.LaterDriversDecode: buffers beyond 4 GiB whose length is within eight bytes below a multiple of it, where the unpacker's offsets can wrap around.
- Envelope.EnvelopeRoundTrip: the same buffers.
- PackStreamBuffers.PackThenUnpack: the same buffers.
- Retry.NextDelay: over real numbers, without the rounding of floats or the wrap-around of delays longer than 292 years.
- Duration.String: the other temporal types, whose text the standard library formats.
