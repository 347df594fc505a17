# Avocado: a verified model of the replication protocol and its supporting code

Avocado is a replicated in-memory key-value store. Every server is both a replica and a
coordinator, and the servers that own a key run a multi-writer Attiya–Bar-Noy–Dolev protocol
over eRPC. This project models the logic of the server in Dafny and proves what it guarantees,
over all inputs and all runs. `dafny verify dfyconfig.toml` checks everything.

## How the model is organised

**The protocol** (`Abd*.dfy`, `Quorum.dfy`, `Store.dfy`, `Lamport.dfy`, `Node.dfy`). `Abd` is a
step machine. A step is one pass of a request handler or of a continuation, which the event loop
of a server runs to its end. The state holds the tables of all servers, all contexts
(`n_resp`, `n_msgs`, `done`, `cache`, and one slot for each request and its response) and the
operation counters. Requests may be handled late, in any order, or never. The assumption is that eRPC delivers a
request and runs a continuation at most once. Some fields are history that no step reads: the
clocks of all stores when a context was created, and what a continuation decided.

| file | what it adds |
|---|---|
| `Abd.dfy` | configuration, state, steps, runs |
| `AbdInvariant.dfy` | the invariant of contexts and stores, kept by every step |
| `AbdRegularity.dfy` | real-time order: what an operation that starts later must see |
| `AbdHistory.dfy` | rounds and operations, conservation of the counters |
| `AbdProvenance.dfy`, `AbdUniqueness.dfy` | where clocks and values come from, no clock twice |
| `AbdReach.dfy` | no reply, and no clock that a get selected, is ahead of all stores |
| `AbdTheorems.dfy` | the guarantees, stated on operations |
| `AbdValues.dfy` | when the value a get reports is right |
| `AbdJournal.dfy` | runs with their steps: what was asked for, what tables hold, what counters count |
| `AbdRuns.dfy` | building runs: a round that hears a chosen list of remotes |
| `AbdExactness.dfy` | for each promise, the condition under which no run breaks it, and a run that does otherwise |
| `AbdAgreement.dfy` | exactly when a clock stands for one value |
| `AbdCounterexamples.dfy` | runs that end in a wrapped or repeated clock |
| `Node.dfy` | starting operations, handlers and continuations as imperative code, proved to be the steps of `Abd` |

**The rest.** `Memtable` interleaves the threads of the lock-free put. `ReplicaContexts` follows
the ownership of contexts and buffers. `Triples`, `Groups` and `Deployment` show that servers which
compute their replica groups independently agree, which is what makes the quorum argument apply.
`Crc32c` proves the interleaved checksum against the bit-serial one, and `CrcRemainder` that this is the
remainder of the division by the generator polynomial. `Messages` covers encoding and
framing over any invertible cipher, `Zipf` the sampler over exact reals, and `Barrier` the end of
a benchmark run.

## What the code guarantees and what it does not

- A reported put is seen by every later get and put on its key, in every run, if and only if the
  number of owners is odd or at most two (`AbdExactness.ReportedPutsAreSeenExactly`), because the gate
  `2 * n_resp + 1 >= n_msgs` is a majority for those sizes only. The compiled mode SCALA
  (`src/include/protocol/abd/protocol.h:24-25`) gives every key three owners, so a deployment meets the
  condition (`Deployment.GroupsFormConfig`). Even groups arise only in a build without SCALA, where all
  servers own every key; there, with four or more servers of even number, a reported put can be missed.
- Gets are regular, not linearizable: a get is reported before its write-back is answered and the
  reader does not keep what it read. With three or more owners a later get can select a smaller clock
  than a reported one, and a later put can pick a smaller one; with two neither can
  (`AbdExactness.ReportedGetsAreSeenExactly`). The clocks that no later get can miss are exactly those
  whose holders meet every set that passes the gate (`AbdExactness.NeverMissedExactly`); a fully answered
  write-back gives that (`AbdTheorems.AnsweredGetIsSeen`).
- When a remote reply wins a get, the code reports and writes back the key field of a partly
  copied message instead of the value (`src/include/protocol/abd/protocol.h:526-529`). The
  model does the same. `AbdValues.ReportedValue` states exactly when the right value is reported, which
  all runs do only for keys with at most one owner (`AbdAgreement.ReportsRightExactly`), and
  `AbdAgreement.ValuesAgreeExactly` when a clock stands for one value in all runs: if and only if the key
  has at most two owners with different machine ids. So in the compiled groups of three it need not;
  there it does for a key as long as its write-backs carried the values they read, whatever happens to
  other keys (`AbdTheorems.EqualClocksEqualValues`).
- Puts on a key never share a clock, among the first 2^32 of them, if and only if its owners have
  different machine ids (`AbdExactness.ClocksDifferExactly`). The machine id is the last
  part of the host address (`src/server.cpp:291-298`), so two servers on one host do share it. The 2^32nd
  put wraps the counter and the next one repeats a clock (`AbdCounterexamples.CounterWraps`).
- The consensus shortcut of a get never applies with two or more remotes and always applies
  with one (`AbdTheorems.WriteBackUnlessSingleRemote`).
- The servers derive the same order of servers if and only if their names are consistent
  (`Groups.ViewsAgreeExactly`): for addresses of the form `ip:port`, if and only if none is a prefix of
  another (`Groups.ConsistentIffPrefixFree`). They act on the same groups if and only if their names are
  consistent or there are just three of them (`Deployment.GroupsAgreeExactly`); four servers of which two
  have the ports 1 and 10 on one host do not (`Deployment.PortsOneAndTen`). With fewer than three
  servers there is no group, and `get_idx` divides by zero
  (`src/include/protocol/abd/protocol.h:224-227`, `Deployment.SomeTriples`).
- A Zipf draw of exactly zero leaves the result of the search unset (`Zipf.Search`).

## Model

| member | source | states |
|---|---|---|
| Lamports.PackedOrder | src/include/protocol/abd/lamport.h:29-37 | The packed 64-bit comparison is the lexicographic total order on (count, machine id), unpacking undoes packing, and `min()` is the least clock |
| Quorum.PassingMeet | src/include/protocol/abd/protocol.h:426-442 | Two sets of servers that open the gate of an odd group (or one of at most two) share a server |
| Quorum.GateIntersectionIffMajority | src/include/protocol/abd/protocol.h:426-442 | Any two sets that open the gate intersect if and only if the group size is odd or at most two; for every even size of four or more, two disjoint sets pass |
| Store.PutNewerClock | src/memtables/memtable.cpp:9-19 | An atomic put lowers no clock, touches no other key, and leaves the larger of the two clocks |
| AbdInvariant.MaxCountIsMax | src/include/protocol/abd/protocol.h:452-465 | The fold of GetTime is the maximum of the local counter and all replies: an upper bound that is attained |
| AbdInvariant.NewestIsMax | src/include/protocol/abd/protocol.h:516-533 | The fold of RetValue yields the largest clock of the local entry and all replies, together with an entry that carries it |
| AbdInvariant.QuorumPasses | src/include/protocol/abd/protocol.h:425-442 | When a continuation body runs, the servers heard, with the coordinator, form a set that passes the gate of the owner group |
| AbdInvariant.GetTimeDecides | src/include/protocol/abd/protocol.h:447-486 | When a put picks its clock, the counter it found covers what every server of its quorum held when the put started |
| AbdInvariant.RetValueDecides | src/include/protocol/abd/protocol.h:501-533 | When a get selects its clock, that clock is at least what every server of its quorum held when the get started |
| AbdInvariant.StepInv | src/include/protocol/abd/protocol.h:360-563 | Every step of every handler and continuation keeps the invariant (cache = consumed replies, each remote once; `done` exactly when the gate has opened; stored clocks held by all servers that answered) and lowers no clock in any store |
| AbdInvariant.RunInv | src/include/protocol/abd/protocol.h:360-563 | The invariant holds in every state of every run |
| AbdInvariant.RunGrows | src/include/protocol/abd/protocol.h:374-386 | Between any two states of a run, no store's clock for any key decreases |
| AbdRegularity.RunPersists | src/include/protocol/abd/protocol.h:419-444 | Contexts never disappear or change their operation; once the body has run its outcome is fixed, whatever responses arrive late |
| AbdRegularity.BaseCovers | src/include/protocol/abd/protocol.h:280-300 | An operation that starts after a state begins from clocks at least as new as that state's |
| AbdRegularity.LaterOperationSees | src/include/protocol/abd/protocol.h:436-533 | A clock held by a set that must meet the quorum of a later operation is not missed: a get selects at least it, a put finds at least its counter |
| AbdRegularity.NewClockIsNewer | src/include/protocol/abd/protocol.h:473 | The clock `(max + 1, m_id)` exceeds a clock within `max` if and only if the 32-bit increment does not wrap or the wrapped clock still exceeds it |
| AbdRegularity.HoldersHold | src/include/protocol/abd/protocol.h:374-386 | Every server that has answered a PutReplica round, and a put's coordinator, holds at least its clock |
| AbdRegularity.CompletedPutIsHeld | src/include/protocol/abd/protocol.h:489-498 | When the second round of a put is done, the holders of its clock pass the gate |
| AbdRegularity.AnsweredWriteBackIsHeld | src/include/protocol/abd/protocol.h:545-557 | A write-back answered by all remotes is held by all of the group but the reader |
| AbdHistory.LinkedStep | src/include/protocol/abd/protocol.h:447-563 | Every step keeps the links between an operation and its rounds, and the list of reported operations stays without repeats and complete |
| AbdHistory.RunLinked | src/include/protocol/abd/protocol.h:447-563 | The same in every state of every run |
| AbdHistory.BalancedStep | src/include/protocol/abd/protocol.h:205-300 | Every step keeps: `current_traces` = rounds still owed = rate counter = acquired − released ≤ `max_request`, and released = put_ret + get_ret + skip_ret calls |
| AbdHistory.OwedIsUnfinished | src/include/protocol/abd/protocol.h:447-498 | Owed rounds and unreported operations correspond one to one |
| AbdHistory.RunBalanced | src/server.cpp:47-69 | In every state of every run `current_traces` and the rate counter of each server equal the number of its operations that have not been reported, and all its counters agree |
| AbdProvenance.SourcedStep | src/include/protocol/abd/protocol.h:360-563 | Every step keeps: each stored, in-flight or cached entry has the clock of a put on that key and, while the write-backs on that key are faithful, the value of that put |
| AbdProvenance.RunSourced | src/include/protocol/abd/protocol.h:360-563 | The same in every state of every run |
| AbdUniqueness.SeenBound | src/include/protocol/abd/protocol.h:452-465 | The largest counter a put can find is at most the number of clocks created for its key |
| AbdUniqueness.NewClockIsFresh | src/include/protocol/abd/protocol.h:447-486 | The clock that GetTime creates differs from every earlier one on the key, up to the 2^32nd, if the owners have distinct machine ids |
| AbdUniqueness.CountsStep | src/include/protocol/abd/protocol.h:447-486 | Every step keeps the counter bound and the uniqueness of clocks |
| AbdUniqueness.RunCounts | src/include/protocol/abd/protocol.h:452-473 | In every reachable state the count of every clock a put created is at most the number of GetTime steps on its key, and the clocks on a key are pairwise different up to 2^32 of them |
| AbdReach.ReachedStep | src/include/protocol/abd/protocol.h:360-563 | Every step keeps: a server holds at least every clock it has reported to a coordinator, and an owner holds at least the clock a get selected |
| AbdReach.RunReached | src/include/protocol/abd/protocol.h:360-563 | The same in every state of every run |
| AbdTheorems.FinishedPutIsHeld | src/include/protocol/abd/protocol.h:489-498 | A put reported by `put_ret` has a clock that a passing set of servers holds |
| AbdTheorems.HeldClockIsSeen | src/include/protocol/abd/protocol.h:436-533 | A clock held by servers that must meet every passing set is seen by every operation that starts later: gets select at least it, puts exceed it unless the counter wraps (exact condition) |
| AbdTheorems.CompletedPutIsSeen | src/include/protocol/abd/protocol.h:436-533 | In majority groups a put completed before another put on the key starts has the smaller clock, and a get that starts later selects at least its clock, whoever coordinates |
| AbdTheorems.AnsweredGetIsSeen | src/include/protocol/abd/protocol.h:545-557 | Once all remotes answered a get's write-back, every later get selects at least its clock and every later put a larger one, for groups of three or more of any parity |
| AbdTheorems.SelectedClockWasCreated | src/include/protocol/abd/protocol.h:389-407 | A get selects the minimal clock or one that a put on the same key created |
| AbdTheorems.PutClocksDiffer | src/include/protocol/abd/protocol.h:447-486 | With distinct machine ids of the owners no two puts on a key get the same clock, up to 2^32 clocks on that key |
| AbdTheorems.PresentCountBound | src/include/protocol/abd/protocol.h:452-473 | In every reachable state every clock that is stored or carried by a PutReplica round has a count of at most the number of GetTime steps on its key |
| AbdTheorems.ReplyCountBound | src/include/protocol/abd/protocol.h:360-407 | The same for every clock in an answer on its way to a coordinator or in a cache |
| AbdTheorems.EqualClocksEqualValues | src/include/protocol/abd/protocol.h:374-386 | While every write-back on the key carried the selected entry, whatever happens to other keys, its entries with equal clocks are equal in all stores and PutReplica messages |
| AbdTheorems.ReportedExactly | src/include/protocol/abd/protocol.h:489-498 | The reported operations are exactly the gets whose query is done and the puts whose second round is done |
| AbdTheorems.ReportedOnce | src/include/protocol/abd/protocol.h:419-444 | Over every run the list of reports only grows, has no repeats, and contains exactly the operations whose last round is done |
| AbdTheorems.QuietMeansFinished | src/include/protocol/abd/protocol.h:205-222 | When all answers have arrived every operation has been reported, `current_traces` and the rate counter are zero, and started = puts + gets + skips |
| AbdTheorems.VotesCount | src/include/protocol/abd/protocol.h:518-524 | The votes for a clock are the number of cached replies that carry it |
| AbdTheorems.VotesOfTwo | src/include/protocol/abd/protocol.h:518-524 | The votes of two different clocks add up to no more than the number of cached replies |
| AbdTheorems.ConsensusIsUnique | src/include/protocol/abd/protocol.h:535-543 | At most one clock can pass the consensus test |
| AbdTheorems.WriteBackUnlessSingleRemote | src/include/protocol/abd/protocol.h:535-557 | The gate opens with half of the remotes exactly, the test succeeds if and only if there is one remote, and a get writes back if and only if there are two or more and its span is not empty |
| AbdValues.CopySpan | src/include/protocol/abd/protocol.h:526-529 | The span that a winning remote reply yields, in closed form: the key field where the copy reaches, then what the buffer held, then zeros |
| AbdValues.LocalWinsIff | src/include/protocol/abd/protocol.h:516-533 | The local entry wins if and only if no reply has a larger clock |
| AbdValues.RemoteSpan | src/include/protocol/abd/protocol.h:516-533 | For any number of replies the span of a remote winner is the misread of its size over what earlier winners left in the buffer |
| AbdValues.RightSpanIff | src/include/protocol/abd/protocol.h:516-533 | The span is the winner's value if and only if the local entry wins or the value is that misread |
| AbdValues.ReportedValue | src/include/protocol/abd/protocol.h:501-563 | For all keys, group sizes and replies a get reports the value of the entry it selected if and only if the local entry is newest or the value is the misread, which is the key field for keys of eight bytes or more, and that of an empty buffer in groups of three |
| AbdValues.GetStaysFaithful | src/include/protocol/abd/protocol.h:545-557 | A get keeps the write-backs of a key faithful if and only if it is on another key, writes nothing back, or reported the value it selected |
| AbdValues.CopiedFromMessage | src/include/protocol/abd/protocol.h:526-528 | The copied bytes are the data part of the first `get_size()` bytes of the message |
| AbdValues.LeftOverRemains | src/include/protocol/abd/protocol.h:516-533 | The winner is the last reply that was ahead when it came; before it, each place of the buffer held the byte of the last earlier reply that was ahead and reaches that far, and nothing lay beyond the longest |
| AbdJournal.RunStarts | src/include/protocol/abd/protocol.h:280-300 | Over every run the queries are, in order, exactly the puts and gets that the steps started on owners, with the server, key and value they were given |
| AbdJournal.OperationWasStarted | src/include/protocol/abd/protocol.h:280-300 | Every put was started with its key and value, every get with its key, on its server |
| AbdJournal.PresentWasGiven | src/include/protocol/abd/protocol.h:374-386 | Under faithful write-backs on the key every value that is stored or carried was given by a client to a put on this key |
| AbdJournal.ReportedValueWasGiven | src/include/protocol/abd/protocol.h:501-563 | Under faithful write-backs on its key a get whose own report is right returns a value that a client gave to a put on this key, or nothing with the minimal clock |
| AbdJournal.RunWritten | src/include/protocol/abd/protocol.h:360-568 | Over every run each entry of a table is what a PutReplica round brought that the server has answered as a remote, or what a put of its own created; nothing else changes a table |
| AbdJournal.TableIsNewest | src/include/protocol/abd/protocol.h:360-568 | In every reachable state the entry of a server is the newest of those |
| AbdJournal.OverIsFinished | src/include/protocol/abd/protocol.h:489-498 | Last rounds that are over and reported operations correspond one to one, for puts and for gets |
| AbdJournal.RunCalls | src/server.cpp:383-398 | Over every run each server has called `put_ret` once for every reported put of its own, `get_ret` once for every reported get, `skip_ret` once for every start on a key it does not own, and acquired once for every start |
| AbdValues.PutRunsAgree | src/include/protocol/abd/protocol.h:447-486 | On a key that no get has been started on, entries with equal clocks are equal in all stores and messages |
| AbdRuns.HandleAll | src/include/protocol/abd/protocol.h:360-407 | From every state of a run, any list of remotes with open requests can answer a round, in that order, with the stated effect on their tables |
| AbdRuns.Pass | src/include/protocol/abd/protocol.h:419-444 | Any list of answers that first opens the gate can be taken in that order, and the continuation body then runs on exactly these |
| AbdExactness.LackingIsMissed | src/include/protocol/abd/protocol.h:501-563 | If enough owners of a key lack a clock to open the gate among themselves, the run can go on so that a later get selects a smaller one |
| AbdExactness.NeverMissedExactly | src/include/protocol/abd/protocol.h:436-563 | After any run, for groups of every size, no continuation has a later get that misses a clock if and only if its holders meet every set that passes the gate |
| AbdExactness.PutInHalf | src/include/protocol/abd/protocol.h:447-498 | A smallest passing set can complete a put of which the rest of the group knows nothing |
| AbdExactness.ReportedPutsAreSeenExactly | src/include/protocol/abd/protocol.h:436 | Over all runs, later gets select at least the clock of every reported put, and later puts a larger one (below 2^32), if and only if the group size is odd or at most two |
| AbdExactness.ReportedGetsAreSeenExactly | src/include/protocol/abd/protocol.h:545-563 | Over all runs, later gets select at least the clock of every reported get, and later puts a larger one (below 2^32), if and only if the key has at most two owners |
| AbdExactness.ClocksDifferExactly | src/include/protocol/abd/protocol.h:447-486 | Over all runs, the first 2^32 puts on a key have different clocks if and only if its owners have different machine ids |
| AbdAgreement.NoWriteBackRun | src/include/protocol/abd/protocol.h:535-557 | In no run does a get on a key with at most two owners write back |
| AbdAgreement.ValuesMayDiverge | src/include/protocol/abd/protocol.h:526-529 | In every group of three or more, for every owner, key and value other than the misread, a run of one put and one get leaves two values under one clock |
| AbdAgreement.ValuesAgreeExactly | src/include/protocol/abd/protocol.h:447-563 | Over all runs with at most 2^32 clocks on the key, a clock stands for one value in all stores and messages if and only if the key has at most two owners and these have different machine ids |
| AbdAgreement.ReportsRightExactly | src/include/protocol/abd/protocol.h:501-563 | Over all runs every reported get has reported the value of the entry it selected if and only if the key has at most one owner |
| AbdCounterexamples.ManyPuts | src/include/protocol/abd/protocol.h:447-498 | In every group of two or more and for every n below 2^32 there is a run in which an owner completes n puts on a key, the last with the count n |
| AbdCounterexamples.CounterWraps | src/include/protocol/abd/protocol.h:473 | In every group of two or more, the 2^32nd put can get a clock smaller than that of the put completed before it, and the next put the same clock again, whatever the machine ids |
| Node.Node.Put | src/memtables/memtable.cpp:9-19 | `put` keeps the newer entry and returns true if and only if the table changed |
| Node.Node.ReduceCount | src/include/protocol/abd/protocol.h:452-465 | The reduce loop computes the fold whose maximality `MaxCountIsMax` states |
| Node.Node.GetTime | src/include/protocol/abd/protocol.h:447-486 | The continuation creates the clock of the machine's GetTime step and stores the entry locally |
| Node.Node.ReduceNewest | src/include/protocol/abd/protocol.h:516-533 | The reduce loop computes the newest clock with its span, and the vote map holds the exact number of replies for each clock |
| Node.Node.HasConsensus | src/include/protocol/abd/protocol.h:535-543 | The search over the vote map finds a clock with more than half of the votes if and only if there is one |
| Node.Node.RetValue | src/include/protocol/abd/protocol.h:501-563 | The continuation reports the newest span, writes back as the machine does, and ends the operation once |
| Node.Node.Launch | src/include/protocol/abd/protocol.h:244-300 | Starting an operation is exactly the start step of the machine, whatever the other servers do: a new round to the remotes, or a skip |
| Node.Node.Serve | src/include/protocol/abd/protocol.h:360-407 | Dispatching a request to its handler is exactly the handling step of the machine |
| Node.Node.Body | src/include/protocol/abd/protocol.h:446-567 | The continuation body that the round calls for leaves the server, the context, the message sent and the report of the machine's step |
| Node.Node.ReqConts | src/include/protocol/abd/protocol.h:418-444 | Caching, counting, the gate, `done` and the body together are exactly the machine's step in which the coordinator takes a reply: nothing but this server, this context, at most one new round and at most one report changes |
| Memtable.StepInv | src/memtables/memtable.cpp:9-19 | Under any interleaving installed clocks increase strictly, `put` returns true exactly when its entry was installed, and returned clocks are covered |
| Memtable.StepRefines | src/memtables/memtable.cpp:9-19 | Every step is invisible to the register or is the whole atomic put of one thread with the result that thread returns |
| Memtable.Linearizes | src/memtables/memtable.cpp:9-19 | After every schedule the register is what the atomic puts leave in the order in which the threads returned |
| Memtable.CurrentNeverDecreases | src/memtables/memtable.cpp:15-18 | No step lowers the stored clock |
| Memtable.FailureIsPaid | src/memtables/memtable.cpp:17 | A compare-and-swap that fails for a changed pointer is paid for by another thread's install of a strictly larger clock |
| Memtable.FailuresArePaid | src/memtables/memtable.cpp:16-17 | Under every schedule the failures of a thread are at most the installs since its load |
| Memtable.RetriesAreBounded | src/memtables/memtable.cpp:17 | With n threads a thread sees fewer than n non-spurious failures, under every schedule |
| Memtable.ThreadCanStep | src/memtables/memtable.cpp:9-19 | Until it has returned, a thread has a step other than a spurious failure |
| Memtable.EndsAtMaximum | src/memtables/memtable.cpp:9-19 | When all have returned, the stored clock is the maximum of all attempted ones and exactly the installed puts returned true |
| ReplicaContexts.ReplicaContext.Send | src/include/protocol/abd/replica_context.h:121-126 | Allocates one request and one response buffer and one reference for every remote, and nothing else |
| ReplicaContexts.ReplicaContext.Continue | src/include/protocol/abd/protocol.h:419-444 | One continuation: the gate lets exactly the first opening through, precisely this node's buffers and reference go, the context stays alive while a node is outstanding |
| ReplicaContexts.ReplicaContext.Arrive | src/include/protocol/abd/replica_context.h:201-208 | The response moves to the cache, which holds each arrived response once; `done` is set exactly when the gate is open |
| ReplicaContexts.ReplicaContext.Remove | src/include/protocol/abd/replica_context.h:41-49 | Frees the request once and drops the reference; the last one destroys the context |
| ReplicaContexts.ReplicaContext.Destroy | src/include/protocol/abd/replica_context.h:107-111 | The destructor frees exactly the buffers the context still owns |
| ReplicaContexts.ReplicaContext.Release | src/include/protocol/abd/replica_context.h:113-119 | The creator's reference goes; buffers are freed only if it was the last |
| ReplicaContexts.RunAll | src/include/protocol/abd/protocol.h:419-444 | For every order of the outstanding continuations the body runs at most once more, all owned buffers are freed once and the context is gone |
| ReplicaContexts.Round | src/include/protocol/abd/replica_context.h:35-70 | A whole round, in any order of continuations: the body runs exactly once, the context is gone at the end and the buffers in use are those from before |
| Triples.AllTriples | src/server.cpp:591-612 | The loops enumerate every triple of positions exactly once in lexicographic order, n(n-1)(n-2)/6 in all, (n-1)(n-2)/2 through any given position |
| Triples.Permutations | src/server.cpp:589-612 | The nested loops emit one entry for each triple of that enumeration, in its order |
| Triples.MarkedOnce | src/server.cpp:597-609 | Two triples with this server and equal entries are equal |
| Triples.PermutationsCount | src/server.cpp:589-612 | The result has n(n-1)(n-2)/6 entries, exactly (n-1)(n-2)/2 flagged, no flagged entry twice |
| Groups.LexIsByteOrder | src/server.cpp:580-585 | The comparison is the order of the bytes at the first difference, with a proper prefix first |
| Groups.LexIgnoresSuffix | src/server.cpp:580-585 | Strings that are not prefixes of each other compare alike whatever is appended |
| Groups.SpellingDoesNotMatter | src/server.cpp:572-585 | Under consistent names, every server's spelling orders two servers as their bare addresses do |
| Groups.ConsistentIffPrefixFree | src/server.cpp:572-585 | For addresses that extend each other by digits only and suffixes that start with a colon, names are consistent if and only if no address is a prefix of another |
| Groups.SortedUnique | src/server.cpp:585 | Two sorted lists of the same servers are equal |
| Groups.ViewsAgree | src/server.cpp:569-585 | All servers derive the same order of servers from their own lists |
| Groups.ViewsAgreeExactly | src/server.cpp:569-585 | All servers derive the same order if and only if, wherever one address extends another, the shorter one's suffix sorts before the extension |
| Groups.ViewExists | src/server.cpp:569-585 | Every server that spells all servers differently can do both sorts |
| Groups.ViewsExistExactly | src/server.cpp:569-585 | All servers can do both sorts with a definite result if and only if nobody spells two servers alike |
| Groups.ConsistentSpellable | src/server.cpp:572-585 | With consistent names nobody spells two servers alike |
| Groups.PortsSpellable | src/server.cpp:572-585 | With different addresses of the form `ip:port` nobody spells two servers alike, consistent or not |
| Groups.ChoiceNamesTheOthers | src/server.cpp:594-609 | An entry is flagged if and only if this server is in the triple; its indices are ordered and within `replica_info`, name exactly the two others if it is flagged and the first two otherwise |
| Groups.ReplicaOrdering | src/include/protocol/abd/protocol.h:152-162 | The loop builds one list of remotes for each group, empty where this server is no member |
| Groups.GetIdxReads | src/include/protocol/abd/protocol.h:225-240 | The group index of a key is the number in its last eight bytes modulo the number of groups, for shorter keys that in the last four, two or one |
| Deployment.SomeTriples | src/server.cpp:589-612 | There are groups if and only if there are at least three servers |
| Deployment.RemotesFollowOrder | src/include/protocol/abd/protocol.h:242-264 | The remotes a server contacts for a key are the other two of the three servers its own order selects, and nobody if it is not one of them |
| Deployment.SameOrder | src/server.cpp:589-612 | With four or more servers, two servers that act on the same groups have the same order of all servers |
| Deployment.GroupsAgreeExactly | src/server.cpp:569-617 | All servers act on the same groups of three if and only if there are just three servers or the names are consistent |
| Deployment.StartupExists | src/server.cpp:569-617 | Any three or more servers that spell each other differently can start |
| Deployment.PortPrefixDisagrees | src/server.cpp:569-617 | Four or more servers of which one has the port of another with more digits on the same host do start, and act on different groups |
| Deployment.PortsOneAndTen | src/server.cpp:569-617 | There is such a deployment of four servers |
| Deployment.GroupsFormConfig | src/server.cpp:569-617 | Then the independently computed groups form a valid configuration with three owners for each key, so the majority theorems apply |
| Deployment.DeployedPutIsSeen | src/include/protocol/abd/protocol.h:436-533 | End to end: on such servers a completed put is seen by every later operation on its key |
| Crc32c.ShiftLinear | src/include/crypt/crc32.h:50 | One shift of the register is linear over exclusive or |
| Crc32c.FoldLinear | src/include/crypt/crc32.h:66-73 | A difference in the register passes through a message as through as many zero bits |
| Crc32c.TableExists | src/include/crypt/crc32.h:51-52 | Tables that advance single bytes over SIZE zero bytes exist for every size |
| Crc32c.ShiftTableAdvances | src/include/crypt/crc32.h:56-58 | The four lookups of `shift` advance any register over SIZE zero bytes, given tables that do so for single bytes |
| Crc32c.Join | src/include/crypt/crc32.h:74-75 | Shifting one stream and adding the next equals running through both serially |
| Crc32c.CrcUnaligned | src/include/crypt/crc32.h:81-90 | The bytewise loop computes the serial register of the bytes it consumed and stops where its test says |
| Crc32c.Streams | src/include/crypt/crc32.h:63-73 | The interleaved loop computes the serial registers of three consecutive blocks |
| Crc32c.CrcAligned | src/include/crypt/crc32.h:60-79 | The block loop computes the serial register of what it consumed and leaves less than three blocks |
| Crc32c.Checksum | src/include/crypt/crc32.h:101-122 | For every buffer, alignment, length and starting value the result is the bit-serial checksum, whose meaning `CrcRemainder.ChecksumIsRemainder` states |
| Crc32c.CrcChains | src/include/crypt/crc32.h:101-122 | Checksumming a concatenation is chaining the two checksums |
| CrcRemainder.RemainderDivides | src/include/crypt/crc32.h:50 | Long division of polynomials over {0, 1} yields a quotient and a remainder of degree less than 32 |
| CrcRemainder.RemainderIsUnique | src/include/crypt/crc32.h:50 | There is one such quotient and remainder |
| CrcRemainder.PolyIsGenerator | src/include/crypt/crc32.h:50 | The reflected constant is the generator 0x11EDC6F41 of section 12.1 of RFC 3720 |
| CrcRemainder.BitsOfMessage | src/include/crypt/crc32.h:66-73 | The bits of a message are those of its bytes in order, the lowest bit of each byte first |
| CrcRemainder.ChecksumIsRemainder | src/include/crypt/crc32.h:101-122 | The checksum of every message is the inverted remainder of its bits, the first 32 inverted and 32 zeros appended, in the division by the generator |
| CrcRemainder.CheckValue | src/include/crypt/crc32.h:101-122 | The checksum of the characters 123456789 is 0xe3069283 |
| Encoding.ClockRoundTrip | src/include/protocol/abd/key_access.h:26-31 | The eight bytes of a clock read back as its count and machine id |
| Messages.ImageReads | src/include/protocol/abd/msg.h:36-72 | From a built message the accessors read its key field, value and sizes, empty ones too |
| Messages.LayoutExample | src/include/protocol/abd/msg.h:14-22 | Clocks and messages on the wire, byte by byte |
| Messages.MsgBuilder.constructor | src/include/protocol/abd/msg.h:81-85 | A new builder holds the empty message in a buffer of the requested size |
| Messages.MsgBuilder.AddKey | src/include/protocol/abd/msg.h:87-94 | `add_key` writes behind the key field, raises both sizes and changes no other byte |
| Messages.MsgBuilder.AddValue | src/include/protocol/abd/msg.h:96-102 | `add_value` writes behind the message, raises the total size and changes no other byte |
| Messages.BuildPut | src/include/protocol/abd/protocol.h:470-478 | Building a PutReplica message stays inside the allocated buffer, fills it, and leaves the message of key, clock and value |
| Messages.Encrypt | src/include/crypt/release/encrypt_package.h:139-162 | The frame is IV, data, MAC and fills the buffer of `get_buffer_size`, although sixteen bytes of IV are stored for a twelve-byte field |
| Messages.FrameRoundTrip | src/include/crypt/release/encrypt_package.h:101-162 | A frame is 28 bytes longer than its message and starts with the IV, and unframing it gives the message back |
| Messages.PutReplicaRoundTrip | src/include/protocol/abd/protocol.h:374-382 | For all keys, clocks and values, build, frame, unframe and parse is the identity |
| Zipf.Table | src/generate_traces.cpp:92-102 | The table is a strictly increasing distribution from 0 to 1 in which each index has its share of the total weight |
| Zipf.Search | src/generate_traces.cpp:107-122 | The search terminates, never reads the unset last slot, and for every draw assigns the index with sum[i-1] < z <= sum[i]; it assigns none if and only if z is zero |
| Zipf.DrawIsUnique | src/generate_traces.cpp:113-116 | That index is unique |
| Barrier.StepCounted | src/server.cpp:412-437 | Every step keeps the two counters equal to the number of peers heard and of peers that acknowledged |
| Barrier.StepHonest | src/include/protocol/abd/protocol.h:409-432 | Every step keeps: DONE is heard only from drained servers, acknowledgements come only from servers that heard us |
| Barrier.RunRecorded | src/server.cpp:412-437 | Over every run the trace counter of a server is the number of operations it has begun and not ended, it has heard DONE and acknowledgements from exactly the senders of the handled messages, and its phase follows its own steps |
| Barrier.LeavesLast | src/server.cpp:466-478 | A server that left the final wait was told DONE by every peer, every peer has drained and has acknowledged this server's DONE |
| Barrier.LeavesWhenAllHaveDrained | src/server.cpp:466-478 | Once a server has left, it and every peer have ended every operation they began, and DONE has gone both ways and been acknowledged |
| Barrier.NobodyIsStranded | src/server.cpp:475-478 | Although a server that left answers nothing more, a state in which nothing but a new operation can happen is one where all have left |

## Left out

- eRPC, DPDK, folly's skip list, the slab allocator, OpenSSL and CityHash: the network is a set of slots, the skip list an atomic insert-or-find, the cipher any invertible one; a failed decryption is not modelled.
- IV generation and the 128-bit compare-and-swap (`src/include/utils/utility.h`): inline assembly that no claim depends on; the IV is a parameter.
- `src/include/store.h` and `src/include/list.h`: not used by the server.
- The Put and Get handlers for external clients (`src/include/protocol/abd/protocol.h:329-358`): operations start as in the compiled benchmark mode; these handlers would decrement a trace counter they never incremented.
- Several threads per server and an allocation that stalls and re-enters the event loop (`src/include/protocol/abd/rpc_context.h:20-30`): a handler or continuation is one step.
- How a machine id is derived from the address: the id of each server is a parameter of the configuration.
- AbdTheorems.EqualClocksEqualValues: asks for faithful write-backs on the key; without them `AbdAgreement.ValuesAgreeExactly` states when the claim holds, and `AbdValues.GetStaysFaithful` with `AbdValues.ReportedValue` what keeps them.
- Abd.CopyReply: messages are taken to fit `max_package_size`.
- AbdExactness.NeverMissedExactly: asks that the owners' rate limiters let them start an operation, since otherwise no later get needs to exist.
- AbdTheorems.QuietMeansFinished: says what holds once all answers have arrived; that they arrive is up to the network, and no liveness is claimed.
- The loop of `RateLimit::aquire`: one step that is enabled below the limit; `n_aquire` is counted when the step happens, not when the wait begins.
- Groups.GetIdx: for the empty key the source reads one byte outside of the key; the model takes index zero.
- Deployment.GroupsAgreeExactly: the number of groups is taken to fit 64 bits, as a `size_t` must.
- Groups.ViewsAgree: `std::sort` is taken by its result, a sorted list of the same elements. Servers that somebody spells alike, whose order it leaves open, are not covered; addresses of the form `ip:port` never are (`Groups.PortsSpellable`).
- Crc32c.Checksum: the contents of the two tables are not in the repository; that they hold single bytes advanced over SIZE zero bytes is a hypothesis (`IsTable`), which can be met (`Crc32c.TableExists`). The buffer is a sequence with a start address.
- Zipf.Table: exact reals; rounding of floating point and `n_keys` below two are not modelled.
- Barrier.LeavesLast: one thread per server; the last pass of the event loop after the wait is not modelled.
- `True_if_time`, statistics, timing, command line, configuration scripts, `create_allocator.cpp`, `copy_utility.c`, `hash_openssl.h`: unused, input/output, or easy members only.
