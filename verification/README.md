# Stake-weighted reliable broadcast, verified

A Dafny model of the broadcast round of Unison and of the DAG chain above it: the
stake-weighted quorum (`dag/quorum`), the event loop that guards it and the round manager
(`rebro/gossip/internal/round`), the gossip handlers of a node (`rebro/gossip/process.go`), all
honest nodes together against Byzantine ones, and the chain and batch pool (`dag/chain.go`,
`bapl/mem.go`). `dafny verify dfyconfig.toml` checks everything.

## How it is built

| layer | as a value, with its laws | as the mutable object |
|---|---|---|
| stake, includers | `Stake` | `IncluderSet` |
| quorum and certificates | `QuorumSpec` | `DagQuorum` |
| round: subscriptions, completions, finalization | `RoundSpec` | `DagRound` |
| waiting channels, round manager | `Waiters`, `DagManager` | `WaiterTables`, `DagManager.Manager` |
| batch pool | `PoolSpec` | `BatchPool` |
| chain | `ChainRuns` | `DagChain` |

Every method of the objects above the last row is proved to do to the object's abstract value
what the function of the value layer does; the laws are proved about those functions. `RoundLaws`
and `PoolLaws` say by observation what every operation of a round and every use of the pool comes
to: what is held, who waits, what was sent to whom, what was logged. The chain's
methods are proved against the functions of `PoolSpec` and their own contracts; `ChainRuns` breaks
its cleanup into single deletions (`ChainRuns.DeletionsInOrder` joins the two), so that other
users of the pool can come in between. Concurrency is modelled by machines of labelled steps over
explicit state:

- `RoundRuns`: submitters, the event loop and the stopper of one round (channel of 32, drain, the
  gap between the drain's last look and the close of `closedCh`, canceled and repeated calls);
- `NodeRound`: one node's handlers in one round, over the operations of `RoundSpec`. A handler
  may be abandoned at any point, also between an operation's effect and its return. That an
  operation takes effect at one instant between its submission and its return is what
  `RoundRuns` proves;
- `BlockedLoop`: when that loop blocks for good;
- `Handlers`: that its handlers act on what their operations are told;
- `Delivery`: what a round of `NodeRound` comes to once no handler can move;
- `Finality`: what that says about completed certificates and finalization at other nodes;
- `Network`: any set of honest nodes, all rounds, the chain's height and last certificates, each
  node's batch pool, and a growing set of published gossip, to which anyone may add anything
  except a signature that verifies under the key of an honest node that did not make it;
- `NetworkTotality`: the theorems of `Finality` between nodes of one network run;
- `ChainRuns`: the chain's rounds interleaved with everyone else's use of the batch pool.

`Parents` relates the stake that finalizes a round to the stake behind the certificates it lists;
`Counterexamples` gives network runs, with all includers honest, in which they come apart and in
which finalization is not total.

## Hypotheses

- `Stake.ValidSet`: includer keys are distinct, stakes are non-negative, the total is at most
  `MaxStake`. All nodes use the same includers in a round.
- `Stake.FaultBound`: at most a third of the stake is not held by honest nodes.
- Decoding of ids and blocks, hashing and signature verification are functions of the bytes
  (`NodeRound.Env`). Honest signatures are not forged (`Network.NotForged`).
- `Network.CollisionFree`: no two published data have the same hash. Used for availability and
  for the blocks of the chain.
- `Delivery.ConflictFree`: no two addable messages delivered in a round share a hash. Needed
  because a certificate is identified by the hash of its data alone, not by round and producer;
  `Delivery.OrderIndependence` shows it is exactly what is needed there. What completes does not
  depend on it; where finalization does, a lemma says so.

## Where the code does not do what its documentation says

- `dag/README.md:15` promises that every round has blocks of producers with two thirds of the
  stake. The code adds a producer's stake for every certificate that completes, so one producer
  with two messages counts twice (`Counterexamples.OneProducerFinalizes`), and so does a
  certificate that completes, is deleted after a failed certification and completes again
  (`Counterexamples.RecountAfterDelete`). The promise holds if and only if the stake accumulated
  beyond the threshold covers what was counted again and what was lost
  (`Parents.ParentsAreQuorumExactly`, for every run `Network.ParentQuorumExactly`). Stake is counted
  again exactly when a certificate completes whose producer was credited before
  (`Parents.SigningCountsAgain`), and lost exactly when a producer's last completed certificate is
  deleted (`Parents.DeletingLoses`).
- Completed certificates are total: what one node completed, every settled clean node with its
  gossip has completed (`Finality.Totality`). Finalization is not, in two ways. A node that is final
  through a repeated completion need not be followed by one that got the same gossip
  (`Counterexamples.RecountAfterDelete`). And the gossip of a block is checked against its hash only,
  so anybody can publish its data once more under another includer's id; the id that comes first
  gets the credit, and the same gossip can leave one node final and another not
  (`Counterexamples.DataUnderTwoIds`). A node's gossip makes all that get it final if and only if
  the least stakes of those under whose ids the completed data is offered carry the threshold
  (`Finality.FinalizationForced`); whatever else is published, if and only if the least stakes of
  those under whose ids it could be offered do (`Finality.FinalizationForcedForGood`); and as long
  as no data comes under two ids, if and only if the messages with signatures of a quorum do
  (`Finality.TotalityExact`).
- `rebro/gossip/internal/round/round.go:57-73` promises that a stop ends once what was submitted has
  been executed. A get that is canceled after it was parked is executed again, and if an add
  completed it in between, its channel holds a completion; once its caller gives that up too, the
  loop blocks on it for good and no stop succeeds (`BlockedLoop.CanceledGetBlocksLoop`). A blocked
  loop can go on if and only if each full channel has a caller that waits at it or can still submit
  (`BlockedLoop.BlockedGoesOnExactly`).
- `rebro/api_certificate.go:22` calls the quorum certificate append-only until finalized. A step
  keeps it so if and only if it is not the deletion after a failed certification
  (`NodeRound.AppendOnly`). Deletion does not take back the stake it added.
- `bapl/mem.go:90-97` lets a caller of `Pull` leave that was already notified. If it is the last of
  an inner map that is out of the table, while others wait for the same batch anew, it removes them
  from the table, and they are never answered; exactly then, and never if it was not notified
  (`Waiters.LeaveKeepsReachable`, `Waiters.OnlyNotifiedTakeWakeups`,
  `ChainRuns.WakeupsLostOnlyByStealing`, `ChainRuns.StolenWakeupIsGone`,
  `ChainRuns.StealingHappens`). The round manager has the same code
  (`rebro/gossip/internal/round/manager.go:133-140`), but there it harms nobody: a round is started
  once, so nobody who waits anew would have been notified (`DagManager.EveryWaiterIsServed`).

## Model

| member | source | states |
|---|---|---|
| Stake.SafeAdd | dag/quorum/includer.go:127-134 | overflow is reported exactly when the exact sum is outside int64 |
| Stake.SafeAddClip | dag/quorum/includer.go:116-125 | the result is the int64 nearest to the exact sum |
| Stake.ClipIsNearest | dag/quorum/includer.go:116-125 | no int64 is nearer to a number than its clipped value |
| Stake.InclusionExclusion | dag/quorum/quorum.go:85-117 | the stakes of two key sets are those of their union and intersection |
| Stake.RequiredBounds | dag/quorum/quorum.go:115-117 | twice the total does not overflow; the threshold is at least one, attainable for a positive total, and the least integer above two thirds |
| Stake.QuorumIntersection | dag/quorum/quorum.go:115-117 | any two quorums share more than a third of the stake |
| Stake.HonestShare | dag/quorum/quorum.go:115-117 | the honest part of a quorum holds more than a third of the stake |
| Stake.HonestIntersection | dag/quorum/quorum.go:115-117 | any two quorums share an honest includer |
| IncluderSet.BeforeIsStrictTotal | dag/quorum/includer.go:105-110 | the sort order is a strict total order on keys and stakes |
| IncluderSet.SortedIsCanonical | dag/quorum/includer.go:52-56 | two sorted listings of the same includers are equal, whatever order they were given in |
| IncluderSet.SortedByStake | dag/quorum/includer.go:105-110 | a sorted listing has larger stakes first, and keys ascending among equal stakes |
| IncluderSet.CompareIsLexicographic | dag/quorum/includer.go:105-110 | keys compare by the first byte where they differ, a proper prefix being smaller |
| IncluderSet.Includers.constructor | dag/quorum/includer.go:52-56 | the given includers end up sorted in place and are a permutation of what was given |
| IncluderSet.Includers.Swap | dag/quorum/includer.go:112-114 | exchanges two includers and changes nothing else |
| IncluderSet.ClippedTotalExact | dag/quorum/includer.go:88-101 | for non-negative stakes the accumulation panics exactly when the exact total is above the maximum, and otherwise clips nothing |
| IncluderSet.Includers.GetByPubKey | dag/quorum/includer.go:72-79 | the first includer with the key, or none |
| IncluderSet.Includers.UpdateTotalStake | dag/quorum/includer.go:88-101 | panics exactly when the clipped running sum passes the maximum, leaving the cache alone, and otherwise caches that sum |
| IncluderSet.Includers.TotalStake | dag/quorum/includer.go:81-86 | the cached total if there is one, else the accumulated one or the panic; the exact total for a valid set |
| QuorumSpec.SignCertKeepsOk | dag/quorum/quorum.go:85-113 | a certificate's stake stays the exact, unclipped stake of its distinct signers, and it is completed exactly when these are a quorum |
| QuorumSpec.AddSignatureKeepsValid | dag/quorum/quorum.go:85-113 | the quorum's stake is the clipped sum over all completions, and every completion is that of one certificate still held or since deleted |
| QuorumSpec.AddKeepsValid | dag/quorum/quorum.go:30-47 | adding keeps the stake accounting |
| QuorumSpec.DeleteKeepsValid | dag/quorum/quorum.go:54-60 | deleting keeps the stake accounting; the stake is not taken back |
| QuorumSpec.DeleteUndoesAdd | dag/quorum/quorum.go:30-60 | a hash is refused while present, deletion restores the quorum exactly, and deleting the absent fails |
| QuorumSpec.CreditDeletedKeepsValid | dag/quorum/quorum.go:97-112 | completing a deleted certificate credits its producer's stake to the quorum, which keeps its accounting; signing it once it is complete changes nothing |
| QuorumSpec.EventSumMonotone | dag/quorum/quorum.go:109-111 | more completions weigh at least as much, in any order |
| DagQuorum.Certificate.AddSignature | dag/quorum/certificate.go:25-27 | on a certificate that is held, exactly the abstract signing of the quorum; on a deleted one, the abstract credit; all other certificates keep their state |
| DagQuorum.Quorum.constructor | dag/quorum/quorum.go:23-28 | the empty quorum |
| DagQuorum.Quorum.Add | dag/quorum/quorum.go:30-47 | the abstract add, with its two refusals |
| DagQuorum.Quorum.Get | dag/quorum/quorum.go:49-52 | the object held under the hash, or nothing |
| DagQuorum.Quorum.Delete | dag/quorum/quorum.go:54-60 | the abstract delete, reporting whether anything was there |
| DagQuorum.Quorum.List | dag/quorum/quorum.go:62-70 | exactly the completed certificates, each once |
| DagQuorum.Quorum.Finalize | dag/quorum/quorum.go:72-75 | whether the accumulated stake reaches the threshold |
| DagQuorum.Quorum.AddSignatureTo | dag/quorum/quorum.go:85-113 | the abstract signing, with refusals, stake, completion and the producer's credit |
| DagQuorum.Quorum.StakeRequired | dag/quorum/quorum.go:115-117 | the threshold, with no overflowing step |
| RoundSpec.DoOpKeepsOk | rebro/gossip/internal/round/round.go:100-238 | every operation keeps the quorum valid, waiters non-empty and only for absent certificates, and the finalization signal up exactly when the stake reaches the threshold |
| RoundSpec.FinalizationExact | rebro/gossip/internal/round/round.go:204-238 | after every run of operations finalization is exact, and it never goes away again, not even by deletion |
| RoundSpec.AddNotifiesWaiters | rebro/gossip/internal/round/round.go:100-125 | a successful add completes every waiter of its key with that certificate, nobody else, and forgets the waiters |
| RoundSpec.OpConservation | rebro/gossip/internal/round/round.go:148-174 | completions plus a pending wait never exceed the times an operation was processed, with equality for an operation processed once |
| RoundSpec.GetsAreServed | rebro/gossip/internal/round/round.go:100-174 | after every run a get operation processed once has been handed a certificate of its hash that was added, or there is none and it waits |
| RoundLaws.RefusedAdd | rebro/gossip/internal/round/round.go:100-105 | an add of no includer or of a taken hash is told just that error, in this order, and nothing else happens |
| RoundLaws.AcceptedAdd | rebro/gossip/internal/round/round.go:100-125 | any other add holds the message without signatures, tells it to exactly those who wait for its hash, who wait no more, and is told that it succeeded |
| RoundLaws.FoundGet | rebro/gossip/internal/round/round.go:148-153 | a get of a certificate that is there is told its message and changes nothing |
| RoundLaws.MissedGet | rebro/gossip/internal/round/round.go:155-174 | a get of a missing certificate waits and is told nothing; repeated, it is told that it is done and waits no more |
| RoundLaws.DeleteIsTold | rebro/gossip/internal/round/round.go:184-191 | exactly the certificate under the hash is gone, with stake, waiters and signal unchanged, and the answer says whether there was one |
| RoundLaws.RefusedSign | rebro/gossip/internal/round/round.go:204-214 | a signature for a missing certificate, of no includer or of one that signed is told just that error, in this order, and changes nothing |
| RoundLaws.AcceptedSign | rebro/gossip/internal/round/round.go:204-238 | any other signature is appended with its stake; reaching two thirds by it completes the certificate, credits its producer, and raises the signal if the accumulated stake is above two thirds |
| RoundLaws.QueueIsRun | rebro/gossip/internal/round/round.go:291-303 | draining a queue is executing each of its operations once, in order, after those executed before |
| RoundLaws.DrainedIsAnswered | rebro/gossip/internal/round/round.go:291-303 | an operation queued once has its one completion after the drain, or is a get that waits for a missing certificate |
| DagRound.Round.constructor | rebro/gossip/internal/round/round.go:43-55 | a round over the given quorum with no waiters, no completions and no signal |
| DagRound.Round.SetCertificate | rebro/gossip/internal/round/state_op.go:39-42 | one completion with the certificate, for this operation only |
| DagRound.Round.SetError | rebro/gossip/internal/round/state_op.go:46-49 | one completion with the error, for this operation only |
| DagRound.Round.StateAdd | rebro/gossip/internal/round/round.go:100-125 | the abstract add: refusal, or certificate, notified waiters and cleaned table |
| DagRound.Round.StateGet | rebro/gossip/internal/round/round.go:148-174 | the abstract get: certificate, subscription, or cancellation of the own subscription |
| DagRound.Round.StateDelete | rebro/gossip/internal/round/round.go:184-191 | the abstract delete and its error |
| DagRound.Round.StateAddSign | rebro/gossip/internal/round/round.go:204-238 | the abstract signing and its errors; the signal is raised when the quorum is final |
| DagRound.Round.Execute | rebro/gossip/internal/round/round.go:276-289 | one operation of the event loop |
| DagRound.Round.Drain | rebro/gossip/internal/round/round.go:291-303 | every queued operation is executed in order, as `RoundLaws.QueueIsRun` says, before the round is closed |
| RoundRuns.Linearizable | rebro/gossip/internal/round/round.go:243-313 | in every interleaving the round is what the executed operations give one at a time in channel order; a completed call returns one of its operation's sequential completions, and for an operation submitted once its only one, from an execution between its submission and its return |
| RoundRuns.RealTimeOrder | rebro/gossip/internal/round/round.go:243-260 | what returned before a submission was executed before it |
| RoundRuns.LoopBlocksOnlyOnResubmission | rebro/gossip/internal/round/state_op.go:33-49 | the loop waits for room in a completion channel only if some operation was submitted twice and a completion of it was not taken |
| BlockedLoop.BlockedGoesOnExactly | rebro/gossip/internal/round/round.go:243-313 | a blocked loop can go on, without a new call of an operation with a full channel, if and only if each full channel has a caller that waits at it or can still submit |
| BlockedLoop.StuckForGood | rebro/gossip/internal/round/round.go:57-73 | otherwise it never executes anything again and no stop succeeds |
| BlockedLoop.CanceledGetBlocksLoop | rebro/gossip/internal/round/round.go:127-146 | a run in which a canceled get blocks the loop for good |
| BlockedLoop.StopCanSucceed | rebro/gossip/internal/round/round.go:57-73 | from every point of a run in which no operation was submitted twice, the loop by itself can execute all that is queued, in order, and the stop succeed |
| RoundRuns.GracefulStop | rebro/gossip/internal/round/round.go:59-73 | from the drain's last look on, everything submitted until then was executed once in order and nothing changes the round any more; a successful stop implies this |
| RoundRuns.CanSubmit | rebro/gossip/internal/round/round.go:243-248 | a call can submit exactly while the channel of 32 has room, the operation in hand not counted |
| RoundRuns.StoppedCallsCanReturn | rebro/gossip/internal/round/round.go:243-260 | every pending call of a stopped round can return with the closed error |
| NodeRound.HistoryKept | rebro/gossip/process.go:33-96 | every certificate, its message and every signature on it come from delivered gossip that passed the checks |
| NodeRound.EvidenceKept | rebro/gossip/process.go:123-184 | every completion is backed by delivered data and delivered signatures of a quorum |
| NodeRound.OwnersKept | rebro/gossip/process.go:66-96 | a certificate has at most one handler that may sign or delete it; what was signed is still held with its own data, has none, and was signed once |
| Handlers.HandlersWereAccepted | rebro/gossip/process.go:66-98 | in every run of a node, who may certify, sign or delete was told that its add succeeded, and arriving data starts a handler exactly if its add is told so |
| Handlers.CanceledHandler | rebro/gossip/internal/round/round.go:133-144 | a canceled handler of a signature waits no more and is told so, and nobody else notices |
| NodeRound.AppendOnly | rebro/api_certificate.go:22-23 | a step keeps every certificate, its message and its signatures if and only if it is not the deletion after a failed certification |
| NodeRound.RunAppendOnly | rebro/gossip/process.go:79-92 | a run keeps them throughout if and only if it has no such deletion |
| Delivery.SettledIsCanonical | rebro/gossip/process.go:123-184 | once a clean run has settled, certificates, signers, stake, completion and finalization are read off the delivered gossip, parked signatures included |
| Delivery.OrderIndependence | rebro/gossip/internal/round/round.go:100-174 | for every set of gossip: all orders of delivery and of handler steps come to the same outcome if and only if no two addable messages share a hash |
| Finality.Totality | rebro/gossip/process.go:134-181 | every settled clean node with at least the gossip of a node in any run has completed all that it ever completed; it is final too if that gossip carries the threshold for good, or, while messages do not share hashes, if those completions, each counted once, do |
| Finality.FinalizationForced | dag/quorum/quorum.go:30-113 | for exactly some gossip, all orders of delivery end final if and only if the least stakes of those offering each completed hash carry the threshold |
| Finality.FinalizationForcedForGood | rebro/gossip/process.go:57-75 | all settled clean nodes with at least some gossip are final, whatever else they got, if and only if the least stakes of those under whose ids the completed hashes can be offered carry the threshold |
| Finality.AnyChoiceSettles | dag/quorum/quorum.go:30-47 | for every choice of one offering producer for each completed hash some order of delivery credits exactly these |
| Finality.SettledCompletes | rebro/gossip/internal/round/round.go:204-238 | while messages do not share hashes, a settled clean round has completed exactly the messages with signatures of a quorum and is final exactly when their producers carry the threshold |
| Finality.TotalityExact | rebro/gossip/process.go:134-181 | while messages do not share hashes, every settled clean node that gets at least some gossip is final if and only if the messages with signatures of a quorum in that gossip carry the threshold |
| Finality.FinalCountedOnce | rebro/gossip/internal/round/round.go:204-238 | a final round in which no hash completed twice meets that condition |
| Finality.CleanFinalCarries | rebro/gossip/internal/round/round.go:204-238 | so does every final round of a clean run |
| Finality.MonotoneInGossip | rebro/gossip/internal/round/round.go:204-238 | completed certificates grow with the set of delivered gossip, whatever it is; finalization does while messages do not share hashes |
| NetworkTotality.NetworkIsTotal | rebro/gossip/process.go:66-181 | the same between any two honest nodes, at any two points of a network run |
| Network.NetStepKeepsInv | rebro/gossip/process.go:33-184 | every step of anyone keeps every node's invariants, the chain's link to its last round, and that honest signatures are genuine |
| Network.SignsOnce | rebro/gossip/process.go:66-96 | an honest node signs each round and hash at most once in a run and still holds the very message it signed |
| Network.CertifiedAvailability | rebro/gossip/process.go:57-96 | a certificate completed at any honest node has honest attesters of more than a third of the stake that hash-checked, added, certified and signed the same bytes, still hold them, and whose pools have every listed batch or had it removed |
| Network.CertificatesIntersect | dag/quorum/quorum.go:85-117 | two certificates completed in a round, at any honest nodes and any two points of a run, share signers of more than a third of the stake and an honest node that attested both |
| Network.LastCertsParse | dag/chain.go:82-89 | with the fault bound in the round below, every certificate the chain builds on carries data that parses, so the panic is unreachable |
| Network.LastCertsRound | dag/chain.go:80-133 | every certificate the chain builds on is a completed one of the round below its height |
| Network.FinalRoundFinishes | dag/chain.go:115-134 | a final round can be stopped, and then the chain goes on to the next height, building on exactly the completed certificates |
| Network.ParentQuorum | dag/chain.go:80-133 | when no producer completed twice and nothing completed was deleted, parents are of the round below and come from distinct producers that are a quorum, and two honest nodes' parents, made at any two points of a run, share producers of more than a third of the stake |
| Network.ParentQuorumExactly | dag/chain.go:80-133 | in every run the parents of an honest block come from a quorum of producers if and only if the surplus of its round covers what was counted again and lost |
| Parents.StakeBehindParents | dag/quorum/quorum.go:62-75 | the accumulated stake is that of the listed producers, plus that of producers whose certificates were all deleted, plus what was counted again |
| Parents.ParentsCarryStake | dag/quorum/quorum.go:62-75 | listed producers carry the whole accumulated stake if and only if nothing with stake was lost or counted again |
| Parents.ParentsAreQuorum | dag/quorum/quorum.go:62-75 | with one completion per producer and no deletion, a final quorum lists distinct producers that are a quorum |
| Parents.ParentsAreQuorumExactly | dag/quorum/quorum.go:62-75 | the producers of the listed certificates are a quorum if and only if the stake beyond the threshold covers what was lost and counted again |
| Parents.SigningCountsAgain | dag/quorum/quorum.go:85-113 | a signature makes stake count again exactly when it completes a certificate whose producer, with stake, was credited before |
| Parents.DeletingLoses | dag/quorum/quorum.go:54-60 | a deletion loses a producer exactly when it removes its last completed certificate; adding loses nobody |
| Counterexamples.OneProducerFinalizes | dag/quorum/quorum.go:109-111 | a network run of honest nodes in which two messages of one producer finalize a round, with nothing deleted, although it lists no quorum of producers |
| Counterexamples.DataUnderTwoIds | rebro/gossip/process.go:57-75 | a network run of honest nodes in which data published under two ids leaves one node final and another, settled with the same gossip, not |
| Counterexamples.RecountAfterDelete | dag/quorum/quorum.go:54-60 | a network run of honest nodes in which a node is final because a deleted certificate completes again, while another with the same gossip has settled without being final |
| Waiters.NotifyKeepsOk | rebro/gossip/internal/round/manager.go:66-72 | every waiting channel gets at most one event, and only from a notification of its own key |
| Waiters.NotifyReachesAll | bapl/mem.go:55-61 | a notification reaches every waiter of its key that is still there |
| Waiters.LeaveKeepsReachable | bapl/mem.go:90-98 | leaving takes others' wake-up if and only if the leaver is the last of a notified inner map while its key has a new one |
| Waiters.LeavingNotifiedLosesWakeup | bapl/mem.go:90-98 | a waiter that leaves although it was notified can cost another its wake-up |
| Waiters.OnlyNotifiedTakeWakeups | bapl/mem.go:90-98 | who leaves before being notified takes no wake-up from others |
| Waiters.LeaverIsGone | bapl/mem.go:90-98 | who leaves is reached no more, nothing is sent, and those in its inner map or under other keys keep waiting |
| WaiterTables.WaiterTable.Notify | rebro/gossip/internal/round/manager.go:66-72 | one event for each waiter of the key, none for others, and the key is forgotten |
| DagManager.RunsKeepOk | rebro/gossip/internal/round/manager.go:56-143 | in every run rounds start in strictly increasing order, sit under their own number up to the latest, nobody waits for a round that is there, and a channel gets at most one event, a round only if it is the one asked for |
| DagManager.EveryWaiterIsServed | rebro/gossip/internal/round/manager.go:56-143 | in every run, whoever gives up and when: who waits for a round to come will be reached by its start, and who waited for a started round has been given exactly it |
| DagManager.RoundsAreHistory | rebro/gossip/internal/round/manager.go:56-99 | in every run a round is there exactly if it was started and not removed since, and is the very round of that start |
| DagManager.StartableExactly | rebro/gossip/internal/round/manager.go:60-63 | a round may be started exactly if its number is above zero and above all started before |
| DagManager.GetByHistory | rebro/gossip/internal/round/manager.go:104-125 | a lookup is refused exactly if a later round was started; otherwise it finds the round started and not removed since, or waits |
| DagManager.ParkedIsAnswered | rebro/gossip/internal/round/manager.go:104-143 | a started round is found and handed to parked callers; removal closes their channels; only rounds below the latest are elapsed |
| DagManager.Manager.StartRound | rebro/gossip/internal/round/manager.go:56-76 | refused exactly for a number not above the latest; otherwise the abstract start with a fresh round |
| DagManager.Manager.RemoveRound | rebro/gossip/internal/round/manager.go:93-99 | the round and its waiters are gone, all other rounds stay |
| DagManager.Manager.GetRound | rebro/gossip/internal/round/manager.go:104-125 | the abstract lookup: elapsed, found, or parked under a fresh channel |
| DagManager.Manager.CancelGet | rebro/gossip/internal/round/manager.go:133-141 | the caller leaves the inner map it joined |
| PoolSpec.RemoveKeepsOk | bapl/mem.go:124-135 | a batch is there exactly when its latest event is a push, and nobody waits for a batch that is there |
| PoolSpec.ParkedIsAnswered | bapl/mem.go:47-89 | a pushed batch can be pulled and is handed to parked callers; removal closes their channels |
| PoolSpec.BackOnlyByPush | bapl/mem.go:47-63 | what was removed and is there again was pushed in between |
| PoolLaws.PushIs | bapl/mem.go:47-63 | a push stores the batch under its hash with the time, gives it to exactly those who wait for it, and changes nothing else |
| PoolLaws.PullIs | bapl/mem.go:65-82 | a pull gives the batch that is there, or adds one waiter for just it, and changes no entry |
| PoolLaws.CancelIs | bapl/mem.go:90-98 | a canceled pull is reached no more, and no entry and no other wait changes |
| PoolLaws.RemoveIs | bapl/mem.go:124-135 | a removal takes out just that batch, is logged, and tells each of its waiters, once |
| PoolLaws.DeleteAllIs | bapl/mem.go:124-135 | deletions take out exactly the listed batches, are logged in order, and tell each waiter of one of them, once |
| PoolLaws.CollectAllIs | bapl/mem.go:143-154 | collections do the same |
| PoolSpec.UseKeepsReachable | bapl/mem.go:47-98 | while every waiter can be reached, exactly one kind of use of the pool ends it |
| PoolSpec.AnsweredIsKnown | bapl/mem.go:65-82 | a pull comes back only for a batch that is in the pool or was removed from it |
| BatchPool.MemPool.Push | bapl/mem.go:47-63 | the abstract push: entry, time and notified waiters |
| BatchPool.MemPool.Pull | bapl/mem.go:65-82 | the batch, or a fresh channel among the waiters of its hash |
| BatchPool.MemPool.Delete | bapl/mem.go:124-135 | the batch and its waiters are gone, nothing else |
| BatchPool.MemPool.ListBySigner | bapl/mem.go:102-122 | exactly the signer's batches, each once |
| BatchPool.MemPool.Gc | bapl/mem.go:143-154 | exactly the entries pushed more than sixty seconds before are gone, each once, the others unchanged, and exactly those who wait for one of them are told |
| DagChain.Chain.Cleanup | dag/chain.go:80-97 | the parents are the hashes of the last certificates in order; exactly the batches their blocks list are gone, deleted block by block in the order listed; the panic happens exactly at the first data that does not parse, after the earlier blocks' batches are gone |
| DagChain.Chain.Propose | dag/chain.go:99-118 | the own block lists every own batch once under the current height and these parents, and its id carries the hash of its bytes |
| DagChain.Chain.StartRound | dag/chain.go:80-134 | the own block lists, once each, exactly the own batches left by the cleanup and is broadcast under the current height and its hash; height and last certificates advance exactly when the broadcast succeeds, otherwise both stay for the retry |
| ChainRuns.BatchConservation | dag/chain.go:80-105 | a batch ever pushed is in the pool, or was last collected, or was last deleted because a block of some last certificates listed it |
| ChainRuns.RetiredOnlyIfPushedAgain | dag/chain.go:91-105 | a new own block lists a hash retired by the cleanup before it only if it was pushed again after that deletion |
| ChainRuns.RetiredIsHistory | dag/chain.go:91-96 | what is retired is exactly what the blocks of the last certificates of some cleanup so far list |
| ChainRuns.NewBlockAfterCleanup | dag/chain.go:80-105 | a new block lists exactly the own batches in the pool, after every batch listed by the last certificates was deleted in its cleanup |
| ChainRuns.HeightIsHistory | dag/chain.go:115-134 | the height is one above the broadcasts that succeeded, and the chain builds on what the last of them came to |
| ChainRuns.WakeupsLostOnlyByStealing | bapl/mem.go:90-98 | in every run all waiting callers stay in the table if and only if nobody left as the last of a notified inner map while others waited anew |
| ChainRuns.WaitersGetTheirBatch | bapl/mem.go:47-89 | in a run without that, a push answers every waiting caller with its batch, and nobody who stayed waits for a batch that is there |
| ChainRuns.StolenWakeupIsGone | bapl/mem.go:90-98 | after the first such step some caller is never answered |
| ChainRuns.StealingHappens | bapl/mem.go:90-98 | a run of five steps in which it happens |
| ChainRuns.DeletionsInOrder | dag/chain.go:91-96 | without interleaving, the single deletions come to the cleanup of the chain's method |
| Certifier.Certify | dag/certifier.go:23-52 | certified exactly when there is data, the id is valid, the block parses and every listed batch is in the pool or the wait for it came back; otherwise the first batch whose pull gave up is named, later ones are not pulled, and only the pool's waiters changed |
| Certifier.PullBatches | dag/certifier.go:43-48 | all pulls come back, each missing batch leaving a waiter, or the first that gives up is named and has left |
| Certifier.PullEachKeepsOk | dag/certifier.go:43-48 | pulling keeps the pool's invariant and adds one channel for each time a missing batch is listed |

## Left out

- libp2p, pubsub, streams, the multicast pool, bootstrap and the proof of concept: transport. Published gossip is a growing set that any node may be delivered from, any number of times.
- Cap'n Proto and the generated code: decoding is an abstract function of the bytes.
- ed25519 and the local signer: verification is an abstract function; unforgeability is a rule of the network machine.
- Contexts and clocks: cancellations, timeouts and collections may happen at any point.
- `Manager.Stop`: it takes the manager's lock and then calls `StopRound`, which takes it again.
- Two concurrent calls of `Round.Stop`: a single stopper is assumed.
- Freedom from leaks after a canceled `GetCertificate`: its repeated operation may subscribe instead, or bring a second completion; conservation is an inequality there.
- Liveness of waiters and of the chain: a caller parked for a skipped or stopped round waits until it is canceled, and a height whose broadcast failed after its round started is refused on the retry.
- `sort.Sort`: the sort of the includers is an insertion sort over `Less` and `Swap`; by `SortedIsCanonical` any sort has its result.
- `Includer.Validate`, `Includers.Validate` and nil includers: searches for a negative stake or a missing key. Key equality is equality of bytes.
- Operations as objects: a number stands for an operation, and its completions are kept in a table of the round; completions carry the certificate's message, not the object.
- The waiter tables' inner maps and channels are numbered for the same reason.
- Round numbers and heights are unbounded; they wrap in no run of realistic length.
- Signatures inside the own block, logging and timing.
- DagChain.Chain.StartRound: the broadcast is a parameter, and the wait for own batches is a result; the pool does not change under it, which `ChainRuns` covers.
- BatchPool.MemPool.ListBySigner: one pass; where it returns nothing the source waits for a push and looks again.
- Certifier.Certify: what a parked pull comes to is a parameter, and the pool does not change under it; `Network` lets anybody use the pools at any time.
- Waiters.NotifyReachesAll: only while every waiter can be reached; `Waiters.LeaveKeepsReachable` says exactly when that ends.
- `Block.Validate` (`dag/block/block.go:174-176`): it never fails.
