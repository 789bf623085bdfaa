# A verified model of libfastpaxos

libfastpaxos is a small Fast Paxos. Proposers send values straight to the acceptors in their own low
ballots. A leader runs phase 1 ahead of time over a window of instances and then releases each instance,
either with an ANYVAL message ("vote for whatever comes first") or with an ACCEPT that carries a value some
acceptor reported. Acceptors vote and tell the learners, and learners deliver instance after instance as
soon as a quorum of acceptors voted in one ballot.

`dafny verify dfyconfig.toml` checks the whole project.

## Layout

| file | what it holds |
|---|---|
| `Common.dfy` | constants, messages, the quorum and how quorums intersect |
| `AcceptorRecord.dfy` | the rules for one acceptor record (prepare, accept, ANYVAL) and what every run of them keeps |
| `PromisePackets.dfy` | the acceptor's send buffer byte by byte, and the leader's walk over a promise packet |
| `Acceptor.dfy` | the acceptor class: array of records over a database, refining a plain map, and two runs of it |
| `AcceptorRuns.dfy` | runs of the array over the database: each vote that nothing replaced is brought back on request |
| `LearnerModel.dfy` | the learner over an unbounded map of instances, and what its runs keep |
| `Learner.dfy` | the learner class over its ring of records, refining that map |
| `LeaderModel.dfy` | the leader's handlers as functions of its state |
| `LeaderWindow.dfy` | the accounts and the bound of the phase 1 window, and the assertion in `phase2_check_cb` |
| `LeaderDecisions.dfy` | one backed decision per instance and ballot |
| `LeaderTargets.dfy` | which instance each decision goes out for |
| `LeaderRequests.dfy` | every pending instance was asked for, in the leader's own ballots, in packets that fit |
| `LeaderEmission.dfy` | the packets phase 2 sends are those decisions |
| `LeaderTraffic.dfy` | how wide the prepare packets of a leader are |
| `LeaderStray.dfy` | a run in which a leader's own wide packet leads it to decide a wrong instance |
| `LeaderStall.dfy` | an instance on which nothing moved between two ticks is asked for again |
| `LeaderCounts.dfy` | what the two counters of phase 1 count |
| `Leader.dfy` | the leader class over its ring of records |
| `Answers.dfy` | from requests over the acceptors' answers to decisions: quiet leaders decide the right instances |
| `Proposer.dfy` | the proposer: functions, runs and the class |
| `Node.dfy` | learner, proposer and leader of one process, coupled by the delivery callback |
| `Protocol.dfy` | one instance as a transition system: N acceptors, all leaders and proposers, a lossy network |
| `Agreement.dfy` | validity, recovery and agreement over all runs |
| `Disagreement.dfy` | the runs that break agreement and validity, and the exact conditions for them |
| `Recovery.dfy` | the runs that lose a unanimous choice, and the exact condition for it |
| `Owners.dfy` | in whose name a value is recovered and delivered |
| `Deployment.dfy` | the whole system: acceptors, leaders and proposers on one network of packets, over all instances |
| `Projection.dfy` | every run of the whole system is, instance by instance, a run of the protocol |
| `Eviction.dfy` | what an acceptor fetches from its database has been delivered, and with up to three acceptors holds a value |
| `Lifting.dfy` | every plain run of the protocol for instance 0 is realised by a run of the whole system |
| `SystemAgreement.dfy` | the exact condition for agreement of the whole system |

## How the pieces fit

Each role has its rules as functions. The classes do what the C does, in place, on arrays, and each method's
`ensures` says that the new state is the one the functions give. The theorems about runs are lemmas about
those functions. The transition system of `Protocol.dfy` is built from the same functions: an acceptor there
steps by `AcceptorRecord.Prepared`, `Accepted` and `Opened`, a leader by `LeaderModel.OpenedSlot`,
`Restarted`, `TakePromise`, `Choose` and `AcceptOf`. It knows one instance only; what the other instances do
to it are events of its own: an ANYVAL sent for the instance by mistake, a slot whose record of an earlier
instance may be in any state when the instance reaches it, a later instance that takes the slot, after which the
acceptor answers from its database, and a record that comes back from there with whatever any_enabled and
proposer memory held.

`Deployment.dfy` puts the roles together as they are: N acceptors with the arrays and databases of
`Acceptor.dfy`, leaders stepping by `LeaderWindow.Step` over their rings and packets, proposers stepping by
`ProposerModel.Step`. `Projection.RunsProject` proves that each of its runs, seen from any one instance, is a run
of `Protocol.dfy` under the same provisos, so that agreement and validity carry over to it
(`Projection.SystemAgrees`, `Projection.SystemIsValid`). `Lifting.PlainRunLifts` goes the other way, for runs of
instance 0 that need no other instance. A learner is not part of either system: it is a run of `LearnerModel`
over messages taken from the network in any order and number, which is what the ring class is proved to be.

## The main result

`Disagreement.AgreementIff`: for any number n >= 1 of acceptors, and learners with any ring that can deliver at
all, no run of the protocol makes two learners deliver different values for an instance **if and only if** no
ANYVAL is applied to a record that holds a value; any_enabled is not read as set for a record that comes back
from the database with a value; the database answers retransmission requests only for records that hold a value;
and, unless n is 1, such a request is answered only while the record's ballot is still its value's ballot, and n
is at most 3. The requirements come from the code:

* `apply_anyval` erases a held value (lib/acceptor.c:210-222), and the guard lets it through whenever the
  ballot is not below the record's. A duplicate of the ANYVAL that released the instance suffices.
  `AcceptorRecord.AnyvalKeepsValueIff` gives the exact guard for one record.
* `disk_lookup_record` leaves any_enabled of the record it allocates unset (lib/acceptor_disk_helpers.c:160-176),
  and `handle_accept` tests it (lib/acceptor.c:299).
* `handle_lsync` answers for any record the database has (lib/acceptor.c:342-352), also for one without a value.
  The learn then carries an empty value that nobody submitted: validity holds exactly without such answers
  (`Disagreement.ValidityIff`). `AcceptorCache.AnswersWithoutValue` is a run of the acceptor class that gives one.
* `send_learn_message` reports `rec->ballot` and not `rec->value_ballot` (lib/acceptor.c:235), so after a
  later prepare different fast values look like votes of one ballot.
  This happens even without any ACCEPT from a leader.
* `phase2_value` takes the report of the highest ballot (lib/leader.c:270-289). Fast ballots of different
  proposers are ordered by proposer id, not by choice, so this is right only where a quorum is everybody,
  which `1 + 2N/3` makes it for N = 1, 2 and 3. All configurations in the repository have N = 3.

The positive half is `Agreement.EndToEndAgreement`, lifted to whole delivery logs by `Agreement.LogsAgree`
and to the whole system by `Projection.SystemAgrees`. It covers any number of leaders and proposers with
distinct ids, and loss, duplication and reordering of messages. It needs no assumption about ballots being
monotone: a fast accept lowers an acceptor's ballot. Nor does it assume clean slots: with up to three acceptors
a leader's ACCEPT exists only once all of them have reached the instance, so a flag left over from an earlier
one does no harm (`Agreement.SmallRunIsGuarded`).

`SystemAgreement.SystemAgreementIff` is the same equivalence for the whole system, where the database does no
harm. How little is left of that proviso says `SystemAgreement.GroundedAgreementIff`: if leaders hear of
deliveries from learners only, and one and a half windows fit the acceptors' arrays, an acceptor goes to its
database only for instances that have been delivered (`Eviction.EvictedIsDelivered`). With up to three acceptors
all of them have voted for such an instance, so its record holds a value unless it was let be lost
(`Eviction.EvictedHoldsValue`), and the answers from the database are never empty (`Eviction.LsyncIsHeld`).

`Recovery.RecoversIff` is the same for the leader alone: for any number n >= 1 of acceptors, every leader
ACCEPT above a ballot that all acceptors voted in carries its value if and only if no ANYVAL is applied to a
record that holds a value, no record that holds one is fetched with any_enabled set, and n is at most 3. For more acceptors the one cause is any_enabled left set by an
earlier instance (lib/acceptor.c:99-113 and 270-275 do not reset it): without that,
`Agreement.RecoveryPreservesChoice` proves it for every n.

## Other places where the code does not do what it seems to promise

* The assertion in `phase2_check_cb` (lib/leader.c:451) fails when a second leader's instances overtake the
  first one's window. `LeaderWindow.CheckHoldsIff` and `Node.ProcessAbortsIff` say exactly when, for every
  configuration; `LeaderWindow.OvertakenLeaderAborts` gives the run.
* `execute_phase2` tests the status of a slot and not its instance (lib/leader.c:337-344), so an ANYVAL goes out
  for the first instance of the batch's range that shares the record's slot.
  `LeaderTargets.DecisionsAlignedIff` says exactly when all decisions of a promise packet go out for the right
  instances. The leader's own traffic can break it: `LeaderTraffic.TickIsNarrowIff` says exactly when a phase 1
  tick (lib/leader.c:172-197) sends a packet as wide as the ring, packet boundaries included. It does not unless
  one of the instances it opens takes the slot of a record that is still pending, and it does then whenever what
  it asks for fits one packet. `LeaderTraffic.CrowdingIsDelivered` says that such a record belongs to an instance
  already delivered, and `LeaderStray.WideRequest` and `LeaderStray.StrayDecision` give a run in which it happens.
  As long as it does not, every decision is for its own instance (`Answers.QuietRunsAlign`). A stray ANYVAL does
  not endanger agreement: the main result covers it.
* `handle_anyval` dereferences NULL for an instance below the slot's that was never written
  (lib/acceptor.c:415-420); the method reports this as `fault`, and `AcceptorCache.UnknownInstanceFaults` is a run
  that gets there.
* `proposer_deliver_callback` notes the instance just delivered as the last one sent for, but sets the timeout for
  the next (lib/proposer.c:111-121). So once another value was delivered in its place, no timeout ever makes the
  proposer send its accept again: `proposer_check_timeout` does so exactly if the timeout is the last one set and
  nothing was delivered since the submit (`ProposerModel.TimeoutResendsIff`); `ProposerModel.MovedIsNotResent` is a
  run in which it does not.

## Assumptions

Every handler runs to completion before the next starts; `proposer_submit_value` up to its wait and the
initialisation count as handlers. Allocation succeeds and the database is a map. Integers in the models are
unbounded, except in packets, where they are four-byte C ints. Instances are numbered from 0 and ballots are
not negative. Proposer ids are below MAX_PROPOSERS and distinct. The theorem about decisions
(`LeaderDecisions.OneBackedDecisionPerBallot`) is about promise batches none of which leaves the range from its
first to its last promise. That they ascend, and so do not, follows from the packets a leader sends
(`LeaderRequests.PendingMeansAsked`, `Answers.PacketsAnswer`).

## Model

| member | source | states |
|---|---|---|
| Disagreement.AgreementIff | lib/acceptor.c:210-364 | the exact condition, for every number of acceptors and every learner ring from two up, under which no two learners ever deliver different values for an instance, whatever stray ANYVALs are sent for it, whatever earlier instances left in its slots and whenever it is evicted and fetched back |
| Disagreement.ValidityIff | lib/acceptor.c:342-352 | a learner delivers only submitted values, in every run with any number of acceptors, exactly if the database answers only for records that hold a value |
| SystemAgreement.SystemAgreementIff | lib/acceptor.c:210-364 | the same condition for the whole system, any acceptor array and any window that fits the leaders' rings, where the two provisos about the database hold |
| SystemAgreement.GroundedAgreementIff | lib/acceptor.c:210-364 | where leaders hear of deliveries only from learners and one and a half windows fit the acceptors' arrays, the condition without the proviso about database answers |
| Projection.RunsProject | lib/acceptor.c:93-440 | every run of the whole system, over all instances, arrays, databases, rings and packets, is for each instance a run of the protocol that keeps the same provisos |
| Projection.OtherSlotStands | lib/acceptor.c:99-131 | what another instance does to the slot is for this one a reuse of the slot or its eviction |
| Lifting.PlainRunLifts | lib/leader.c:325-477 | every run of the protocol for instance 0 without stray messages or shared slots is realised by a run of the whole system that keeps the same provisos and delivers nothing |
| Eviction.EvictedIsDelivered | lib/leader.c:115-157 | if leaders hear of deliveries only from learners and one and a half windows fit the acceptors' arrays, an instance whose slot was taken has been delivered by a learner |
| Eviction.EvictedHoldsValue | lib/acceptor.c:342-352 | then, with up to three acceptors and values spared, the database has a value for it |
| Eviction.LsyncIsHeld | lib/acceptor.c:342-352 | so databases never answer without a value in such runs |
| Eviction.GroundedRunsAgree | lib/learner.c:144-157 | such runs agree, with values spared and, for more than one acceptor, lsync current |
| Eviction.GroundedRunsAreValid | lib/proposer.c:170-194 | and deliver only what clients submitted |
| Projection.SystemAgrees | lib/learner.c:144-157 | in every run of the whole system that keeps the provisos, with up to three acceptors, two learners deliver the same values in the same order as far as both have got |
| Projection.SystemIsValid | lib/proposer.c:170-194 | in every run of the whole system, with any number of acceptors, as long as databases answer only for records that hold a value, whatever is delivered was submitted by a client |
| Projection.LeaderStepStands | lib/leader.c:115-380 | every handler call of a leader over its ring is, seen from one instance, a run of that leader's record |
| Disagreement.AnyvalOverValueSplits | lib/acceptor.c:210-222 | if an ANYVAL may be applied over a held value, two learners can deliver different values, for any number of acceptors, in a run that lifts to the whole system |
| Disagreement.StaleLsyncSplits | lib/acceptor.c:228-243 | if lsync may be answered after a later prepare, two learners can deliver different values, for two acceptors or more, in a run that lifts to the whole system |
| Disagreement.EmptyLsyncSplits | lib/acceptor.c:342-352 | if the database may answer for a record without a value, two learners can deliver different values, for any number of acceptors |
| Disagreement.EmptyLsyncInvalid | lib/acceptor.c:342-352 | and a learner can deliver a value nobody submitted |
| Disagreement.FetchOverValueSplits | lib/acceptor_disk_helpers.c:142-179 | if any_enabled may be read as set for a record fetched with its value, two learners can deliver different values, for any number of acceptors |
| Disagreement.FourAcceptorsSplit | lib/leader.c:270-289 | with four acceptors or more, taking the report of the highest ballot can lose a chosen value even if all provisos are kept, in a run that lifts to the whole system |
| Disagreement.RecoverOne | lib/leader.c:270-319 | a leader whose quorum contains one vote of a higher fast ballot recovers that value |
| Disagreement.QuorumDelivers | lib/learner.c:160-221 | a learner that hears a quorum of one ballot from different acceptors delivers the value of the message that completed it |
| Agreement.EndToEndAgreement | lib/learner.c:160-196 | with up to three acceptors and all provisos, two learners fed from any run agree on the instance, stray ANYVALs, reused slots and records fetched from the database included |
| Agreement.OneAcceptorAgreement | lib/acceptor.c:245-268 | a single acceptor needs only that its value is spared and that its database does not answer without one |
| Agreement.LogsAgree | lib/learner.c:144-157 | the delivery logs of two learners carry the same values in the same order as far as both have got |
| Recovery.RecoversIff | lib/leader.c:270-319 | the exact condition, for every number of acceptors, under which every leader ACCEPT above a unanimous ballot carries its value |
| Recovery.RefetchedChoiceIsLost | lib/acceptor_disk_helpers.c:142-179 | if any_enabled may be read as set for a record fetched with its value, a leader recovers another value than a unanimous one |
| Recovery.LeftIsLeft | lib/acceptor.c:210-226 | the record that the next run finds in one slot is what ANYVAL for an earlier instance of that slot leaves there |
| Recovery.ErasedChoiceIsLost | lib/acceptor.c:210-222 | if an ANYVAL may be applied over a held value, a leader recovers another value than a unanimous one, for any number of acceptors |
| Recovery.LeftoverFlagsLoseChoice | lib/acceptor.c:270-275 | with four acceptors or more, any_enabled left set in one slot by an earlier instance lets a leader lose a unanimous choice even if all provisos are kept |
| Agreement.RecoveryPreservesChoice | lib/leader.c:270-319 | in every run that spares held values, of up to three acceptors or with no any_enabled left over in a slot, if all acceptors vote v in a ballot, every leader ACCEPT in a higher ballot carries v |
| Agreement.SmallRunIsGuarded | lib/leader.c:248-253 | with up to three acceptors, no leader ACCEPT exists while some acceptor has not reached the instance |
| Agreement.RecoveredIsChosen | lib/leader.c:270-319 | the same for any state with the safety invariant, by induction on ballots |
| Agreement.FastPathAgreement | lib/acceptor.c:253-264 | for any number of acceptors, if no leader ACCEPT is sent for the instance, learners agree on it |
| Agreement.Validity | lib/acceptor.c:325-364 | in every run, with any number of acceptors, in which the database answers only for records that hold a value, a delivered value was submitted by a proposer |
| Agreement.DeliveredOrEmpty | lib/acceptor.c:325-364 | in every run whatever, it was submitted or is empty |
| Agreement.RunsAreSafe | lib/acceptor.c:93-268 | the safety invariant over all runs in which no leader ACCEPT meets a slot with any_enabled left over: ANYVAL enabled only before the first vote, ballots rising from it on, promises bounding all votes below them, one accept per ballot, each backed by a report |
| Agreement.AllVotesAgree | lib/acceptor.c:253-268 | two ballots that every acceptor voted in have the same value |
| Agreement.DeliveredIsVotedByQuorum | lib/learner.c:160-196 | what a learner delivers was voted for by a quorum in one ballot |
| Owners.FastRecoveryNamesOwner | lib/leader.c:304-313 | in every run, with any number of acceptors, an ACCEPT that recovers a fast vote names a proposer that submitted its value for the instance |
| Owners.DeliveryNamesOwner | lib/leader.c:304-313 | while no leader has recovered a classic vote and no acceptor gone to its database, what a learner delivers it delivers in the name of a proposer that submitted it |
| Agreement.StepKeepsOnlySubmitted | lib/proposer.c:170-194 | no step puts a value into a record or message that no proposer submitted |
| Common.QuorumIsEverybody | lib/leader.c:484 | the quorum is the whole group exactly for one to three acceptors |
| Common.ThreeQuorumsIntersect | lib/learner.c:341 | any three quorums share an acceptor |
| Common.QuorumIsLeast | lib/learner.c:341 | one acceptor fewer would not do: there are then three groups of that size with nobody in common |
| AcceptorRecord.BallotsRiseAfterValue | lib/acceptor.c:117-127 | over any mix of events that spares held values, once a value is held neither ballot falls and the value's ballot is at most the promised one |
| AcceptorRecord.NoVoteBelowPromise | lib/acceptor.c:253-264 | a promise given while a value is held is never undercut by a later vote |
| AcceptorRecord.RunIsWellFormed | lib/acceptor.c:190-226 | ANYVAL is enabled only while no value is held |
| AcceptorRecord.AnyvalKeepsValueIff | lib/acceptor.c:394-403 | an ANYVAL leaves a held value in place exactly if its ballot is below the record's |
| AcceptorRecord.FastVoteCredit | lib/acceptor.c:253-280 | for a slot and any run, whatever instances pass through it, fast accepts taken plus the enabled bit never exceed the ANYVALs applied |
| AcceptorRecord.EnabledIff | lib/acceptor.c:190-280 | any_enabled is set exactly if an ANYVAL was applied to the slot and no accept for the instance in it was taken since |
| AcceptorCache.Acceptor.constructor | lib/acceptor.c:510-542 | an acceptor starts with its id, empty slots, an empty database and nothing sent |
| AcceptorCache.Acceptor.LookupRecord | lib/acceptor_disk_helpers.c:142-179 | the persisted fields come back; the others are arbitrary |
| AcceptorCache.Acceptor.UpdateRecord | lib/acceptor_disk_helpers.c:98-138 | the flattened record replaces what was stored for its instance and nothing else |
| AcceptorCache.Acceptor.HandlePrepare | lib/acceptor.c:93-161 | array and database together act, and promise, as the plain map does, and the slot as its record rule says |
| AcceptorCache.Acceptor.HandlePrepareBatch | lib/acceptor.c:163-188 | what the leader reads out of the packets sent is exactly the plain map's promises for the batch, in order |
| AcceptorCache.Acceptor.HandleAccept | lib/acceptor.c:245-323 | accepting, storing and the learn sent are those of the plain map |
| AcceptorCache.Acceptor.HandleLsync | lib/acceptor.c:325-364 | exactly which learn is sent, from memory and from the database, and that nothing else changes |
| AcceptorCache.AnswersWithoutValue | lib/acceptor.c:342-352 | a run of the class in which a vote is erased, its slot taken, and the answer from the database carries an empty value |
| AcceptorCache.UnknownInstanceFaults | lib/acceptor.c:415-420 | a run of the class that ends in the NULL dereference |
| AcceptorCache.Acceptor.HandleAnyval | lib/acceptor.c:374-440 | acts as the plain map does, or faults exactly for an unknown instance below the slot's |
| AcceptorCache.Acceptor.SendLearn | lib/acceptor.c:228-243 | the learn carries the record's ballot, value and proposer |
| AcceptorCache.PlainMapFollowsRecords | lib/acceptor.c:93-440 | on the plain map every instance behaves as one record kept for ever, under prepares, accepts and ANYVALs, and is answered from it |
| AcceptorRuns.EveryVoteIsAnswered | lib/acceptor.c:325-364 | in every run of an acceptor each vote that no later event replaced is answered on request by one learn with its instance and value, from its slot or from the database |
| AcceptorRuns.LsyncAnswersRecord | lib/acceptor.c:325-364 | a record of the plain map that holds a value is answered by one learn with that value and the record's ballot; nothing is answered exactly if there is no record, or if it is in its slot without a value |
| AcceptorRuns.AcceptAnswersVote | lib/acceptor.c:245-323 | an accept is answered by one learn with its own ballot, proposer and value, exactly if it is classic and not below what is on record, or any_enabled is set for an instance on record |
| AcceptorRuns.PrepareAnswersRecord | lib/acceptor.c:93-161 | a prepare is answered by what is on record for its instance, exactly if its ballot is higher or there is no record |
| AcceptorCache.PromisesAscend | lib/acceptor.c:175-179 | an ascending batch of prepares is answered by ascending promises |
| PromisePackets.PacketsAscend | lib/acceptor.c:163-188 | each of the packets they travel in holds an ascending part of them |
| Answers.PacketsAnswer | lib/acceptor.c:163-188 | each packet an acceptor sends in answer to an ascending request holds, ascending, promises for prepares of that request only |
| AcceptorCache.SlotDecides | lib/acceptor.c:97-131 | the slot's instance number tells whether an instance is in memory, on disk or new |
| AcceptorCache.PrepareInMemory | lib/acceptor.c:99-127 | the in-memory branches of handle_prepare and the plain map agree and keep the cache consistent |
| AcceptorCache.PrepareBehind | lib/acceptor.c:129-151 | so does the branch that goes to the database |
| AcceptorCache.AcceptInMemory | lib/acceptor.c:252-280 | the in-memory branches of handle_accept and the plain map agree and keep the cache consistent |
| AcceptorCache.AcceptBehind | lib/acceptor.c:282-312 | so does the branch that goes to the database |
| AcceptorCache.AnyvalInMemory | lib/acceptor.c:393-410 | the in-memory branches of handle_anyval and the plain map agree and keep the cache consistent |
| AcceptorCache.AnyvalBehind | lib/acceptor.c:422-429 | so does the branch that finds the instance in the database |
| PromisePackets.PacketRoundTrip | lib/acceptor.c:54-91 | the leader reads back from a packet exactly the promises the acceptor wrote, and its id |
| PromisePackets.PromiseBuffer.Add | lib/acceptor.c:54-91 | the promise goes behind the others, after a flush if it does not fit; what has been and will be read out grows by it; no packet exceeds the datagram size |
| PromisePackets.PromiseBuffer.Flush | lib/acceptor.c:40-52 | the packet sent is the encoding of the pending promises |
| PromisePackets.PromiseBuffer.Start | lib/acceptor.c:168-173 | an empty batch with its header |
| PromisePackets.ReadPromises | lib/leader.c:358-377 | the loop with its variable stride reads the promises laid out in the packet |
| LearnerModel.RunKeepsInv | lib/learner.c:160-221 | after any messages an open record has no quorum of any ballot, and a closed one is closed by a quorum that includes its value |
| LearnerModel.DeliversInOrder | lib/learner.c:144-157 | the deliveries are for instances 0, 1, 2, ... without gap or repeat, and the next instance is never left closed |
| LearnerModel.DeliverPrefix | lib/learner.c:144-157 | delivers exactly the maximal run of closed instances that follows |
| LearnerModel.Promptness | lib/learner.c:59-92 | each stored learn is the first of the highest ballot its acceptor offered since the record opened |
| LearnerModel.SeenIsHighest | lib/learner.c:199-201 | highest_seen is the highest instance of any message, or -1 |
| LearnerModel.RecordIsFoldOfOffers | lib/learner.c:96-141 | a record depends only on the messages that reached it in the window while it was open |
| LearnerModel.NewsIsStored | lib/learner.c:59-141 | a learn in the window, from a known acceptor and newer than its last one, is kept while its record is open |
| LearnerModel.OthersAreIgnored | lib/learner.c:59-141 | any other learn changes no record and delivers nothing |
| LearnerModel.DeliveryRestsOnQuorum | lib/learner.c:182-192 | a delivery rests on learns of one ballot from a quorum, one of them carrying its value |
| LearnerRing.Learner.constructor | lib/learner.c:30-32 | zeroed memory stands for the empty map |
| LearnerRing.Learner.HandleLearnMsg | lib/learner.c:198-221 | the ring takes a message, and delivers, exactly as the unbounded map does |
| LearnerRing.Learner.UpdateRecord | lib/learner.c:96-141 | which messages are relevant, and what the slot holds afterwards |
| LearnerRing.Learner.AddLearnToRecord | lib/learner.c:59-92 | a learn is stored if its acceptor is known and its ballot is news |
| LearnerRing.Learner.CheckQuorum | lib/learner.c:160-196 | closes the record exactly if a quorum of stored learns has the ballot |
| LearnerRing.Learner.DeliverValues | lib/learner.c:144-157 | the loop terminates and delivers the maximal closed run |
| LearnerRing.NextSlot | lib/learner.c:53-55 | testing only final_value, the loop never takes the value of another instance |
| LearnerRing.Learner.AskRetransmission | lib/learner.c:249-286 | the requests are exactly the unclosed instances between the watermarks, in packets within the datagram size of which all but the last are full |
| LearnerRing.MissingIsExact | lib/learner.c:259-278 | that list names each such instance once, ascending |
| LearnerRing.MissingTest | lib/learner.c:260-263 | the test is right even for instances beyond the ring's window |
| LeaderModel.Choose | lib/leader.c:270-289 | the earliest report of the highest ballot, or none exactly if nobody reports a value |
| LeaderRing.Leader.constructor | lib/leader.c:479-525 | the state after initialisation and the first phase 1 |
| LeaderRing.Leader.ExecutePhase1 | lib/leader.c:115-157 | the loop over the window refines the model's phase 1 |
| LeaderRing.Leader.Phase1Check | lib/leader.c:159-205 | the timer refines the model's restart and reopening |
| LeaderRing.Leader.HandlePromise | lib/leader.c:207-265 | the promise bookkeeping refines the model's |
| LeaderRing.Leader.Phase2Value | lib/leader.c:270-289 | the loop finds the model's choice |
| LeaderRing.Leader.ExecutePhase2 | lib/leader.c:325-356 | the loop over the batch refines the model's phase 2 |
| LeaderRing.Leader.HandlePromiseMsg | lib/leader.c:358-380 | the handler refines the model's |
| LeaderRing.Leader.Phase2Check | lib/leader.c:424-477 | the timer refines the model's, and aborts exactly if its assertion fails |
| LeaderWindow.WindowConservation | lib/leader.c:76-80 | in every run with in-order deliveries, pending + ready = last_to_check + 1 - current_iid, and at most one and a half windows are open |
| LeaderWindow.OpenFromOpens | lib/leader.c:121-143 | phase 1 opens exactly the instances above those already open, once each |
| LeaderWindow.TickRestartsPending | lib/leader.c:170-192 | a phase 1 tick moves every pending instance to its next ballot and leaves the others alone, unless a higher instance takes the slot |
| LeaderWindow.TickRefills | lib/leader.c:159-205 | a phase 1 tick leaves the window alone while half of it is open, and else opens all up to a window above the instance after highest_ready |
| LeaderWindow.PromisesKeepRange | lib/leader.c:252-263 | promises never widen the range the timer checks: what becomes ready is in it already |
| LeaderWindow.RestartFromRestarts | lib/leader.c:172-191 | the loop restarts each pending record of its range exactly once |
| LeaderWindow.NoLiveOverwrite | lib/leader.c:123-130 | if one and a half windows fit the ring, every open undelivered instance is still in its slot |
| LeaderWindow.CheckHoldsIff | lib/leader.c:450-451 | for every configuration, the assertion holds exactly if the current instance has been opened and its slot not taken, that is if something is pending or ready and it all fits the ring |
| LeaderWindow.OvertakenLeaderAborts | lib/leader.c:424-451 | a run in which the assertion fails |
| LeaderStall.StalledInstanceIsAskedAgain | lib/leader.c:424-477 | in every run, of two ticks of the second timer with no delivery between them the later puts the record of the instance due back to phase 1 in its next ballot, asks for it in one packet, and leaves every other record alone, unless the assertion fails |
| LeaderStall.StalledTickAsksAgain | lib/leader.c:450-475 | so does, in any state that keeps the accounts, a tick that finds the current instance where the last one noted it |
| LeaderStall.ProgressIsNoted | lib/leader.c:427 | a tick after progress sends nothing, changes no record, and notes the instance the next tick compares with |
| LeaderCounts.CountersAreExact | lib/leader.c:76-80 | in every run without a crowded tick pending_count is the number of pending records, and ready_count the rest of what is opened and not delivered |
| LeaderDecisions.OneBackedDecisionPerBallot | lib/leader.c:325-380 | in every run whose promise batches stay within their first and last instance, however wide, nothing stays ready and each instance gets at most one decision per ballot, taken on promises of a quorum of acceptors that were heard; what is still pending lacks a quorum |
| LeaderDecisions.HighestReadyIsHighestDecided | lib/leader.c:252-263 | between events highest_ready is the highest instance ever decided, or -1 |
| LeaderDecisions.DecideFromIsSound | lib/leader.c:336-350 | a pass over a range, however wide, leaves nothing ready and keeps decisions single and backed |
| LeaderTargets.DecisionsAlignedIff | lib/leader.c:336-344 | the decisions of a promise packet all go out for the instances of their records exactly if every record it makes ready without a value lies less than a ring above the packet's first instance |
| LeaderTargets.PacketDecides | lib/leader.c:325-380 | which decisions a promise packet adds: one for each record it makes ready, for the first instance of the range that has its slot, or for its own if it carries a value |
| LeaderTargets.NarrowRunsAlign | lib/leader.c:336-380 | in every run whose promise batches are narrower than the ring, every decision is for the instance of its record |
| LeaderTraffic.TickIsNarrowIff | lib/leader.c:97-205 | the prepare packets of a phase 1 tick are narrower than the ring exactly if the packet-sized pieces of what it asks for are; they are if no instance it opens takes the slot of a record still pending, and only then where all of it fits one packet |
| LeaderTraffic.RequestsAreNarrowIff | lib/leader.c:97-205 | all prepare packets of a run are narrower than the ring exactly if each tick asked in narrow pieces, for every configuration; that is so if no tick was crowded, and only then as long as each tick's requests fit one packet |
| LeaderTraffic.CrowdingIsDelivered | lib/leader.c:172-197 | if one and a half windows fit the ring, the record whose slot is taken belongs to an instance already delivered |
| LeaderStray.WideRequest | lib/leader.c:172-197 | a run in which a leader sends a prepare packet wider than its ring |
| LeaderStray.StrayDecision | lib/leader.c:336-344 | the answer to it, which reports the votes behind the deliveries, makes the leader send an ANYVAL for an instance whose record it no longer holds |
| Answers.QuietRunsAlign | lib/leader.c:159-380 | in every run without a crowded tick, whose promise packets answer the leader's requests or narrow ones of others, every decision is for the instance of its record |
| LeaderDecisions.TakePromiseIsBacked | lib/leader.c:229-253 | the promise count is the number of distinct acceptors whose promises were taken |
| LeaderDecisions.TakesWhatItWaitsFor | lib/leader.c:207-253 | a pending record takes the promise for its instance and ballot of an acceptor it has none of, and no other promise |
| LeaderRequests.PendingMeansAsked | lib/leader.c:97-113 | in every run each pending instance's prepare, in the ballot waited for, is on the network; every packet fits a datagram, every prepare packet ascends, no ANYVAL packet is empty, and prepares and ANYVALs are all in the leader's own ballots |
| LeaderRequests.PreparesAreFull | lib/leader.c:97-205 | of the packets that a phase 1 tick makes the leader send, all but the last, which may go out twice, have no room for another prepare |
| LeaderRequests.AnyvalsAreFull | lib/leader.c:291-356 | of the ANYVAL packets that one promise packet makes the leader send, all but the last have no room for another instance |
| LeaderRequests.Capacities | lib/leader.c:97-113 | a datagram takes 1123 prepares or 2246 instances of an ANYVAL, and no more |
| LeaderRequests.AcceptNamesOwner | lib/leader.c:304-313 | an ACCEPT for a fast report names the proposer whose fixed ballot that is, for every proposer, and for a classic report the leader whose ballot it is |
| LeaderRequests.BallotsAreDisjoint | lib/leader.c:72-73 | leaders with different ids never share a ballot |
| LeaderRequests.OwnBallotIff | lib/leader.c:72-73 | a leader's ballots are exactly the classic ones congruent to its id, and it starts with the lowest |
| LeaderEmission.PacketsAreDecisions | lib/leader.c:291-356 | in every run the ACCEPTs sent are the decisions taken with a value, one for one in order, and the ANYVAL packets list those taken without, part by part in order, each packet with the highest ballot of the decisions it lists |
| ProposerModel.OneAcceptPerInstance | lib/proposer.c:79-122 | all accepts a proposer ever sends for an instance are one message in its fixed ballot |
| ProposerModel.StepIsOrderly | lib/proposer.c:46-69 | while waiting the buffer is for the current instance, while idle everything sent is for earlier ones; the assertion fails exactly out of order |
| ProposerModel.WaitsIff | lib/proposer.c:79-122 | in every run of a proposer the client waits exactly if a submit was taken on and nothing in its proposer's name delivered since, and then the submitted value has been sent for the current instance |
| ProposerModel.IdleIsSilent | lib/proposer.c:79-122 | from when the client no longer waits until the next submit is taken on, nothing is sent |
| ProposerModel.TimeoutResendsIff | lib/proposer.c:46-69 | a timeout makes the proposer send its accept once more exactly if it is the last one set and nothing was delivered since the submit |
| ProposerModel.EveryAcceptSetsTimeout | lib/proposer.c:46-124 | every accept sent sets a timeout, for its instance |
| ProposerModel.MovedIsNotResent | lib/proposer.c:111-121 | a run in which the proposer waits and the timeout set for the current instance sends nothing |
| Node.ProcessStaysInStep | lib/proposer.c:79-91 | in every run of a process highest_delivered + 1 equals the proposer's and the leader's current instance, so the proposer's assertion never fails |
| Node.ProcessAbortsIff | lib/leader.c:450-451 | the only abort, and exactly when it happens |
| Node.LearnedStaysInStep | lib/proposer.c:79-91 | the callbacks of one learn message keep the three roles together |

## Left out

- Sockets, timers, threads, condition variables, logging, the test programs and scripts: messages and ticks arrive in any order instead.
- Interleavings inside `proposer_submit_value` and during initialisation: both are taken as atomic.
- Crash and restart: acceptors delete their database when they start, so the repository promises nothing across one.
- Berkeley DB and its errors: a map keyed by instance.
- `handle_batch_lsync` and `handle_batch_anyval`: plain loops over the handlers modelled.
- SystemAgreement.SystemAgreementIff: the two provisos about the database are assumed; that they are needed is proved for the protocol (`Disagreement.AgreementIff`), whose runs evict and fetch a record in one event each, not for the system, where a record is evicted only after a window's worth of instances.
- Recovery.RecoversIff: is about the protocol; its run with a leftover flag is not lifted to the system, since it needs as many instances as an acceptor's array has slots.
- Projection.RunsProject: in the system a leader may hear of deliveries in order at any time; that it hears of them from a learner is the condition `Grounded` of `Eviction.dfy`, needed only there. What a process's own learner has delivered is in `Node.dfy`.
- Agreement.RunsAreSafe: assumes that no leader ACCEPT is out while an acceptor's slot still serves an earlier instance with any_enabled set, because the invariant is false otherwise; `Agreement.SmallRunIsGuarded` discharges it for up to three acceptors, and `Recovery.LeftoverFlagsLoseChoice` shows what happens for more.
- Owners.DeliveryNamesOwner: leaves out runs in which an acceptor goes to its database, which does not keep the proposer, and runs that recover a classic vote, whose ACCEPT names the leader it came from.
- Who owns a value after repeated recovery, delivery of a client value at most once, and that resends get through: the code does not establish these.
- The client's own callback, invoked while it waits.
- The byte layout of packets other than promises.
- Overflow of ballots and instance numbers.
