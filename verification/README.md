# Replicated settlement and fraud pipeline: a verified model

The project models three parts of the system and proves what each is for.

**The Raft cluster.** `RaftStep` states what one call into a node does, as functions on values: the
new node and the envelopes it sends. `RaftNodeObject.RaftNode` is the node as the mutable object it
is, over `RaftStorage.InMemoryStorage` and `LedgerObject.LedgerStateMachine`; each of its methods is
proved to do what the step function of the same name does to its snapshot and to send the same
envelopes in the same order. `RaftCluster` runs any number of nodes: a step ticks a node, proposes a
command to it, delivers to it any envelope that was ever sent to it (so loss, duplication, delay and
reordering are all covered), or crashes and restarts it over its term, vote, log and ledger. A killed
node is one that takes no step for a while. Clock values and random timeouts are arbitrary inputs of
each step, so nothing proved depends on time.

The proofs rest on a history (`RaftHistory`): per term the leader and its log, which only grows; the
votes; each candidate's log; and how much of each leader's log each node has acknowledged.
The central invariant says of a leader's log that every entry an earlier leader wrote in its own term
is either in it or blocked: a majority has left that term without acknowledging the entry, so it can
never be committed. `RaftActions` proves it for each way the history grows, `RaftElectionSteps` and
`RaftReplicationSteps` for each handler, `RaftCluster` for every step of a cluster, and
`RaftRunTheorems`, `RaftLeadership`, `RaftBacktracking`, `RaftPreVoteContainment`,
`RaftPreVoteRounds` and `RaftDisruption` state the consequences on the states of a run alone.
`RaftVoteRules`, `RaftVoteCounting` and `RaftAcknowledgements` state the other side, what the protocol
must do rather than must not: who is asked and answered what, exactly which votes and acknowledgements
are counted, and what is sent, in terms of the states and messages of a run only. References are to Ongaro and Ousterhout, "In Search of an Understandable
Consensus Algorithm (Extended Version)", sections 5.2 to 5.4 and Figure 2, and to section 9.6 of
Ongaro's dissertation for PreVote.

**The replicated ledger.** `LedgerModel` is idempotent application with overdraft rejection,
`LedgerProofs` what it promises over command sequences, and `RaftApply` joins it to replication: a
restarted node replays its log over a ledger that already holds it, and the ledger stays a fold of a
prefix of the one agreed sequence.

**The at-least-once stream.** `StreamModel` interleaves the single steps of any number of workers:
fetch the committed offset, read, put one record, commit it. Any worker may work on any partition at
any time, which covers every rebalance, two owners at once, refused puts, and crashes between any two
steps. `StreamProofs` proves delivery and order over all runs; `FraudWorkers` holds the broker and
worker objects, whose cycle is proved to be such steps. `ConsumerGroups` and `VelocityWindow` cover
the partition assignment and the fraud scorer's sliding window.

Conventions: money and clocks are reals; a deadline of plus or minus infinity is `None`; a random
timeout drawn several times in one call appears once, as its last value, because earlier ones are
overwritten; committed offsets are kept per group and partition as nested maps. Handlers of
AppendEntries expect a non-negative previous index, because truncation raises on a non-positive one;
`RaftRunTheorems.SentAppendsAreSound` proves it of every message any run ever sends. A node's methods
take acknowledgements from its peers only, which the same lemma covers.

Where the code and its comments or documentation differ, the model follows the code:

- A follower bounds its new commit index by its last index (raft/node.py:219), not by the last new
  entry as Figure 2 does. On every delivery of every run the two agree
  (`RaftRunTheorems.FollowerCommitIsFigure2`).
- An open prevote round is said to go stale on hearing from a leader (raft/node.py:233-236). It ends
  exactly when that leader's term is newer (`RaftPreVoteContainment.OnlyNewerTermEndsRound`).
- A reconnecting node is said to be unable to disrupt a healthy leader (README.md:58,
  raft/node.py:139-144). It can. Three runs of any three nodes show it, in each of which a majority
  counts the leader as active up to the step that unseats it. A leader never refreshes its own record
  of leader contact, so it may itself grant the prevote
  (`RaftUnseating.HealthyLeaderUnseatedByOwnGrant`). A grant is not tied to the round or term it was
  given in, so an old one that arrives late counts in a later round, even for a node whose log lacks a
  committed entry (`RaftUnseating.HealthyLeaderUnseatedByLateGrant`). And a node that stood before the
  leader reached a majority comes back in a later term and unseats it by merely answering a heartbeat
  (`RaftUnseating.HealthyLeaderUnseatedByReconnection`). What holds, for any cluster and run: a leader
  is unseated exactly by a restart or by a message of a later term other than a prevote request
  (`RaftLeadership.UnseatedExactly`). If its term is the largest in the cluster, some node must first
  stand (`RaftDisruption.UnseatedOnlyByStanding`), and a node stands exactly when it and the voters of
  the grants delivered since its round opened are a majority
  (`RaftPreVoteRounds.StandsExactlyOnMajority`). So a leader of the largest term is safe while every
  open round is harmless (`RaftDisruption.LeaderIsSafe`): too few peers have a grant under way or give
  one (`RaftPreVoteRounds.RoundIsHarmless`). Before a round opens that can be told from the grants
  under way and from the peers that have reached the asked term, have committed what the node lacks, or
  are in contact with a leader and stay so (`RaftPreVoteRounds.ProtectedRound`).
- The velocity window is exact only for arrivals in clock order. For an arrival that is not itself
  late the count is never too low, and it is right exactly when no arrival that is stale by now came
  after one that is not (`VelocityWindow.CountIsRightExactly`); a late arrival can be counted too low
  (`VelocityWindow.LateArrivalUndercounts`).

## Model

| member | source | states |
|---|---|---|
| RaftRunTheorems.ElectionSafety | raft/node.py:153-333 | Two nodes that lead the same term at any two moments of a run, crashes included, are the same node, and one of the two logs is a prefix of the other. |
| RaftRunTheorems.LogMatching | raft/node.py:184-216 | Logs of any two nodes at any two moments that share an index and a term agree on everything up to it; an entry's index is its position and terms never fall along a log. |
| RaftRunTheorems.LogMatchesMessages | raft/node.py:375-388 | A log that shares an entry's index and term with an AppendEntries ever sent holds all earlier entries of the message and the entry they follow. |
| RaftRunTheorems.LeaderCompleteness | raft/node.py:337-349 | What any node counts as committed is, entry for entry, in the log of every leader of every later term, at every moment it leads. |
| RaftRunTheorems.StateMachineSafety | raft/node.py:337-356 | Two nodes whose commit indexes both reach n, at any two moments, hold the same first n entries. |
| RaftRunTheorems.OneAgreedHistory | coordinator/raft_cluster.py:68-74 | A run has one agreed log: every node's committed entries are always a prefix of it, and every ledger is the initial one after a prefix of it at least as long as the node has applied. |
| RaftRunTheorems.ReplicasConserveMoney | settlement/ledger_state_machine.py:48-68 | A run has one agreed sequence such that on every replica at every moment each balance is the initial one plus the deltas of the distinct accepted entries of a prefix of it, and is never negative if it started non-negative. |
| RaftRunTheorems.ReplicasAgreeOnResults | settlement/ledger_state_machine.py:50-68 | Any two replicas at any two moments that both remember an entry id remember the same result for it. |
| RaftRunTheorems.AppliedCommittedStored | raft/node.py:351-356 | In every state last applied equals commit index, which is within the log, so the entry looked up on applying exists. |
| RaftRunTheorems.CommitIndexNeverFalls | raft/node.py:218-220 | Between any two moments without a restart of the node in between, its commit index never falls. |
| RaftRunTheorems.CommittedEntriesAreDurable | raft/node.py:204-216 | No committed entry is ever truncated or rewritten in the node's log, through later leaders, crashes and restarts. |
| RaftRunTheorems.SentAppendsAreSound | raft/node.py:375-388 | Every AppendEntries ever sent has a non-negative previous index and a commit index covered by its own entries; senders and recipients are distinct members. |
| RaftRunTheorems.FollowerCommitIsFigure2 | raft/node.py:218-219 | On every delivery the follower's commit index becomes what Figure 2's rule gives, and a rejection leaves it alone. |
| RaftRunTheorems.AckSoundness | raft/node.py:253-271 | A leader's next index stays in 1 to last index + 1, its match index within its log, and a peer still in its term agrees with it up to the match index, whatever stale or duplicated replies came. |
| RaftLeadership.MatchIndexOnlyGrows | raft/node.py:260-264 | Between any two moments at which a node leads the same term, every match index only grows. |
| RaftLeadership.LeadsThroughout | raft/node.py:275-333 | A node that leads a term at two moments leads it at every moment in between. |
| RaftLeadership.UnseatedExactly | raft/node.py:170-281 | For any cluster and run a leader stops leading its term exactly when it restarts or takes a message of a later term that is not a prevote request. |
| RaftLeadership.RecordsAck | raft/node.py:260-263 | On every acknowledgement a leader takes in a run, its sender's match index becomes the larger of the old and the acknowledged one, its next index one more, and nothing of other peers changes. |
| RaftLeadership.LeaderCommitIsFigure2 | raft/node.py:264 | On every acknowledgement a leader takes in a run the commit index becomes the largest N past the old one that Figure 2 allows for the match indexes it then has, and stays exactly when there is none. |
| RaftLeadership.NothingLeftToCommit | raft/node.py:337-349 | In every state of every run a leader with peers has already committed everything that Figure 2 allows. |
| RaftRunTheorems.LeaderHoldsCertified | raft/node.py:392-397 | An entry certified at any later time is already in the log of every leader of a later term. |
| RaftRunTheorems.AgreedLog | raft/node.py:337-349 | All certified prefixes of a history are prefixes of one log. |
| RaftCommitRule.SortAndPickIsFigure2 | raft/node.py:337-349 | Sorting the match indexes and picking the majority-th equals choosing the largest N past the commit index that a majority matched and whose term is current. |
| RaftCommitRule.SortPicksMajority | raft/node.py:338-340 | A majority has matched n exactly when n is at most the index the sort picks. |
| RaftBacktracking.BacktrackIsExact | raft/node.py:266-271 | After a rejection the next request asks for an earlier entry, never for one before the common prefix, and for exactly its end when the leader has an entry of the conflict term. |
| RaftBacktracking.BacktrackingConverges | raft/node.py:184-271 | The same over a run: for a rejection made at one step and taken by the still leading sender at any later step. |
| RaftBacktracking.AcceptsExactlyCommonPrefix | raft/node.py:184-225 | A follower accepts a request of its leader's term exactly when the previous index is within what its log has in common with the leader's, so rejections stop there. |
| RaftBacktracking.RejectionReport | raft/node.py:184-202 | A rejection reports the log's length or the first entry of the conflicting term, and only where the request's previous entry is not held. |
| RaftBacktracking.LastIndexIsLast | raft/node.py:405-414 | The downward scan that stops at a smaller term finds the last entry of a term in a sorted log, or that there is none. |
| RaftBacktracking.FirstIndexIsFirst | raft/node.py:399-403 | The downward scan finds exactly the start of the run of a term ending at an index. |
| RaftPreVoteContainment.PreVoteContainment | raft/node.py:283-318 | A group smaller than a majority that counts no outside grants and takes only its own messages never exceeds its largest initial term, over any run. |
| RaftPreVoteContainment.PreVoteForeseesVote | raft/node.py:137-151 | A prevote for a later term is granted exactly when no leader counts as active and the real vote would be; asking changes nothing. |
| RaftPreVoteContainment.OnlyNewerTermEndsRound | raft/node.py:229-241 | An AppendEntries ends an open prevote round exactly when its term is newer; otherwise a majority of grants still starts an election. |
| RaftPreVoteContainment.LeaderContactOnlyAges | raft/node.py:179-182 | No step of a node that keeps leading refreshes its record of leader contact. |
| RaftPreVoteRounds.OwnGrantUnseatsLeader | raft/node.py:145-151 | For any cluster size, of a node of the leader's term whose open round lacks one grant: the leader's answer makes it stand, and its vote request unseats the leader, exactly when the request is up to date and the leader's contact record has aged; otherwise the answer changes nothing. |
| RaftPreVoteRounds.RoundOpensAlone | raft/node.py:283-302 | A timed-out node's round opens with its own grant only, and ends at once exactly without peers. |
| RaftPreVoteRounds.CountsDeliveredGrants | raft/node.py:233-241 | While a round is open the node has counted exactly itself and the voters of the grants delivered since it opened, and they are no majority. |
| RaftPreVoteRounds.StandsExactlyOnMajority | raft/node.py:229-241 | For any cluster and run, a node with an open round stands exactly when those grants reach a majority, whenever they were given; otherwise its term moves only by a message of a later term. |
| RaftPreVoteRounds.RoundIsHarmless | raft/node.py:137-151 | If the grants under way when a round opens and those given while it is open come from too few peers for a majority, the node does not stand. |
| RaftPreVoteRounds.RefusalLasts | raft/node.py:147-150 | A peer that has reached the asked term, or has committed something the asking log is behind, refuses the request for ever, through restarts and changes of leader. |
| RaftPreVoteRounds.ContactLasts | raft/node.py:145-146 | A peer in contact with a leader that stays in its term and neither times out nor restarts keeps a contact record at least as recent. |
| RaftPreVoteRounds.ProtectedRound | raft/node.py:283-307 | If the members other than peers closed to the node and peers that stay in contact with a leader, none with a grant under way, make no majority with it, the node does not stand in its round, whatever else happens meanwhile. |
| RaftUnseating.HealthyLeaderUnseatedByOwnGrant | raft/node.py:145-151 | A run of any three nodes without a crash in which the leader's own grant unseats it while a majority counts it as active. |
| RaftUnseating.HealthyLeaderUnseatedByLateGrant | raft/node.py:229-241 | A run of any three nodes without a crash in which a grant given before the election unseats a healthy leader, for a node that lacks a committed entry and to which nobody would grant anything. |
| RaftUnseating.HealthyLeaderUnseatedByReconnection | raft/node.py:175-176 | A run of any three nodes without a crash in which a node of a later term unseats a healthy leader by answering its heartbeat; meanwhile nobody opens a round and no prevote answer is delivered. |
| RaftDisruption.LaterTermsAreStoodFor | raft/node.py:309-318 | A step takes the cluster beyond its largest term only by a node of that term standing for election. |
| RaftDisruption.StandsOnGrants | raft/node.py:304-307 | Whenever a node with peers stands in a run, it has a round open and a majority of grants delivered since it opened. |
| RaftDisruption.UnseatedOnlyByStanding | raft/node.py:229-281 | A leader of the largest term that does not restart is unseated only after another node of its term stood on such a majority while it was leading. |
| RaftDisruption.LeaderIsSafe | raft/node.py:137-151 | A leader of the largest term that does not restart leads on while every open round is harmless, whoever reconnects and whatever arrives late or twice. |
| RaftVoteCounting.CountsDeliveredVotes | raft/node.py:243-251 | While a candidacy lasts the candidate has counted exactly itself and the voters of the votes of its term delivered since it stood, and they are no majority. |
| RaftVoteCounting.LeadsExactlyOnMajority | raft/node.py:328-333 | For any cluster and run a candidate becomes leader exactly at the step at which those votes reach a majority. |
| RaftVoteCounting.LeaderWasElected | raft/node.py:309-333 | Every leader with peers stood for its term and had a majority of votes of that term delivered before it led. |
| RaftVoteRules.UpToDateIsTotal | raft/node.py:392-397 | Of any two logs one is up to date for the other, so two nodes never refuse each other over their logs. |
| RaftVoteRules.UpToDateIsLexicographic | raft/node.py:392-397 | The check is the order of section 5.4.1: a later last term wins whatever the length, and between equal last terms the longer log. |
| RaftVoteRules.UpToDateIsTransitive | raft/node.py:392-397 | The up-to-date order is transitive. |
| RaftVoteRules.VoteIsAnswered | raft/node.py:153-168 | Every vote request is answered to its sender in the larger term, and granted if and only if it is not of an earlier term, the vote in that term is free or already this candidate's, and the log is not behind; a granted vote is remembered and re-arms the timer. |
| RaftVoteRules.PreVoteIsAnswered | raft/node.py:137-151 | Every prevote request is answered to its sender, changes nothing, and is granted if and only if no leader was heard lately, the term is later and the log is not behind. |
| RaftVoteRules.CandidateAsksEverybody | raft/node.py:360-368 | A node that stands sends every peer a vote request of its new term that names its own log. |
| RaftVoteRules.RoundAsksEverybody | raft/node.py:294-301 | A node that opens a round sends every peer a prevote request for the next term that names its own log. |
| RaftVoteRules.LaterTermIsAdopted | raft/node.py:275-281 | Any message of a later term but a prevote request makes its receiver a follower of that term with no votes counted. |
| RaftVoteRules.StrayReplyIsIgnored | raft/node.py:237-258 | A reply that is not of a later term and not what the node is waiting for changes nothing. |
| RaftVoteRules.TimerIsRearmedExactly | raft/node.py:416-418 | The election deadline moves exactly by opening a round, a rise of the term, hearing the leader, granting a vote or a restart, and then to now plus the drawn timeout. |
| RaftVoteRules.RestartKeepsExactly | coordinator/raft_cluster.py:68-74 | A restart keeps term, vote, log and ledger, resets everything else and sends nothing. |
| RaftVoteRules.ProposalIsAppended | raft/node.py:127-133 | A proposal to a leader appends exactly its command as the next entry of the term; to any other node it does nothing. |
| RaftAcknowledgements.SentAppendsCarryState | raft/node.py:375-388 | Every AppendEntries a step sends comes from a node then leading, goes to a peer, and carries its commit index and its whole log from that peer's next index on, with the entry before. |
| RaftAcknowledgements.BroadcastsReachEverybody | raft/node.py:370-373 | A leader that takes over, is due for a heartbeat or takes a proposal sends each peer such an AppendEntries and re-arms its heartbeat. |
| RaftAcknowledgements.EarlyTickIsQuiet | raft/node.py:96-102 | A tick with no timer due changes nothing. |
| RaftAcknowledgements.LeaderHasHeartbeatDue | raft/node.py:66-66 | In every state of a run a leader has its next heartbeat scheduled. |
| RaftAcknowledgements.HearingIsFollowing | raft/node.py:178-182 | Whoever hears a leader of its term or a later one follows it, records the contact and re-arms its timer. |
| RaftAcknowledgements.AcceptsAndAcknowledges | raft/node.py:204-225 | A request whose previous entry is held is accepted: the log stays if it has the entries and else ends with them, the commit index rises to the leader's, and the acknowledgement names exactly the last entry sent, in the leader's term and the follower's name. |
| RaftAcknowledgements.RejectsAndReports | raft/node.py:184-202 | A request whose previous entry is not held changes neither log nor commit index, and the answer reports the log's end or where the conflicting run of a term starts. |
| RaftAcknowledgements.StaleRequestIsRefused | raft/node.py:172-176 | A request of an earlier term changes nothing and is answered with the later term. |
| RaftAcknowledgements.RejectionIsRetried | raft/node.py:266-271 | After a rejection the leader resumes after its own last entry of the conflicting term, or at the reported index if it has none, retries at once, and changes nothing else. |
| RaftAcknowledgements.NewLeaderStartsOver | raft/node.py:320-326 | Whoever starts to lead names itself, has matched nothing and resumes after its own last entry for each peer. |
| RaftAcknowledgements.OtherIndexesStay | raft/node.py:253-271 | Only a reply of the leader's term by that very peer moves a peer's indexes. |
| RaftAcknowledgements.MatchIsLargestAck | raft/node.py:260-263 | At every moment of a leadership a match index is the largest acknowledgement of that term delivered from that peer since it began. |
| RaftAcknowledgements.CommitReachesFollower | raft/node.py:218-220 | What a leader had committed when it sent a request, a follower that accepts it has committed too. |
| RaftAcknowledgements.AckReachesLeader | raft/node.py:222-264 | When the acknowledgement of an accepted request reaches its still leading sender, the match index is at least what the request ended with, and the follower's log agreed with the leader's up to there. |
| RaftCluster.StepKeepsInv | raft/node.py:96-123 | Every step of a cluster, by any node, extends the history and keeps the invariant of all nodes and of every message ever sent. |
| RaftCluster.RunHistory | raft/node.py:34-92 | Every run from empty storage has a growing history against which all its states satisfy the invariant. |
| RaftCluster.RestartStep | raft/tests/harness.py:96-105 | A restart that keeps term, vote, log and ledger and resets everything else keeps every invariant. |
| RaftActions.ElectedIsUnique | raft/node.py:328-333 | Two nodes with a majority of votes in one term are the same node. |
| RaftActions.UpToDateCandidateKeepsAcks | raft/node.py:392-397 | A candidate that passes the up-to-date check of a voter holds every entry the voter acknowledged that can still be committed. |
| RaftActions.NewLeaderIsComplete | raft/node.py:309-333 | A new leader's log holds every own-term entry of earlier leaders that is not blocked. |
| RaftActions.CertifiedIsInLaterLogs | raft/node.py:337-349 | What a majority acknowledged in its own term is in the log of every later leader. |
| RaftActions.CertifiedPrefixesAgree | raft/node.py:347-349 | Two certified prefixes of different terms never disagree. |
| RaftActions.LateWriteIsBlocked | raft/node.py:127-133 | What a deposed leader writes after a later term was won can never be committed. |
| RaftReplicationSteps.MergeFollowsLeader | raft/node.py:204-216 | After the entry loop the log agrees with the leader through the last sent entry, and loses nothing that already agreed with it. |
| RaftReplicationSteps.AcceptKeepsCommitted | raft/node.py:204-216 | Accepting a leader's entries keeps every committed entry. |
| RaftReplicationSteps.AcceptKeepsAcks | raft/node.py:204-216 | Accepting a leader's entries keeps everything acknowledged to earlier leaders that can still be committed. |
| RaftReplicationSteps.AppendEntriesStep | raft/node.py:170-225 | Handling any AppendEntries keeps the invariants, and its reply only claims what the follower now holds. |
| RaftReplicationSteps.AppendReplyStep | raft/node.py:253-271 | Handling any reply keeps the invariants of the leader, of what it commits and of what it resends. |
| RaftReplicationSteps.ProposeStep | raft/node.py:127-133 | A proposal keeps the invariants; what it broadcasts is sound. |
| RaftReplicationSteps.PickedIsCertified | raft/node.py:337-349 | An index of the current term that the sort picks is really held by a majority. |
| RaftElectionSteps.RequestVoteStep | raft/node.py:153-168 | Handling a vote request keeps the invariants; each term gets one vote, for a candidate that keeps the voter's acknowledgements. |
| RaftElectionSteps.VoteReplyStep | raft/node.py:243-251 | Counting a vote reply, up to becoming leader, keeps the invariants. |
| RaftElectionSteps.BecomeCandidateStep | raft/node.py:309-318 | Starting an election keeps the invariants, including the immediate win of a single-node cluster. |
| RaftElectionSteps.BecomeLeaderStep | raft/node.py:320-326 | A candidate with a majority may take over: the term had no leader, and its log and first heartbeats are sound. |
| RaftElectionSteps.PreVoteReplyStep | raft/node.py:229-241 | Counting a prevote reply, up to starting an election, keeps the invariants. |
| RaftElectionSteps.StartPrevoteStep | raft/node.py:283-302 | A timed-out node's prevote round keeps the invariants. |
| RaftDurability.StepKeepsCommittedPrefix | raft/node.py:204-220 | A committed prefix survives any step of the node that stores it, even one that no longer remembers it is committed. |
| RaftDurability.AppendRaisesCommit | raft/node.py:218-220 | An accepted AppendEntries makes the commit index the larger of its own and the leader's; a rejected one leaves it. |
| RaftApply.ReplayReaches | raft/node.py:351-356 | Replaying a stretch of a log over a ledger that already applied a prefix gives the ledger of the longer of the two prefixes. |
| RaftApply.ApplyKeepsStore | raft/node.py:351-356 | Applying up to a newly committed index keeps the ledger a fold of a committed prefix. |
| RaftNodeObject.RaftNode.constructor | raft/node.py:34-92 | A started node over existing storage has all volatile state reset and persisted state kept. |
| RaftNodeObject.RaftNode.Tick | raft/node.py:96-102 | The object's tick is the step function's, in state and in envelopes sent. |
| RaftNodeObject.RaftNode.Receive | raft/node.py:104-123 | Each message goes to its handler and each request's reply to the envelope's sender. |
| RaftNodeObject.RaftNode.Propose | raft/node.py:127-133 | A leader appends the entry, broadcasts, and returns it before it is committed; others return nothing. |
| RaftNodeObject.RaftNode.HandlePreVote | raft/node.py:137-151 | The three refusals and the grant, with no change of state. |
| RaftNodeObject.RaftNode.HandleRequestVote | raft/node.py:153-168 | Term adoption, the vote rule and the reply. |
| RaftNodeObject.RaftNode.HandleAppendEntries | raft/node.py:170-225 | Term adoption, recognising the leader, then following it; nothing else is sent. |
| RaftNodeObject.RaftNode.Follow | raft/node.py:184-225 | Both rejections with their conflict reports, the merge, the commit and the acknowledgement. |
| RaftNodeObject.RaftNode.MergeEntries | raft/node.py:204-216 | The entry loop computes the merge that replaces the log from its first missing or conflicting entry. |
| RaftNodeObject.RaftNode.HandlePreVoteReply | raft/node.py:229-241 | Step-down, the staleness guard, and counting grants. |
| RaftNodeObject.RaftNode.HandleRequestVoteReply | raft/node.py:243-251 | Step-down, the staleness guard, and counting votes. |
| RaftNodeObject.RaftNode.HandleAppendEntriesReply | raft/node.py:253-271 | Match and next index updates, the commit rule, and the immediate retry after a rejection. |
| RaftNodeObject.RaftNode.BecomeFollower | raft/node.py:275-281 | Adopting a term clears the vote and the tally. |
| RaftNodeObject.RaftNode.StartPrevote | raft/node.py:283-302 | Opens a round with only its own grant and asks every peer. |
| RaftNodeObject.RaftNode.MaybeWinPrevote | raft/node.py:304-307 | A majority of grants starts a real election. |
| RaftNodeObject.RaftNode.BecomeCandidate | raft/node.py:309-318 | Raises and persists the term and own vote before asking for votes. |
| RaftNodeObject.RaftNode.BecomeLeader | raft/node.py:320-326 | Initialises the indexes of every peer and sends the first heartbeats. |
| RaftNodeObject.RaftNode.MaybeBecomeLeaderFromVotes | raft/node.py:328-333 | A candidate with a majority of votes takes over. |
| RaftNodeObject.RaftNode.AdvanceCommitIndex | raft/node.py:337-349 | The collected, sorted and picked index, guarded by the current term. |
| RaftNodeObject.RaftNode.ApplyCommitted | raft/node.py:351-356 | The loop applies exactly the entries between last applied and commit index, in order, each of which exists. |
| RaftNodeObject.RaftNode.BroadcastAppendEntries | raft/node.py:370-373 | One AppendEntries per peer, in order, and the heartbeat timer. |
| RaftNodeObject.RaftNode.SendAppendEntriesTo | raft/node.py:375-388 | The entries from the peer's next index on, with the entry before them and the commit index. |
| RaftNodeObject.RaftNode.FirstIndexOfTerm | raft/node.py:399-403 | The loop computes the start of a run of one term. |
| RaftNodeObject.RaftNode.LastIndexOfTerm | raft/node.py:405-414 | The loop, with its early exit, computes the last index of a term. |
| RaftStorage.InMemoryStorage.Get | raft/storage.py:77-83 | The entry at a 1-based index if the log has it, none otherwise. |
| RaftStorage.InMemoryStorage.Append | raft/storage.py:91-93 | The log grows by the entries, term and vote unchanged. |
| RaftStorage.InMemoryStorage.TruncateFrom | raft/storage.py:95-99 | Exactly the entries before the index remain; a non-positive index is refused. |
| RaftTransport.InMemoryTransport.Send | raft/transport.py:60-63 | Queues at the recipient, or drops silently if either end is partitioned; other inboxes are untouched. |
| RaftTransport.InMemoryTransport.DeliverTo | raft/transport.py:80-87 | Drains one inbox in order of arrival; everything delivered was sent to that node, so the cluster's network allows it. |
| RaftTransport.InMemoryTransport.Register | raft/transport.py:57-58 | Registering a node, again or for the first time, loses no waiting envelope. |
| LedgerProofs.ReplayIsInvisible | settlement/ledger_state_machine.py:48-68 | Applying q then q and r gives the ledger and every returned result of applying q and r once. |
| LedgerProofs.DuplicatesAreInvisible | settlement/ledger_state_machine.py:50-52 | Any log gives the ledger of the log that keeps only the first occurrence of each entry id. |
| LedgerProofs.FirstOccurrencesIds | settlement/ledger_state_machine.py:50-52 | That log has the same ids, each once. |
| LedgerProofs.Conservation | settlement/ledger_state_machine.py:54-68 | Each balance is its initial value plus the deltas of the distinct accepted entries on that account. |
| LedgerProofs.NeverOverdrawn | settlement/ledger_state_machine.py:56-64 | A balance that started non-negative never becomes negative, and no application makes any balance negative. |
| LedgerProofs.AcceptedExactlyWhenCovered | settlement/ledger_state_machine.py:54-68 | A new entry is accepted exactly when the balance left by the earlier entries covers it, and the reported balance is the one it leaves. |
| LedgerProofs.ResultsNameEntries | settlement/ledger_state_machine.py:57-67 | Every result returned, replayed or not, names the entry it was returned for. |
| LedgerProofs.NoDoubleSpend | settlement/ledger_state_machine.py:54-68 | For two new debits on one account anywhere in a log: the first is accepted exactly when covered, the second then exactly when what arrived in between makes up for it; a rejected one leaves all balances. |
| LedgerProofs.ReapplyIsNoOp | settlement/ledger_state_machine.py:50-52 | Applying any entry of an applied prefix again changes nothing. |
| LedgerObject.LedgerStateMachine.Apply | settlement/ledger_state_machine.py:48-68 | The object's new state and returned result are those of the value model, and the result is remembered. |
| LedgerObject.LedgerStateMachine.Balance | settlement/ledger_state_machine.py:44-46 | The stored balance, zero for an unknown account. |
| StreamProofs.AtLeastOnce | fraud/worker.py:51-69 | In every state of every run a committed offset is within its partition and every record below it has been put on the output queue. |
| StreamProofs.OffsetsNeverDecrease | streaming/broker.py:67-78 | No committed offset ever falls, whichever of two owners commits last. |
| StreamProofs.PartitionOrder | fraud/worker.py:57-68 | The first puts of a partition's records are a gapless prefix of its log, in order, even with two owners. |
| StreamProofs.AccountOrder | streaming/producer.py:13-15 | Each account's transactions first reach the output in production order, none skipped. |
| StreamProofs.ProducedIsWhatWasAsked | streaming/broker.py:47-53 | The stream holds every key and value that was produced, in the order of the requests, and each partition what was routed to it. |
| StreamProofs.StepKeepsInv | streaming/consumer.py:60-65 | Every step of any worker or producer keeps the stream's invariant. |
| FraudWorkers.FraudWorker.RunOnce | fraud/worker.py:51-69 | A cycle alone is a run of the stream model without failures; it puts no more than the room there was, and stops only when that is used up or every assigned partition is drained. |
| FraudWorkers.FraudWorker.TakeTurn | fraud/worker.py:57-68 | One partition's turn stays within the room left and either uses it up or drains the partition. |
| FraudWorkers.FraudWorker.ProcessBatch | fraud/worker.py:61-68 | The records of the batch are put in order and committed up to the first that a full queue refuses; those put are committed, the others not, and no offset falls. |
| FraudWorkers.FraudWorker.PutAndCommit | fraud/worker.py:65-66 | The record is put and then committed at its offset + 1, all other partitions' offsets unchanged; a full queue refuses it and nothing changes. |
| FraudWorkers.FraudWorker.PollPartition | streaming/consumer.py:60-62 | The records from the committed offset on, at most as many as asked. |
| FraudWorkers.FraudWorker.AvailableCapacity | fraud/worker.py:71-75 | The whole batch or all of the room, whichever is less; nothing when the queue is full, the batch when it is unbounded. |
| FraudWorkers.ReachesKeepsInv | fraud/worker.py:51-69 | Whatever a worker's cycle reaches from a state with the stream's invariant has it too. |
| FraudWorkers.PartitionedLog.Append | streaming/broker.py:47-53 | The record gets the partition's length as its offset; an unknown partition is refused. |
| FraudWorkers.PartitionedLog.Read | streaming/broker.py:55-60 | The slice from an offset, empty past the end; an unknown partition or negative offset is refused. |
| FraudWorkers.PartitionedLog.CommitOffset | streaming/broker.py:67-78 | The group's offset becomes the larger of old and new; other partitions and groups are untouched. |
| FraudWorkers.PartitionedLog.CommittedOffset | streaming/broker.py:80-83 | The committed offset, zero if none; an unknown partition is refused. |
| ConsumerGroups.RoundRobinIsBalanced | streaming/group.py:91-99 | Dealing partitions over the sorted members gives each partition exactly one owner, names only members, and differs by at most one between any two. |
| ConsumerGroups.DealtShare | streaming/group.py:94-98 | Member k holds exactly the partitions congruent to k, in order, and its share is n / m or one more. |
| ConsumerGroups.SortedIdsAreUnique | streaming/group.py:92 | A set of members has one sorted order, so the assignment is deterministic. |
| ConsumerGroups.PrecedesIsLexicographic | streaming/group.py:92 | The order is that of strings: a proper prefix first, otherwise the first difference decides. |
| ConsumerGroups.ConsumerGroup.Rebalance | streaming/group.py:91-99 | Afterwards the assignment is the dealt one and balanced over the current members. |
| ConsumerGroups.ConsumerGroup.Join | streaming/group.py:49-53 | The member is in the group with a fresh heartbeat, the assignment is balanced again, and its own share is returned. |
| ConsumerGroups.ConsumerGroup.Leave | streaming/group.py:61-64 | The member is gone and the assignment balanced over the rest. |
| ConsumerGroups.ConsumerGroup.Heartbeat | streaming/group.py:55-59 | Only that member's heartbeat changes; an unknown member is refused. |
| ConsumerGroups.ConsumerGroup.CheckExpiredMembers | streaming/group.py:74-89 | Exactly the members silent for longer than the timeout are evicted and returned in dictionary order, and the assignment is balanced over the survivors. |
| VelocityWindow.EvictingCountIsExact | fraud/scorer.py:76-84 | If the clock never went back between arrivals of the account, the evicting window counts all of its arrivals no older than the window. |
| VelocityWindow.CountIsRightExactly | fraud/scorer.py:76-84 | For one width and one arrival that is not itself late: the count is never too low, and right if and only if no arrival of the account that is stale by now came after one that is not. |
| VelocityWindow.CountIsRightExactlyInOrder | fraud/scorer.py:76-84 | The next count of an account is right for every width and every arrival that is not late if and only if the account's arrivals so far are in clock order. |
| VelocityWindow.LateArrivalUndercounts | fraud/scorer.py:82-83 | A concrete history whose last arrival is late and whose count is too low. |
| VelocityWindow.BackwardClockOvercounts | fraud/scorer.py:82-83 | A concrete history whose clock goes back and whose count is too high. |
| VelocityWindow.RuleBasedScorer.RecordAndCount | fraud/scorer.py:76-84 | The loop's window is the model's for every account, and its count the full-history count if the account's arrivals are in clock order. |

## Left out

- gRPC transport, serialization, Docker entry points and disk storage: input and output only; the cluster delivers any envelope ever sent.
- Runtimes, coordinator and worker threads, locks, sleeps and wall clocks: each locked call is one atomic step.
- Liveness and timing: nothing is proved to happen eventually. Equal timeouts can livelock elections, and a single-node cluster never advances its commit index, since only replies do.
- That every submitted transaction settles: a proposal returns before it is committed, and submitter timeouts are only recorded.
- Stability of verdicts: after a rebalance a record may be scored again with another velocity history.
- The rest of the scorer: weights, thresholds and reasons are straight-line arithmetic.
- Reasons in ledger results, entry validation on construction, decimal context rounding, and the counterparty leg of transfers, which the system does not implement.
- RaftRunTheorems.AckSoundness: speaks of peers still in the leader's term; a peer that moved on may have replaced uncommitted entries.
- RaftNodeObject.RaftNode.HandleAppendEntries: expects a non-negative previous index, because truncation raises on a non-positive one; RaftRunTheorems.SentAppendsAreSound proves it of every message any run sends.
- RaftNodeObject.RaftNode.Follow: expects a non-negative previous index for the same reason.
- RaftNodeObject.RaftNode.HandleAppendEntriesReply: expects an acknowledgement to come from a peer, because one from a stranger fails on the missing key or counts as one more member; no run sends one.
- RaftNodeObject.RaftNode.Receive: expects the same of the envelopes it dispatches.
- VelocityWindow.CountIsRightExactly: speaks of arrivals that are not themselves late; for a late one stale arrivals kept and recent ones evicted can cancel out in the count.
- RaftTransport.InMemoryTransport.DeliverTo: the handler is represented by the sequence of envelopes it is called with, so envelopes that a handler sends to the node being drained are not part of one delivery.
- The single-process consumer, production timestamps and the md5 partitioner: a key's partition is an arbitrary fixed function.
- FraudWorkers.FraudWorker.RunOnce: the scoring call between read and put is left out, and other workers do not run inside the cycle; interleaving is the stream model's.
- Leader discovery and retries of proposals in the coordinator.
