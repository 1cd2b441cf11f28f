# Two distributed algorithms, modelled and verified

The repository holds two Go programs: Lamport's mutual exclusion algorithm over logical clocks
(`Mutual-Exclusion/code`) and Raft without snapshots (`Raft/code`). This project models both as state machines
whose steps are the critical sections of the code, and proves what every run keeps. Under each state machine
stand the objects of the program: classes with its mutable fields, one method per critical section, each proved
to be the step the state machine takes.

`dafny verify dfyconfig.toml` checks everything.

## Layout

Raft, bottom up:

* `RaftLog`, `RaftServer`: entries, logs, and one server as a value; one function per critical section.
* `RaftLaws`: what each of these functions must do, for every server and message, said over fields alone: when it says
  yes, what it answers, what it changes and what it leaves. `RaftMoves` says the same of the steps of a run.
* `RaftNode`: class `Raft` with the struct's fields and class `Persister`; every method is proved equal to its
  function in `RaftServer`.
* `RaftCluster`: n servers, their goroutines and the calls between them; `Event`, `Next`, `Run`. A call is
  delivered at most once, in any order, after any delay, or never; so is its reply. A server may crash and restart
  from its disk at any moment.
* `RaftHistory` to `RaftSafety`: votes, Election Safety, Log Matching, index safety.
* `RaftCommit` to `RaftTheorems`: Leader Completeness, State Machine Safety, commitIndex and matchIndex.
* `RaftDurable`: persistence and announcements, in all runs. `RaftReplication`: the commit count and the back-off.
* `RaftRecovery`: from every state of an ordered run the cluster can still apply a new command everywhere.
* `RaftTraces`, `RaftScenarios`: a vocabulary for building runs, and runs worth knowing.
* `RaftVotes`, `RaftGaps`, `RaftStaleCount`: what holds, and what goes wrong, when an assumption is dropped.

Mutual exclusion, bottom up:

* `MutexTimestamp`, `MutexProcess`: the order of timestamps, messages, and one process as a value; one function
  per critical section.
* `IndexedHeap`, `MutexQueues`, `MutexNode`: the heap with back-pointers, the request queue and the received
  times over it, and classes `Clock`, `Property`, `Resource` and `Process`.
* `MutexSystem`: all processes, the stream of messages they share and the resource. A listener is a program
  counter (take a message, record its time, queue or drop a request, acknowledge, check Rule 5) that interleaves
  with the process's own `Request` and `releaseResource`. The four panics of the code are outcomes of steps.
* `MutexLaws`: what each critical section must do, over fields alone, for every process and message and for every step
  of a run; what a process has heard, and its acknowledgments.
* `MutexInvariant`, `MutexSteps`, `MutexEvents`: the invariant and its preservation.
* `MutexTheorems`, `MutexFairness`, `MutexTermination`: the results.

## What the results assume

The mutual exclusion results hold for every run, with any interleaving, any positive initial clocks and any number
of processes; results about being served need at least two, and `AloneIsNeverServed` shows why. The stream is an
append-only sequence with one cursor per process, which gives the per-sender order and the delivery that
`Mutual-Exclusion/README.md:15-17` promises.

For Raft the code leaves four things to timing. Runs that meet them are named:

* `Run`: no assumption.
* `TimelyRun`: a server takes power only with a token of the term it is in (`TokenIsCurrent`), and reads a request
  for votes while still in the term of that election (`BallotIsCurrent`).
* `OrderedRun`: also, the commit count runs only in a leader (`BroadcastsAsLeader`), and AppendEntries requests of
  one leader to one follower in one term do not overtake each other, though any may be lost (`InOrder`).

The code checks none of the four: `statesLoop` reads the token and `comeToPower` does not look at the term; the vote
request is read by a new goroutine; `broadcastAppendEntries` counts before it asks whether it still leads; and the
cut in `AppendEntries` is unconditional. Each of the four is needed, with the other three in force:

* Without `TokenIsCurrent`, Election Safety holds in clusters of at most one server and in no other
  (`RaftGaps.TokensNeededIff`).
* Without `BallotIsCurrent`, Election Safety holds in clusters of at most three servers and in no larger one
  (`RaftGaps.BallotsNeededIff`).
* Without `BroadcastsAsLeader`, State Machine Safety fails in a cluster of five
  (`RaftStaleCount.FollowerCountBreaksSafety`).
* Without `InOrder`, State Machine Safety fails in a cluster of three (`RaftScenarios.OvertakingBreaksSafety`).

Entries in a request are values. In the program they alias the leader's slice until they are encoded.

Where comments and code differ, the model follows the code.

* `matchIndex` is said to increase monotonically (`Raft/code/raft-Raft.go:45`). A late reply lowers it, even in an
  ordered run (`RaftScenarios.MatchIndexCanFall`); `RaftReplication.MatchIndexFallsIff` says exactly when.
* The first entry is said to have index 1 (`Raft/code/raft-Raft.go:34`). Position 0 holds a sentinel of index 0 and
  term 0.
* The resource is said to go to whoever asked first (`Mutual-Exclusion/README.md:10`). The code grants in the order of
  timestamps (`MutexTheorems.FirstComeFirstServed`). A request that stands earlier in the stream can be granted later
  (`MutexTermination.AskedFirstServedSecond`): two requests are granted in the order of asking if and only if their
  timestamps are in that order (`MutexTheorems.AskedFirstServedFirstIff`).

## Model

| member | source | states |
|---|---|---|
| RaftSafety.ElectionSafety | Raft/code/raft-RequestVote.go:37-85 | Section 5.2: over a whole timely run, crashes included, two servers that are ever leader of the same term are one server. |
| RaftSafety.LeaderWonMajority | Raft/code/raft-RequestVote.go:104-134 | Whoever leads a term had a majority of distinct servers whose vote for it in that term was on disk at some earlier moment. |
| RaftSafety.VoteCountIsHonest | Raft/code/raft-RequestVote.go:130-133 | voteCount never exceeds the number of distinct servers whose disk once held a vote for this server in its term. |
| RaftSafety.LogMatching | Raft/code/raft-AppendEntries.go:159-184 | Section 5.3: two logs of any servers at any moments of a timely run that agree on a term at an index are identical up to it, under any reordering, loss and crash. |
| RaftSafety.SuccessAdoptsSentLog | Raft/code/raft-AppendEntries.go:179-184 | A delivery answered with success leaves the follower with exactly the log its leader had at the earlier moment it sent the request. |
| RaftSafety.EveryRequestWasSent | Raft/code/raft-AppendEntries.go:20-31 | Every request in the network was made by a leader of its term and carries that leader's log of then to its end. |
| RaftSafety.IndexSafety | Raft/code/raft-AppendEntries.go:20-31 | Entry i has index i, terms never fall and stay at or below currentTerm, and a leader's nextIndex for each peer lies in [1, lastIndex + 1]. |
| RaftSafety.BackOffFindsBreak | Raft/code/raft-AppendEntries.go:166-177 | Every reject of a request that is not of an old term hints a position in [1, prevLogIndex]: the end of a log that ends before prevLogIndex, otherwise the start of the run of entries of one term that ends at prevLogIndex. The search always meets its break before the sentinel. |
| RaftTheorems.LeaderCompleteness | Raft/code/raft-AppendEntries.go:59-79 | Section 5.4: what any server knows to be committed at any moment, a leader that has just counted a majority included, is a prefix of the log of every leader of a term later than that server's, at any moment. |
| RaftTheorems.StateMachineSafety | Raft/code/raft-API.go:130-152 | Section 5.4.3: no two servers, at any two moments and across crashes, apply different commands at the same index. |
| RaftTheorems.AppliesInOrder | Raft/code/raft-API.go:136-148 | Each incarnation has applied the entries 1, ..., lastApplied of its log, each once and in order, and all of them are committed. |
| RaftTheorems.MatchIndexSound | Raft/code/raft-AppendEntries.go:109-126 | A follower in the leader's term agrees with the leader's log through matchIndex, whatever order replies come in. |
| RaftTheorems.CommittedForEver | Raft/code/raft-AppendEntries.go:59-79 | A committed log prefix stays committed for the rest of the run. |
| RaftTheorems.CommitIndexRises | Raft/code/raft-Raft.go:36-38 | Between its restarts a server's commitIndex and lastApplied never fall in an ordered run, although its log may be cut. |
| RaftTheorems.NothingFaults | Raft/code/raft-AppendEntries.go:52-86 | In an ordered run no event that keeps the assumptions indexes a slice out of range. |
| RaftRecovery.EveryRunRecovers | Raft/code/raft-API.go:70-196 | From the end of every ordered run of two or more servers, whatever was lost, delayed or crashed, some further events that keep all assumptions lead to a state in which every server has applied the same messages and a given new command as the last: an election can be won, every follower's log can be brought to the leader's, and the commit reaches everybody. |
| RaftRecovery.RecoveryIff | Raft/code/raft-RequestVote.go:97-133 | That every ordered run can be continued like this holds of the clusters of two or more servers, and of these only: a server alone never leads, commits or applies. |
| RaftMoves.EventMoves | Raft/code/raft-API.go:70-122 | In every run a server's term after an event is the larger of its own and the one the message brought (one more for an own election); a later term makes a follower, else only a time-out makes a candidate and only a token a leader; loop, pending ballots, incarnation and apply loop follow their tables. |
| RaftMoves.CallsMoveOn | Raft/code/labrpc/labrpc.go:209-298 | A call is delivered at most once, its answer is taken at most once, and nothing else about a call ever changes. |
| RaftMoves.BroadcastAsksEverybody | Raft/code/raft-AppendEntries.go:80-85 | A leader's broadcast sends exactly one request to every peer, with the log from that peer's nextIndex to the end and the commitIndex just advanced; a server that does not lead sends none. |
| RaftMoves.EveryBallotWasAsked | Raft/code/raft-RequestVote.go:87-102 | Every request for votes in any run was made by its sender in the term and with the last entry it describes. |
| RaftLaws.VoteGrantedIff | Raft/code/raft-RequestVote.go:43-85 | A vote is granted if and only if the term is not old, the vote of that term is free or already the candidate's, and the candidate's last entry is of a later term or of the same term and not before the voter's. |
| RaftLaws.VoteTaken | Raft/code/raft-RequestVote.go:43-73 | The voter takes over a later term as a follower, its vote goes to the candidate, is cleared or stands, it persists, and answers with its new term. |
| RaftLaws.LogsAreOrdered | Raft/code/raft-RequestVote.go:82-85 | Of any two logs one passes the voter's test for the other, and passing is transitive. |
| RaftLaws.ExtensionIsNotRefused | Raft/code/raft-RequestVote.go:75-95 | A candidate whose log extends the voter's gets the vote if and only if term and vote allow it. |
| RaftLaws.VoteReplyYields | Raft/code/raft-RequestVote.go:117-123 | A candidate goes to a reply's higher term as a follower without a vote and persists; no other reply changes term, role, vote or log. |
| RaftLaws.VoteCountedIff | Raft/code/raft-RequestVote.go:125-133 | A reply adds one to the count if and only if it grants a vote of the present term and is of no later one; a token is made exactly for a counted vote that gives a candidate more than half. |
| RaftLaws.RequestAcceptedIff | Raft/code/raft-AppendEntries.go:138-184 | A request is accepted if and only if its term is not old and the log holds an entry of prevLogTerm at prevLogIndex, position 0 always counting. |
| RaftLaws.RequestYields | Raft/code/raft-AppendEntries.go:138-157 | The follower takes over a later term without a vote, persists unless the term is old, and answers with its new term. |
| RaftLaws.AcceptanceReplaces | Raft/code/raft-AppendEntries.go:179-190 | An accepted request leaves the old log through prevLogIndex and its entries after it; the commit follows to the smaller of leaderCommit and the last entry, and is announced, exactly if leaderCommit is above it. |
| RaftLaws.RejectionHint | Raft/code/raft-AppendEntries.go:159-176 | For every server and every rejected request not of an old term: the hint is the end of a log that ends before prevLogIndex, otherwise the start of the run of entries of one term that ends at prevLogIndex. |
| RaftLaws.AppendReplyYields | Raft/code/raft-AppendEntries.go:101-107 | A leader goes to a reply's higher term as a follower without a vote and persists; no other reply changes term, role, vote or log. |
| RaftLaws.AppendReplyRecords | Raft/code/raft-AppendEntries.go:109-126 | Only replies to requests of the present term count: a rejection moves that peer's nextIndex to its hint, a success moves nextIndex and matchIndex to the last entry carried, a heartbeat and all other records stand. |
| RaftLaws.EverythingIsApplied | Raft/code/raft-API.go:136-148 | The apply loop hands over every entry above lastApplied through commitIndex, once and in order. |
| RaftCompleteness.UpToDateIsSafe | Raft/code/raft-RequestVote.go:75-85 | Section 5.4.1: if the voter's log holds an entry with all before it, or the entry can no longer be chosen, the same is true of the log of any candidate the vote test accepts. |
| RaftCompleteness.WinnerIsSafe | Raft/code/raft-RequestVote.go:65-71 | The log of the winner of an election is safe for every entry of every earlier term. |
| RaftCommitSteps.CountedIsCommitted | Raft/code/raft-AppendEntries.go:61-71 | An index the commit test accepts in a leader is held by a majority that acknowledged it in the leader's term. |
| RaftCommitEvents.NoShrink | Raft/code/raft-AppendEntries.go:179-184 | When requests arrive in order, a delivery never shortens what the follower acknowledged in the term. |
| RaftDurable.DurableState | Raft/code/raft-persist.go:15-41 | In every run, between steps, the disk holds the term, vote and log in memory (an empty disk stands for the initial ones), and a commitIndex ahead of lastApplied has a token pending or taken. |
| RaftDurable.RestartRestores | Raft/code/raft-persist.go:32-41 | A restart restores term, vote and log exactly. |
| RaftDurable.OneVotePerTerm | Raft/code/raft-RequestVote.go:50-71 | In every run, a server votes for at most one candidate in a term, crashes included. |
| RaftDurable.LoneServerNeverLeads | Raft/code/raft-RequestVote.go:97-133 | A cluster of one server never has a leader: the majority test runs only when a peer's vote arrives. |
| RaftReplication.CountedIsCommittable | Raft/code/raft-AppendEntries.go:61-71 | With two or more servers the count accepts an index if and only if its entry is of the current term and a majority, the leader included, holds it. |
| RaftReplication.CommitLoopPicksLargest | Raft/code/raft-AppendEntries.go:59-78 | The commit loop moves commitIndex to the largest such index above it and announces it; if there is none it changes nothing. |
| RaftReplication.LoneServerCountsAll | Raft/code/raft-AppendEntries.go:62-71 | Without peers the count accepts every index, of any term. |
| RaftReplication.ProbeRejected | Raft/code/raft-AppendEntries.go:114-117 | A rejected probe leaves the follower's log alone and moves nextIndex back to the follower's end or to the start of its run of one term that ends at prevLogIndex, in [1, prevLogIndex], from where probing can go on. |
| RaftReplication.BackOffConverges | Raft/code/raft-AppendEntries.go:159-177 | Probing a fixed follower log is rejected at most 1 + (number of distinct non-zero terms in that log) times. |
| RaftReplication.AcceptKeepsIff | Raft/code/raft-AppendEntries.go:179-184 | An accepted request keeps the follower's log through position i if and only if it carries the same entries up to there; otherwise the cut erases them. |
| RaftReplication.MatchIndexFallsIff | Raft/code/raft-AppendEntries.go:101-126 | For every server, request and reply: the reply lowers matchIndex of its peer if and only if it is a success of the present term to a request of that term whose last entry lies below the recorded match. |
| RaftScenarios.MatchIndexCanFall | Raft/code/raft-AppendEntries.go:101-126 | In an ordered run of three servers two requests are answered in order and the replies taken in reverse, and the second lowers matchIndex. |
| RaftScenarios.CommandIsApplied | Raft/code/raft-API.go:130-152 | An ordered run of three servers elects a leader, replicates a command and applies it, so the results on ordered runs are not empty. |
| RaftScenarios.OvertakingBreaksSafety | Raft/code/raft-AppendEntries.go:179-184 | With a heartbeat overtaken by a later request and all other assumptions in force, two servers of three can apply different commands at index 1. |
| RaftStaleCount.FollowerCountBreaksSafety | Raft/code/raft-AppendEntries.go:52-78 | With the commit count run in a server that has lost its office and all other assumptions in force, two servers of five can apply different commands at index 1. |
| RaftVotes.FewServersElectOne | Raft/code/raft-RequestVote.go:87-134 | In a cluster of at most three servers, two servers that are ever leader of the same term are one server even if vote requests are read in later terms, as long as tokens are current. |
| RaftGaps.StaleTokenElectsTwo | Raft/code/raft-API.go:106-122 | In every cluster of two or more servers, with a token of an earlier term in use and all other assumptions in force, two servers can lead term 2. |
| RaftGaps.TokensNeededIff | Raft/code/raft-API.go:106-122 | Current vote requests alone give Election Safety in clusters of at most one server, and in no other. |
| RaftGaps.StaleBallotElectsTwo | Raft/code/raft-RequestVote.go:87-102 | In every cluster of four or more servers, with vote requests read in later terms and all other assumptions in force, one peer's vote is counted again and again and two servers can lead the same term. |
| RaftGaps.BallotsNeededIff | Raft/code/raft-RequestVote.go:87-102 | Current tokens alone give Election Safety in clusters of at most three servers, and in no larger one. |
| RaftNode.Raft.constructor | Raft/code/raft-API.go:37-68 | A new server has the initial state, or the persisted term, vote and log if there are any. |
| RaftNode.Raft.Persist | Raft/code/raft-persist.go:15-27 | Writes exactly term, vote and log to the persister and changes nothing else. |
| RaftNode.Raft.ReadPersist | Raft/code/raft-persist.go:32-41 | Overwrites term, vote and log with the stored ones; an empty store changes nothing. |
| RaftNode.Raft.GetLastIndex | Raft/code/raft-method.go:5-7 | The index stored in the last entry is its position. |
| RaftNode.Raft.GetBaseIndex | Raft/code/raft-method.go:9-11 | The index stored in the first entry is 0. |
| RaftNode.Raft.RequestVote | Raft/code/raft-RequestVote.go:37-73 | The handler's new state and reply are those of `RaftServer.RequestVote`, which `RaftLaws.VoteGrantedIff` and `VoteTaken` pin down. |
| RaftNode.Raft.SendRequestVoteAndDealReply | Raft/code/raft-RequestVote.go:104-134 | Without an answer nothing changes; with one, the state is that of `RaftServer.DealVoteReply`, which `RaftLaws.VoteReplyYields` and `VoteCountedIff` pin down. |
| RaftNode.Raft.NewElection | Raft/code/raft-API.go:87-96 | Next term, own vote, count one, persisted. |
| RaftNode.Raft.NewVoteArgs | Raft/code/raft-RequestVote.go:90-95 | The request describes the server's term and last entry. |
| RaftNode.Raft.ComeToPower | Raft/code/raft-API.go:111-122 | The loop sets nextIndex of every peer right behind the log and matchIndex to 0. |
| RaftNode.Raft.Start | Raft/code/raft-API.go:170-196 | A leader appends and persists one entry of its term and returns its index; others change nothing and return -1, -1, false. |
| RaftNode.Raft.CountVotes | Raft/code/raft-AppendEntries.go:62-71 | The inner loop's count is a majority if and only if the index is counted. |
| RaftNode.Raft.AdvanceCommit | Raft/code/raft-AppendEntries.go:56-78 | The upward loop over indices finds the largest counted index above commitIndex. |
| RaftNode.Raft.NewAppendEntriesArgs | Raft/code/raft-AppendEntries.go:20-31 | The request carries the log from nextIndex to its end and the entry before it. |
| RaftNode.Raft.BroadcastAppendEntries | Raft/code/raft-AppendEntries.go:52-86 | After the commit loop, a leader makes exactly the requests the cluster step sends, one per peer in order; a non-leader makes none. |
| RaftNode.Raft.SendAppendEntriesAndDealReply | Raft/code/raft-AppendEntries.go:88-127 | Without an answer nothing changes; with one, the state is that of `RaftServer.DealAppendReply`, which `RaftLaws.AppendReplyYields` and `AppendReplyRecords` pin down. |
| RaftNode.Raft.BackOff | Raft/code/raft-AppendEntries.go:168-175 | The downward loop returns the position after the last entry of another term. |
| RaftNode.Raft.CheckPrevious | Raft/code/raft-AppendEntries.go:159-177 | Whether the request fits the log, and the hint when it does not. |
| RaftNode.Raft.TakeEntries | Raft/code/raft-AppendEntries.go:179-190 | Cut after prevLogIndex, append, follow the leader's commit up to the last new entry. |
| RaftNode.Raft.AppendEntries | Raft/code/raft-AppendEntries.go:130-192 | The handler's new state and reply are those of `RaftServer.AppendEntries`, which `RaftLaws.RequestAcceptedIff`, `RequestYields`, `AcceptanceReplaces`, `RejectionKeeps` and `RejectionHint` pin down. |
| RaftNode.Raft.ApplyCommitted | Raft/code/raft-API.go:136-148 | The loop sends the entries after lastApplied through commitIndex, in order, and advances lastApplied to there. |
| MutexTimestamp.LessIsTotalOrder | Mutual-Exclusion/code/timestamp.go:32-47 | Less is irreflexive, transitive and total, and excludes IsEqual. |
| MutexTheorems.MutualExclusion | Mutual-Exclusion/code/resource.go:40-69 | In every run no panic has happened or can happen next, at most one process occupies, and it occupies exactly when the resource is recorded as occupied by its request. |
| MutexTheorems.GrantsAreSorted | Mutual-Exclusion/code/resource.go:48-54 | The grants are strictly increasing in the order of timestamps. |
| MutexTheorems.FirstComeFirstServed | Mutual-Exclusion/code/process.go:142-148 | When a request has been granted as the k-th, every request with an earlier timestamp that is ever made is among the first k grants. |
| MutexTheorems.AskedFirstServedFirstIff | Mutual-Exclusion/code/process.go:176-193 | Of two granted requests, the one that stands first in the stream was granted first if and only if its timestamp is the earlier one. |
| MutexTermination.AskedFirstServedSecond | Mutual-Exclusion/code/process.go:176-193 | In a run of two processes the request that stands second in the stream is granted first: the clock of its process was behind. |
| MutexTheorems.LaterIsServedLater | Mutual-Exclusion/code/process.go:176-193 | A request made after its process recorded another's request has a later timestamp and is granted after it. |
| MutexTheorems.QueueIsLogPrefix | Mutual-Exclusion/code/process.go:103-128 | Between two messages a queue holds exactly the requests of others in the part of the stream read that have no release there, and the own live request. |
| MutexTheorems.QueuesAgree | Mutual-Exclusion/code/process.go:103-128 | Two processes that have read equally far hold the same requests of all other processes. |
| MutexTheorems.QueueUseIsLegal | Mutual-Exclusion/code/requestQueue.go:43-59 | No timestamp is pushed on a queue that holds it, and none is removed from a queue that does not. |
| MutexTheorems.NoMissedWakeUp | Mutual-Exclusion/code/process.go:66-88 | Whenever a listener waits for a message, Rule 5 is false for its process. |
| MutexTheorems.ClockCondition | Mutual-Exclusion/code/process.go:91-122 | A message that happened before another, by any chain of sending order and receipt before sending, carries a smaller time. |
| MutexTheorems.ReceivedTimeRises | Mutual-Exclusion/code/process.go:91-101 | No step lowers a received time; recording a message raises its sender's strictly and leaves the clock at the larger of its old value and the message's time plus one. |
| MutexLaws.SkippedIff | Mutual-Exclusion/code/process.go:68-75 | A message leaves the listener at rest if and only if it is the process's own or an acknowledgment to another process. |
| MutexLaws.ReceivedIsHeard | Mutual-Exclusion/code/process.go:68-101 | In every run the time recorded for a process is 0 or that of a request, a release or an acknowledgment addressed to the recorder that was read from it, and none read is later. |
| MutexLaws.OccupierHasHeardAll | Mutual-Exclusion/code/process.go:142-148 | In every run the occupier has read from every other process a request, a release or an answer of its own of a later time than its request. |
| MutexLaws.OneAckPerRequest | Mutual-Exclusion/code/process.go:103-122 | In every run a process has acknowledged another's request exactly once if it has dealt with it and not at all otherwise; the acknowledgment names the request, follows it and goes to its process. |
| MutexLaws.Rule5Iff | Mutual-Exclusion/code/process.go:142-148 | Rule 5 over the fields: not occupying, the own request before all others in the queue, and a later time recorded for every other process. |
| MutexLaws.EventMoves | Mutual-Exclusion/code/process.go:66-193 | In every run every step follows the tables for clock, stream, listener, flags and resource: past what is heard, one further for whatever is sent, and each message with exactly its type, time, sender, receiver and timestamp. |
| MutexLaws.TimeComesFirst | Mutual-Exclusion/code/timestamp.go:32-51 | Timestamps are ordered by time, and only equal times by process. |
| MutexEvents.Rule5IsFirst | Mutual-Exclusion/code/process.go:142-148 | When Rule 5 holds, the request precedes every other live request. |
| MutexEvents.Rule5FindsResourceFree | Mutual-Exclusion/code/process.go:130-155 | When Rule 5 holds, the resource is free and its last grant was earlier. |
| MutexEvents.HolderReleases | Mutual-Exclusion/code/process.go:157-174 | A process that occupies is the one the resource records, and its request is in its queue. |
| MutexSteps.QueuedIsNew | Mutual-Exclusion/code/process.go:103-106 | A request about to be queued is new to the queue and not yet released in the part of the stream read. |
| MutexSteps.ReleasedIsQueued | Mutual-Exclusion/code/process.go:124-128 | A release never meets a missing request. |
| MutexSteps.RequestWaits | Mutual-Exclusion/code/process.go:176-193 | A new request cannot satisfy Rule 5 before another message is received. |
| MutexFairness.EveryRequestIsServed | Mutual-Exclusion/code/process.go:60-193 | No starvation: in every fair infinite behaviour of two or more processes, every request ever made is granted and released, however many others are made meanwhile. |
| MutexFairness.ListenerReads | Mutual-Exclusion/code/process.go:66-88 | A listener eventually rests behind every message of the stream. |
| MutexTermination.StepLowers | Mutual-Exclusion/code/process.go:66-193 | Every step but a new request lowers (unreleased requests, acknowledgments due, unread messages, steps left). |
| MutexTermination.WithoutRequestsItEnds | Mutual-Exclusion/code/process.go:66-193 | No behaviour goes on for ever from any moment without a new request. |
| MutexTermination.QuietIsServed | Mutual-Exclusion/code/process.go:130-193 | With two or more processes, a state in which only new requests are possible has granted and released every request, and no process waits. |
| MutexTermination.WhatIsNext | Mutual-Exclusion/code/process.go:66-88 | At every stage the listener's next step is possible, and a process that occupies can release: nothing these steps index or dereference is missing. |
| MutexTermination.EveryRunExtends | Mutual-Exclusion/code/process.go:60-193 | Every run is the beginning of a fair behaviour, so fairness can be met from every reachable state. |
| MutexTermination.AloneIsNeverServed | Mutual-Exclusion/code/process.go:70-86 | A process alone never gets the resource, as Rule 5 is checked only after a message of another. |
| IndexedHeap.RootIsLeast | Mutual-Exclusion/code/requestQueue.go:34-41 | In a heap no key comes before the one at the root. |
| IndexedHeap.SwapUp | Mutual-Exclusion/code/requestQueue.go:98-102 | One step up keeps the heap except at the parent's position. |
| IndexedHeap.SwapDown | Mutual-Exclusion/code/requestQueue.go:98-102 | One step down to the least child keeps the heap except below it. |
| IndexedHeap.ReplaceKey | Mutual-Exclusion/code/receivedTime.go:87-90 | Changing one key of a heap, up or down, leaves a heap except at that position. |
| IndexedHeap.Heap.Swap | Mutual-Exclusion/code/requestQueue.go:98-102 | Two items change places and both stored indices stay true. |
| IndexedHeap.Heap.Push | Mutual-Exclusion/code/requestQueue.go:105-109 | Adds the item, keeps the heap and every stored index true. |
| IndexedHeap.Heap.Pop | Mutual-Exclusion/code/requestQueue.go:112-117 | Takes out the last item and marks it with index -1. |
| IndexedHeap.Heap.Remove | Mutual-Exclusion/code/requestQueue.go:119-121 | Takes out the item at any position, keeps the heap and every stored index true. |
| IndexedHeap.Heap.Fix | Mutual-Exclusion/code/receivedTime.go:87-90 | Restores the heap after one key changed in place. |
| MutexQueues.RequestQueue.Min | Mutual-Exclusion/code/requestQueue.go:34-41 | Returns the least timestamp of the queue, or none if and only if it is empty. |
| MutexQueues.RequestQueue.Push | Mutual-Exclusion/code/requestQueue.go:43-52 | Heap and map hold the old requests and the new one, which the map finds; they stay one set of timestamps if and only if they were one and the timestamp is new. |
| MutexQueues.RequestQueue.Remove | Mutual-Exclusion/code/requestQueue.go:54-59 | The request that the map finds leaves heap and map, wherever it stood, and nothing else does. |
| MutexQueues.ReceivedTime.constructor | Mutual-Exclusion/code/receivedTime.go:23-37 | One record of time 0 for each other process, all in the heap. |
| MutexQueues.ReceivedTime.Update | Mutual-Exclusion/code/receivedTime.go:39-43 | Changes the time of one process to any value; heap and records stay one map. |
| MutexQueues.ReceivedTime.Min | Mutual-Exclusion/code/receivedTime.go:46-50 | Returns the minimum over all other processes. |
| MutexNode.Clock.Update | Mutual-Exclusion/code/clock.go:30-34 | The clock passes the given time and never falls. |
| MutexNode.Clock.Tick | Mutual-Exclusion/code/clock.go:36-42 | The clock advances by one and returns its new value. |
| MutexNode.Resource.Occupy | Mutual-Exclusion/code/resource.go:40-56 | A free resource goes to a later timestamp; the record of grants stays sorted. |
| MutexNode.Resource.Release | Mutual-Exclusion/code/resource.go:58-69 | The holder gives the resource back and is remembered as the last one. |
| MutexNode.Process.Next | Mutual-Exclusion/code/process.go:68-75 | Takes the next message, or skips it if it is the process's own or an acknowledgment to somebody else, as `MutexLaws.SkippedIff` says of the step. |
| MutexNode.Process.RecordTime | Mutual-Exclusion/code/process.go:91-101 | Clock and received time change as in the step of the system. |
| MutexNode.Process.Queue | Mutual-Exclusion/code/process.go:103-108 | The request enters the queue. |
| MutexNode.Process.Acknowledge | Mutual-Exclusion/code/process.go:110-121 | One acknowledgment with the ticked clock goes to the sender. |
| MutexNode.Process.HandleReleaseMessage | Mutual-Exclusion/code/process.go:124-128 | The request leaves the queue. |
| MutexNode.Process.IsSatisfiedRule5 | Mutual-Exclusion/code/process.go:142-148 | The test over the two heaps is true if and only if Rule 5 holds of the sets they represent. |
| MutexNode.Process.CheckRule5 | Mutual-Exclusion/code/process.go:130-155 | Occupies exactly when Rule 5 holds. |
| MutexNode.Process.Deal | Mutual-Exclusion/code/process.go:77-86 | The whole treatment of one message, when nothing comes between its critical sections. |
| MutexNode.Process.ReleaseResource | Mutual-Exclusion/code/process.go:157-171 | Resource released, request out of the queue, others told, flags reset. |
| MutexNode.Process.Request | Mutual-Exclusion/code/process.go:176-193 | Ticked timestamp sent to all, put into the own queue and remembered. |

## Left out

- RaftSafety.ElectionSafety: assumes timely runs; `RaftGaps.TokensNeededIff` and `RaftGaps.BallotsNeededIff` say in which clusters it is false without either half of that.
- RaftSafety.LogMatching: assumes timely runs, as it rests on one leader per term.
- RaftTheorems.StateMachineSafety: assumes ordered runs; `RaftScenarios.OvertakingBreaksSafety` shows it false without the order of requests, and `RaftStaleCount.FollowerCountBreaksSafety` without the restriction of the commit count to leaders.
- RaftTheorems.LeaderCompleteness: assumes ordered runs, like State Machine Safety.
- MutexFairness.EveryRequestIsServed: assumes that the scheduler is fair to listeners and to releases.
- MutexNode.Process.Deal: covers a message whose critical sections follow each other without interruption; `MutexSystem` takes them one by one, with `Request`, `releaseResource` and all other processes in between.
- Raft liveness: `RaftRecovery.EveryRunRecovers` shows that progress is always possible; that it happens, and that a leader is eventually elected, depends on timing the model does not have. Timeouts, heartbeats and channel readiness are nondeterministic events.
- Channel capacity: channels are unbounded counts or sequences; blocking of a send under the lock at 100 tokens is not modelled.
- Unlocked reads of `rf.state`: `statesLoop` and `broadcastRequestVote` read it without the lock; the model makes each read one step and lets any subset of peers be asked.
- Aliasing: `Entries` shares the leader's slice until it is encoded, and timestamps are shared pointers; both are values here. The request map is keyed by value, which `MutexTheorems.QueueUseIsLegal` justifies.
- Slices that only one object uses (`logs`, `nextIndex`, `matchIndex`, the heap's slice, `trs`) are sequences that methods reassign; their capacity is not modelled.
- The network and encoding libraries (`Raft/code/labrpc`, `Raft/code/labgob`): kept as delivery at most once, loss, delay and reordering, and identity on values.
- Snapshots: the persister can store them but nothing calls it; the base index of every log is 0.
- The observer library: replaced by an append-only stream with a cursor per process.
- Integer width: terms, indices and clocks are unbounded.
- Commands are integers, as in the repository's own harness.
- `GetState`, `Kill`, reports, statistics and debug output.
