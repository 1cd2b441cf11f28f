/**
 * Raft: building runs. A vocabulary for runs that reach a given state: electing a leader, sending and answering
 * requests, committing, applying, restarting. Every lemma extends a run by a few events, at most one of the scheduling
 * assumptions being dropped, and says what the cluster looks like afterwards.
 */
module RaftTraces {
  import opened RaftLog
  import opened RaftServer
  import opened RaftCluster

  /** The assumption that is dropped, if any; `Continuing` drops none and goes on from the end of a given run. */
  datatype Gap =
    | NoGap
    | StaleToken
    | StaleBallot
    | CountsAsFollower
    | Overtaking
    | Continuing(states: seq<Cluster>, events: seq<Event>)

  ghost predicate Allowed(g: Gap, c: Cluster, e: Event)
    requires Shape(c) && Enabled(c, e)
  {
    && (g != StaleToken ==> TokenIsCurrent(c, e))
    && (g != StaleBallot ==> BallotIsCurrent(c, e))
    && (g != CountsAsFollower ==> BroadcastsAsLeader(c, e))
    && (g != Overtaking ==> InOrder(c, e))
  }

  ghost predicate AllowedAt(g: Gap, states: seq<Cluster>, events: seq<Event>, i: nat)
    requires i < |events| == |states| - 1
  {
    StepAt(states, events, i) && Allowed(g, states[i], events[i])
  }

  /** A run of n servers that meets all assumptions but g. */
  ghost predicate Trace(g: Gap, n: nat, states: seq<Cluster>, events: seq<Event>) {
    && Run(n, states, events)
    && forall i {:trigger AllowedAt(g, states, events, i)} :: 0 <= i < |events| ==> AllowedAt(g, states, events, i)
  }

  ghost predicate EndsIn(g: Gap, n: nat, states: seq<Cluster>, events: seq<Event>, c: Cluster) {
    && Trace(g, n, states, events) && states[|events|] == c
    && (g.Continuing? ==> g.states <= states && g.events <= events)
  }

  /** Some run of n servers that meets all assumptions but g ends in c. */
  ghost predicate Reach(g: Gap, n: nat, c: Cluster) {
    exists states, events :: EndsIn(g, n, states, events, c)
  }

  /** Some ordered run of n servers ends in c. */
  ghost predicate Ordered(n: nat, c: Cluster) {
    exists states: seq<Cluster>, events: seq<Event> :: OrderedRun(n, states, events) && states[|events|] == c
  }

  /** A trace without a gap is an ordered run, and the other way round. */
  lemma OrderedIsTrace(g: Gap, n: nat, states: seq<Cluster>, events: seq<Event>)
    requires g == NoGap || g.Continuing?
    ensures OrderedRun(n, states, events) <==> Trace(g, n, states, events)
  {
    if OrderedRun(n, states, events) {
      forall i | 0 <= i < |events|
        ensures AllowedAt(g, states, events, i)
      {
        assert TimelyAt(states, events, i) && OrderlyAt(states, events, i);
      }
    }
    if Trace(g, n, states, events) {
      forall i | 0 <= i < |events|
        ensures TimelyAt(states, events, i) && OrderlyAt(states, events, i)
      {
        assert AllowedAt(g, states, events, i);
      }
    }
  }

  /** Without a gap a trace is an ordered run. */
  lemma NoGapIsOrdered(n: nat, c: Cluster)
    requires Reach(NoGap, n, c)
    ensures Ordered(n, c)
  {
    var states, events :| EndsIn(NoGap, n, states, events, c);
    OrderedIsTrace(NoGap, n, states, events);
  }

  lemma ReachInit(g: Gap, n: nat)
    requires !g.Continuing?
    ensures Reach(g, n, Init(n)) && Shape(Init(n))
  {
    assert EndsIn(g, n, [Init(n)], [], Init(n));
  }

  lemma OneMore(g: Gap, n: nat, states: seq<Cluster>, events: seq<Event>, e: Event)
    requires Trace(g, n, states, events)
    requires var c := states[|events|]; Shape(c) && Enabled(c, e) && !Faults(c, e) && Allowed(g, c, e)
    ensures Trace(g, n, states + [Next(states[|events|], e)], events + [e])
  {
    var states', events' := states + [Next(states[|events|], e)], events + [e];
    forall i | 0 <= i < |events'|
      ensures AllowedAt(g, states', events', i)
    {
      assert i < |events| ==> AllowedAt(g, states, events, i);
    }
    forall i | 0 <= i < |events'|
      ensures StepAt(states', events', i)
    {
      assert AllowedAt(g, states', events', i);
    }
  }

  lemma ReachStep(g: Gap, n: nat, c: Cluster, e: Event) returns (c': Cluster)
    requires Reach(g, n, c) && Shape(c) && Enabled(c, e) && !Faults(c, e) && Allowed(g, c, e)
    ensures c' == Next(c, e) && Reach(g, n, c') && Shape(c')
  {
    c' := Next(c, e);
    ShapeKept(c, e);
    var states, events :| EndsIn(g, n, states, events, c);
    OneMore(g, n, states, events, e);
    assert EndsIn(g, n, states + [c'], events + [e], c');
  }

  /** A reachable cluster of n servers in its proper shape. */
  ghost predicate At(g: Gap, n: nat, c: Cluster) {
    Reach(g, n, c) && Shape(c) && |c.servers| == n
  }

  /** All calls of c are still there and as they were. */
  ghost predicate KeepsAppends(c: Cluster, c': Cluster) {
    |c.appends| <= |c'.appends| && forall k :: 0 <= k < |c.appends| ==> c'.appends[k] == c.appends[k]
  }

  /* ---------- Elections ---------- */

  /** The server after m elections have begun in it. */
  function Stood(sv: Server, m: nat): Server {
    Persist(sv.(currentTerm := sv.currentTerm + m, votedFor := sv.me, voteCount := 1))
  }

  lemma Begin(g: Gap, n: nat, c: Cluster, s: nat) returns (c': Cluster)
    requires At(g, n, c) && s < n && c.threads[s].loop == AtSwitch && c.servers[s].state == Candidate
    ensures At(g, n, c') && c'.votes == c.votes && c'.appends == c.appends
    ensures c'.servers == c.servers[s := Stood(c.servers[s], 1)]
    ensures c'.threads == c.threads[s := c.threads[s].(
      loop := AwaitingVotes, ballots := c.threads[s].ballots + {c.servers[s].currentTerm + 1})]
  {
    var c1 := ReachStep(g, n, c, EnterElection(s));
    c' := ReachStep(g, n, c1, BeginElection(s));
  }

  lemma BeginAgain(g: Gap, n: nat, c: Cluster, s: nat) returns (c': Cluster)
    requires At(g, n, c) && s < n && c.threads[s].loop == AwaitingVotes && c.servers[s].state == Candidate
    ensures At(g, n, c') && c'.votes == c.votes && c'.appends == c.appends
    ensures c'.servers == c.servers[s := Stood(c.servers[s], 1)]
    ensures c'.threads == c.threads[s := c.threads[s].(
      loop := AwaitingVotes, ballots := c.threads[s].ballots + {c.servers[s].currentTerm + 1})]
  {
    var c1 := ReachStep(g, n, c, GiveUp(s));
    c' := Begin(g, n, c1, s);
  }

  /** Elections begin again and again before any of their ballots is read. */
  lemma {:induction false} BeginMany(g: Gap, n: nat, c: Cluster, s: nat, m: nat) returns (c': Cluster)
    requires At(g, n, c) && s < n && c.threads[s].loop == AtSwitch && c.servers[s].state == Candidate && m > 0
    ensures At(g, n, c') && c'.votes == c.votes && c'.appends == c.appends
    ensures c'.servers == c.servers[s := Stood(c.servers[s], m)]
    ensures var th' := c'.threads[s];
            && c'.threads == c.threads[s := c.threads[s].(loop := AwaitingVotes, ballots := th'.ballots)]
            && forall t :: c.servers[s].currentTerm < t <= c.servers[s].currentTerm + m ==> t in th'.ballots
    decreases m
  {
    if m == 1 {
      c' := Begin(g, n, c, s);
    } else {
      var c1 := BeginMany(g, n, c, s, m - 1);
      c' := BeginAgain(g, n, c1, s);
    }
  }

  /** The voter grants its vote, maybe not for the first time. */
  predicate Willing(w: Server, sv: Server)
    requires |w.logs| > 0 && |sv.logs| > 0
  {
    && (w.currentTerm < sv.currentTerm || (w.currentTerm == sv.currentTerm && w.votedFor == sv.me))
    && UpToDate(LastTerm(sv.logs), LastIndex(sv.logs), w.logs)
  }

  function Voted(w: Server, sv: Server): Server {
    Persist((if w.currentTerm < sv.currentTerm then StepDown(w, sv.currentTerm) else w).(votedFor := sv.me))
  }

  /** Call x of the ballot asks a willing peer, and is still to be delivered. */
  ghost predicate Pending(c: Cluster, s: nat, k: nat, targets: seq<nat>, x: nat)
    requires Shape(c) && s < |c.servers| && x < |targets| && k + |targets| <= |c.votes|
  {
    && targets[x] < |c.servers| && targets[x] != s
    && c.votes[k + x] == Rpc(s, targets[x], c.threads[s].epoch, VoteArgs(c.servers[s]), Sent)
    && Willing(c.servers[targets[x]], c.servers[s])
  }

  /** Candidate s has counted m of the votes it asked the targets for. */
  ghost predicate Polling(c: Cluster, s: nat, k: nat, targets: seq<nat>, m: nat) {
    && Shape(c) && s < |c.servers| && m <= |targets| == |c.servers| / 2 && k + |targets| <= |c.votes|
    && c.servers[s].state == Candidate && c.threads[s].loop == AwaitingVotes && c.servers[s].voteCount == 1 + m
    && forall x {:trigger Pending(c, s, k, targets, x)} :: m <= x < |targets| ==> Pending(c, s, k, targets, x)
  }

  lemma Granted(w: Server, sv: Server)
    requires |w.logs| > 0 && |sv.logs| > 0 && Willing(w, sv) && sv.me >= 0
    ensures RequestVote(w, VoteArgs(sv)) == (Voted(w, sv), RequestVoteReply(sv.currentTerm, true))
  {
  }

  lemma GrantOne(g: Gap, n: nat, c: Cluster, s: nat, k: nat, to: nat) returns (c': Cluster)
    requires At(g, n, c) && k < |c.votes| && s < n && to < n && to != s
    requires c.votes[k] == Rpc(s, to, c.threads[s].epoch, VoteArgs(c.servers[s]), Sent) && Willing(c.servers[to], c.servers[s])
    ensures At(g, n, c') && c'.threads == c.threads && c'.appends == c.appends
    ensures c'.servers == c.servers[to := Voted(c.servers[to], c.servers[s])]
    ensures c'.votes == c.votes[k := c.votes[k].(status := Answered(RequestVoteReply(c.servers[s].currentTerm, true)))]
  {
    Granted(c.servers[to], c.servers[s]);
    c' := ReachStep(g, n, c, DeliverVote(k));
  }

  /** The server after its m-th vote from a peer. */
  function OneVoteMore(sv: Server, m: nat): Server {
    if m == sv.peers / 2
    then sv.(voteCount := 1 + m, chanBeElected := sv.chanBeElected + [sv.currentTerm])
    else sv.(voteCount := 1 + m)
  }

  lemma CountOne(g: Gap, n: nat, c: Cluster, s: nat, k: nat, m: nat) returns (c': Cluster)
    requires At(g, n, c) && k < |c.votes| && c.votes[k].from == s && s < n && c.votes[k].epoch == c.threads[s].epoch
    requires c.votes[k].args.term == c.servers[s].currentTerm && c.servers[s].state == Candidate
    requires c.votes[k].status == Answered(RequestVoteReply(c.servers[s].currentTerm, true))
    requires c.servers[s].voteCount == 1 + m < 1 + n / 2
    ensures At(g, n, c') && c'.threads == c.threads && c'.appends == c.appends
    ensures c'.servers == c.servers[s := OneVoteMore(c.servers[s], m + 1)]
    ensures c'.votes == c.votes[k := c.votes[k].(status := Closed)]
  {
    c' := ReachStep(g, n, c, TakeVoteReply(k));
  }

  /** One peer grants its vote and the vote is counted. */
  lemma PollOne(g: Gap, n: nat, c: Cluster, s: nat, k: nat, targets: seq<nat>, m: nat) returns (c': Cluster)
    requires At(g, n, c) && Polling(c, s, k, targets, m) && m < |targets| && Pending(c, s, k, targets, m)
    ensures At(g, n, c') && c'.threads == c.threads && c'.appends == c.appends
    ensures c'.servers == c.servers[targets[m] := Voted(c.servers[targets[m]], c.servers[s])]
                                   [s := OneVoteMore(c.servers[s], m + 1)]
    ensures |c'.votes| == |c.votes| && forall j :: 0 <= j < |c.votes| && j != k + m ==> c'.votes[j] == c.votes[j]
  {
    var c1 := GrantOne(g, n, c, s, k + m, targets[m]);
    c' := CountOne(g, n, c1, s, k + m, m);
  }

  lemma StillPolling(c: Cluster, s: nat, k: nat, targets: seq<nat>, m: nat, c': Cluster)
    requires Polling(c, s, k, targets, m) && m < |targets| && Shape(c') && |c'.servers| == |c.servers|
    requires targets[m] < |c.servers| && targets[m] != s
    requires c'.servers == c.servers[targets[m] := Voted(c.servers[targets[m]], c.servers[s])]
                                    [s := OneVoteMore(c.servers[s], m + 1)]
    requires |c'.votes| == |c.votes| && forall j :: 0 <= j < |c.votes| && j != k + m ==> c'.votes[j] == c.votes[j]
    requires c'.threads == c.threads
    ensures Polling(c', s, k, targets, m + 1)
  {
    forall x | m + 1 <= x < |targets|
      ensures Pending(c', s, k, targets, x)
    {
      assert Pending(c, s, k, targets, x);
    }
  }

  /** The votes of targets m and onwards, one by one. */
  lemma VotesAddUp(n: nat, servers: seq<Server>, s: nat, targets: seq<nat>, m: nat, servers1: seq<Server>, servers': seq<Server>)
    requires |servers| == |servers1| == |servers'| == n && s < n && m < |targets|
    requires targets[m] < n && targets[m] != s
    requires servers1 == servers[targets[m] := Voted(servers[targets[m]], servers[s])][s := OneVoteMore(servers[s], m + 1)]
    requires forall j :: 0 <= j < n && j != s ==>
      servers'[j] == if j in targets[m + 1..] then Voted(servers1[j], servers1[s]) else servers1[j]
    ensures forall j :: 0 <= j < n && j != s ==>
      servers'[j] == if j in targets[m..] then Voted(servers[j], servers[s]) else servers[j]
  {
    assert targets[m..] == [targets[m]] + targets[m + 1..];
  }

  /** The remaining votes come in, and the last of them produces the token. */
  lemma {:induction false} Poll(g: Gap, n: nat, c: Cluster, s: nat, k: nat, targets: seq<nat>, m: nat) returns (c': Cluster)
    requires At(g, n, c) && Polling(c, s, k, targets, m) && m < |targets|
    ensures At(g, n, c') && c'.threads == c.threads && c'.appends == c.appends
    ensures c'.servers[s] == c.servers[s].(voteCount := 1 + |targets|,
      chanBeElected := c.servers[s].chanBeElected + [c.servers[s].currentTerm])
    ensures forall j :: 0 <= j < n && j != s ==>
      c'.servers[j] == if j in targets[m..] then Voted(c.servers[j], c.servers[s]) else c.servers[j]
    decreases |targets| - m
  {
    assert Pending(c, s, k, targets, m);
    var c1 := PollOne(g, n, c, s, k, targets, m);
    if m + 1 == |targets| {
      c' := c1;
    } else {
      StillPolling(c, s, k, targets, m, c1);
      c' := Poll(g, n, c1, s, k, targets, m + 1);
    }
    VotesAddUp(n, c.servers, s, targets, m, c1.servers, c'.servers);
  }

  /** The peers to be asked: half of the cluster, all different and willing. */
  ghost predicate Electorate(c: Cluster, s: nat, sv: Server, targets: seq<nat>)
    requires Shape(c) && |sv.logs| > 0
  {
    && 0 < |targets| == |c.servers| / 2
    && (forall x :: 0 <= x < |targets| ==> targets[x] < |c.servers| && targets[x] != s && Willing(c.servers[targets[x]], sv))
    && forall x, y :: 0 <= x < y < |targets| ==> targets[x] != targets[y]
  }

  /** An idle follower without tokens. */
  ghost predicate Idle(c: Cluster, s: nat) {
    && s < |c.servers| == |c.threads|
    && c.servers[s].state == Follower && c.threads[s].loop == AtSwitch && c.servers[s].chanBeElected == []
  }

  /** The server that won with m elections. */
  function Winner(sv: Server, m: nat): Server {
    Stood(sv.(state := Candidate), m).(voteCount := 1 + sv.peers / 2, chanBeElected := [sv.currentTerm + m])
  }

  /** An idle follower times out and begins m elections. */
  lemma StandUp(g: Gap, n: nat, c: Cluster, s: nat, m: nat) returns (c': Cluster)
    requires At(g, n, c) && Idle(c, s) && m > 0
    ensures At(g, n, c') && c'.votes == c.votes && c'.appends == c.appends
    ensures c'.servers == c.servers[s := Stood(c.servers[s].(state := Candidate), m)]
    ensures var th' := c'.threads[s];
            && c'.threads == c.threads[s := c.threads[s].(loop := AwaitingVotes, ballots := th'.ballots)]
            && forall t :: c.servers[s].currentTerm < t <= c.servers[s].currentTerm + m ==> t in th'.ballots
  {
    var c1 := ReachStep(g, n, c, Timeout(s));
    c' := BeginMany(g, n, c1, s, m);
  }

  /** Server s begins m elections and asks for votes in the last. */
  lemma Canvass(g: Gap, n: nat, c: Cluster, s: nat, m: nat, targets: seq<nat>) returns (c': Cluster)
    requires At(g, n, c) && Idle(c, s) && m > 0 && Electorate(c, s, Stood(c.servers[s], m), targets)
    ensures At(g, n, c') && c'.appends == c.appends
    ensures c'.servers == c.servers[s := Stood(c.servers[s].(state := Candidate), m)]
    ensures c'.votes == c.votes + Ballots(s, c.threads[s].epoch, VoteArgs(c'.servers[s]), targets)
    ensures c'.threads == c.threads[s := c.threads[s].(loop := AwaitingVotes, ballots := c'.threads[s].ballots)]
  {
    var c1 := StandUp(g, n, c, s, m);
    c' := ReachStep(g, n, c1, SendBallots(s, c1.servers[s].currentTerm, targets));
  }

  lemma AllPending(c: Cluster, s: nat, k: nat, targets: seq<nat>)
    requires Shape(c) && s < |c.servers| && k + |targets| == |c.votes| && Electorate(c, s, c.servers[s], targets)
    requires c.votes[k..] == Ballots(s, c.threads[s].epoch, VoteArgs(c.servers[s]), targets)
    requires c.servers[s].state == Candidate && c.threads[s].loop == AwaitingVotes && c.servers[s].voteCount == 1
    ensures Polling(c, s, k, targets, 0)
  {
    forall x | 0 <= x < |targets|
      ensures Pending(c, s, k, targets, x)
    {
      assert c.votes[k..][x] == c.votes[k + x];
    }
  }

  /** Server s wins an election, the last of m, and its token waits. */
  lemma Campaign(g: Gap, n: nat, c: Cluster, s: nat, m: nat, targets: seq<nat>) returns (c': Cluster)
    requires At(g, n, c) && Idle(c, s) && m > 0 && Electorate(c, s, Stood(c.servers[s], m), targets)
    ensures At(g, n, c') && c'.appends == c.appends && c'.servers[s] == Winner(c.servers[s], m)
    ensures forall j :: 0 <= j < n && j != s ==>
      c'.servers[j] == if j in targets then Voted(c.servers[j], Stood(c.servers[s], m)) else c.servers[j]
    ensures c'.threads == c.threads[s := c.threads[s].(loop := AwaitingVotes, ballots := c'.threads[s].ballots)]
  {
    var c1 := Canvass(g, n, c, s, m, targets);
    AllPending(c1, s, |c.votes|, targets);
    c' := Poll(g, n, c1, s, |c.votes|, targets, 0);
    assert targets[0..] == targets;
  }

  /** Server s is elected and takes power. */
  lemma Elect(g: Gap, n: nat, c: Cluster, s: nat, m: nat, targets: seq<nat>) returns (c': Cluster)
    requires At(g, n, c) && Idle(c, s) && m > 0 && Electorate(c, s, Stood(c.servers[s], m), targets)
    ensures At(g, n, c') && c'.appends == c.appends && c'.servers[s] == ComeToPower(Winner(c.servers[s], m))
    ensures forall j :: 0 <= j < n && j != s ==>
      c'.servers[j] == if j in targets then Voted(c.servers[j], Stood(c.servers[s], m)) else c.servers[j]
    ensures c'.threads == c.threads[s := c.threads[s].(ballots := c'.threads[s].ballots)]
  {
    var c1 := Campaign(g, n, c, s, m, targets);
    c' := ReachStep(g, n, c1, BeElected(s));
  }

  /* ---------- Requests ---------- */

  /** A leader about to broadcast. */
  ghost predicate CanSend(c: Cluster, s: nat) {
    && Shape(c) && s < |c.servers| && c.threads[s].loop == AtSwitch
    && c.servers[s].state == Leader && CanBroadcast(c.servers[s])
  }

  /** A leader broadcasts; what it can commit, it commits. */
  lemma Commit(g: Gap, n: nat, c: Cluster, s: nat) returns (c': Cluster)
    requires At(g, n, c) && CanSend(c, s)
    ensures At(g, n, c') && c'.threads == c.threads && c'.votes == c.votes
    ensures c'.servers == c.servers[s := AdvanceCommit(c.servers[s])]
    ensures c'.appends == c.appends + HeartBeats(AdvanceCommit(c.servers[s]), c.threads[s].epoch)
  {
    var c1 := ReachStep(g, n, c, EnterBroadcast(s));
    c' := ReachStep(g, n, c1, Broadcast(s));
  }

  /** Call k is the last of its stream, and not yet delivered. */
  ghost predicate Newest(c: Cluster, k: nat, s: nat, v: nat, epoch: nat, args: AppendEntriesArgs) {
    && k < |c.appends| && c.appends[k] == Rpc(s, v, epoch, args, Sent)
    && forall j :: k < j < |c.appends| ==> c.appends[j].from != s || c.appends[j].to != v
  }

  /** A leader commits what it can and sends its requests, the newest to v. */
  lemma Send(g: Gap, n: nat, c: Cluster, s: nat, v: nat) returns (c': Cluster, k: nat)
    requires At(g, n, c) && CanSend(c, s) && v < n && v != s
    ensures At(g, n, c') && c'.threads == c.threads && c'.votes == c.votes
    ensures c'.servers == c.servers[s := AdvanceCommit(c.servers[s])]
    ensures AdvanceCommit(c.servers[s]) == c.servers[s] ==> c'.servers == c.servers
    ensures KeepsAppends(c, c') && |c.appends| <= k && forall j :: |c.appends| <= j < |c'.appends| ==> c'.appends[j].status == Sent
    ensures Newest(c', k, s, v, c.threads[s].epoch, AppendArgs(AdvanceCommit(c.servers[s]), v))
  {
    c' := Commit(g, n, c, s);
    k := |c.appends| + Slot(s, v);
    NewestIn(c, HeartBeats(AdvanceCommit(c.servers[s]), c.threads[s].epoch), c', AdvanceCommit(c.servers[s]), v, c.threads[s].epoch);
  }

  lemma NewestIn(c: Cluster, sent: seq<AppendRpc>, c': Cluster, sv: Server, v: nat, epoch: nat)
    requires sv.me < sv.peers == |sv.nextIndex| && v < sv.peers && v != sv.me
    requires forall id :: 0 <= id < sv.peers && id != sv.me ==> 1 <= sv.nextIndex[id] <= |sv.logs|
    requires sent == HeartBeats(sv, epoch) && c'.appends == c.appends + sent
    ensures KeepsAppends(c, c') && forall j :: |c.appends| <= j < |c'.appends| ==> c'.appends[j].status == Sent
    ensures Newest(c', |c.appends| + Slot(sv.me, v), sv.me, v, epoch, AppendArgs(sv, v))
  {
    assert sent[Slot(sv.me, v)].to == v;
  }

  /** Call k is not yet delivered, nor is any later one of its stream. */
  ghost predicate InTurn(c: Cluster, k: nat, s: nat, v: nat, epoch: nat, args: AppendEntriesArgs) {
    && k < |c.appends| && c.appends[k] == Rpc(s, v, epoch, args, Sent)
    && forall j :: k < j < |c.appends| && c.appends[j].from == s && c.appends[j].to == v ==> c.appends[j].status == Sent
  }

  /** A request arrives in its turn. */
  lemma Deliver(g: Gap, n: nat, c: Cluster, k: nat, s: nat, v: nat, epoch: nat, args: AppendEntriesArgs) returns (c': Cluster)
    requires At(g, n, c) && InTurn(c, k, s, v, epoch, args)
    ensures At(g, n, c') && c'.threads == c.threads && c'.votes == c.votes
    ensures v < n && c'.servers == c.servers[v := AppendEntries(c.servers[v], args).0]
    ensures c'.appends == c.appends[k := Rpc(s, v, epoch, args, Answered(AppendEntries(c.servers[v], args).1))]
  {
    c' := ReachStep(g, n, c, DeliverAppend(k));
  }

  lemma TakeAnswer(g: Gap, n: nat, c: Cluster, k: nat, s: nat, v: nat, args: AppendEntriesArgs, reply: AppendEntriesReply)
    returns (c': Cluster)
    requires At(g, n, c) && s < n && v < |c.servers[s].nextIndex| && v < |c.servers[s].matchIndex| && k < |c.appends|
    requires c.appends[k] == Rpc(s, v, c.threads[s].epoch, args, Answered(reply))
    ensures At(g, n, c') && c'.threads == c.threads && c'.votes == c.votes
    ensures c'.servers == c.servers[s := DealAppendReply(c.servers[s], v, args, reply)]
    ensures c'.appends == c.appends[k := c.appends[k].(status := Closed)]
  {
    c' := ReachStep(g, n, c, TakeAppendReply(k));
  }

  /** A leader broadcasts, which may advance its commit; v answers its request, and the leader takes the answer. */
  lemma Exchange(g: Gap, n: nat, c: Cluster, s: nat, v: nat) returns (c': Cluster)
    requires At(g, n, c) && CanSend(c, s) && v < n && v != s
    ensures At(g, n, c') && c'.threads == c.threads && c'.votes == c.votes && KeepsAppends(c, c')
    ensures var sv, w := AdvanceCommit(c.servers[s]), c.servers[v];
            var args := AppendArgs(sv, v);
            var (w', reply) := AppendEntries(w, args);
            c'.servers == c.servers[v := w'][s := DealAppendReply(sv, v, args, reply)]
  {
    var c1, k := Send(g, n, c, s, v);
    var args := AppendArgs(AdvanceCommit(c.servers[s]), v);
    var c2 := Deliver(g, n, c1, k, s, v, c.threads[s].epoch, args);
    c' := TakeAnswer(g, n, c2, k, s, v, args, AppendEntries(c.servers[v], args).1);
  }

  /** A leader sends to v, v answers, and the leader takes the answer. */
  lemma Ask(g: Gap, n: nat, c: Cluster, s: nat, v: nat) returns (c': Cluster)
    requires At(g, n, c) && CanSend(c, s) && v < n && v != s && AdvanceCommit(c.servers[s]) == c.servers[s]
    ensures At(g, n, c') && c'.threads == c.threads && c'.votes == c.votes && KeepsAppends(c, c')
    ensures var sv, w := c.servers[s], c.servers[v];
            var args := AppendArgs(sv, v);
            var (w', reply) := AppendEntries(w, args);
            c'.servers == c.servers[v := w'][s := DealAppendReply(sv, v, args, reply)]
  {
    c' := Exchange(g, n, c, s, v);
  }

  /** The peer after it took over a whole log, with nothing new committed. */
  function TakenOver(w: Server, sv: Server): Server {
    Persist((if w.currentTerm < sv.currentTerm then StepDown(w, sv.currentTerm) else w).(logs := sv.logs))
  }

  /** The peer's log agrees with the leader's up to the next index. */
  ghost predicate Fits(sv: Server, v: nat, w: Server) {
    && v < |sv.nextIndex| == |sv.matchIndex| && 1 <= sv.nextIndex[v] <= |w.logs| && sv.nextIndex[v] < |sv.logs|
    && (forall i :: 0 <= i < sv.nextIndex[v] ==> w.logs[i] == sv.logs[i])
    && w.currentTerm <= sv.currentTerm && sv.commitIndex <= w.commitIndex
  }

  /** A leader's record of a peer that has its whole log. */
  function Recorded(sv: Server, v: nat): Server
    requires v < |sv.nextIndex| == |sv.matchIndex| && |sv.logs| > 0
  {
    sv.(matchIndex := sv.matchIndex[v := LastIndex(sv.logs)], nextIndex := sv.nextIndex[v := |sv.logs|])
  }

  /** A request that fits leaves the peer with the leader's log. */
  lemma FittingIsAccepted(sv: Server, v: nat, w: Server)
    requires Indexed(sv.logs) && Fits(sv, v, w)
    ensures var args := AppendArgs(sv, v);
            && AppendEntries(w, args) == (TakenOver(w, sv), AppendEntriesReply(sv.currentTerm, true, |sv.logs|))
            && DealAppendReply(sv, v, args, AppendEntries(w, args).1) == Recorded(sv, v)
  {
    var next := sv.nextIndex[v];
    assert w.logs[..next] + sv.logs[next..] == sv.logs;
  }

  /** A leader sends the rest of its log to v. */
  lemma AskOn(g: Gap, n: nat, c: Cluster, s: nat, v: nat) returns (c': Cluster)
    requires At(g, n, c) && CanSend(c, s) && v < n && v != s && AdvanceCommit(c.servers[s]) == c.servers[s]
    requires Fits(c.servers[s], v, c.servers[v])
    ensures At(g, n, c') && c'.threads == c.threads && c'.votes == c.votes && KeepsAppends(c, c')
    ensures c'.servers == c.servers[v := TakenOver(c.servers[v], c.servers[s])][s := Recorded(c.servers[s], v)]
  {
    FittingIsAccepted(c.servers[s], v, c.servers[v]);
    c' := Ask(g, n, c, s, v);
  }

  /** The peer holds no entry of the leader's term of prevLogIndex there, nor any other term before it. */
  predicate Refuses(sv: Server, v: nat, w: Server)
    requires v < |sv.nextIndex| && 1 <= sv.nextIndex[v] <= |sv.logs| && |w.logs| > 0
  {
    var prev := sv.nextIndex[v] - 1;
    && w.currentTerm <= sv.currentTerm && prev > 0
    && (if prev > LastIndex(w.logs) then |w.logs| == 1
        else w.logs[prev].term != sv.logs[prev].term && RunStart(w.logs, prev - 1, w.logs[prev].term) == 1)
  }

  /** The peer after it refused: only its term may have changed. */
  function Informed(w: Server, sv: Server): Server {
    Persist(if w.currentTerm < sv.currentTerm then StepDown(w, sv.currentTerm) else w)
  }

  /** A leader sends to a peer that refuses, and will start over. */
  lemma AskInVain(g: Gap, n: nat, c: Cluster, s: nat, v: nat) returns (c': Cluster)
    requires At(g, n, c) && CanSend(c, s) && v < n && v != s && AdvanceCommit(c.servers[s]) == c.servers[s]
    requires Refuses(c.servers[s], v, c.servers[v])
    ensures At(g, n, c') && c'.threads == c.threads && c'.votes == c.votes && KeepsAppends(c, c')
    ensures var sv := c.servers[s];
            c'.servers == c.servers[v := Informed(c.servers[v], sv)][s := sv.(nextIndex := sv.nextIndex[v := 1])]
  {
    c' := Ask(g, n, c, s, v);
  }

  /* ---------- Applying and restarting ---------- */

  lemma ApplyNow(g: Gap, n: nat, c: Cluster, s: nat) returns (c': Cluster)
    requires At(g, n, c) && s < n && !c.threads[s].applying && c.servers[s].chanCommit > 0
    requires c.servers[s].commitIndex < |c.servers[s].logs|
    ensures At(g, n, c') && c'.threads == c.threads && c'.votes == c.votes && c'.appends == c.appends
    ensures c'.servers == c.servers[s := Apply(c.servers[s].(chanCommit := c.servers[s].chanCommit - 1))]
  {
    var c1 := ReachStep(g, n, c, TakeCommit(s));
    c' := ReachStep(g, n, c1, ApplyAll(s));
    assert c'.threads[s] == c.threads[s];
  }
}
