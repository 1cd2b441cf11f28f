/** Raft: what one event does in a run, table by table. */
module RaftMoves {
  // What one event does to the term, the role and the goroutines of a server and to the calls in flight, in every run
  // and for every server. The tables here say it without the steps of `RaftCluster` and the functions of `RaftServer`.

  import opened RaftServer
  import opened RaftCluster
  import opened RaftHistory
  import opened RaftDurable

  /* ---------- Terms and roles ---------- */

  /** The term of the message that the event brings to server s; 0 if it brings none. */
  function HeardTerm(c: Cluster, e: Event, s: nat): nat {
    match e
    case DeliverVote(k) => if k < |c.votes| && c.votes[k].to == s then c.votes[k].args.term else 0
    case TakeVoteReply(k) =>
      if k < |c.votes| && c.votes[k].from == s && c.votes[k].status.Answered? then c.votes[k].status.reply.term else 0
    case DeliverAppend(k) => if k < |c.appends| && c.appends[k].to == s then c.appends[k].args.term else 0
    case TakeAppendReply(k) =>
      if k < |c.appends| && c.appends[k].from == s && c.appends[k].status.Answered? then c.appends[k].status.reply.term else 0
    case _ => 0
  }

  /** The term after the event: one more for an own election, otherwise the larger of the own and what was heard. */
  function NewTerm(term: nat, heard: nat, e: Event, s: nat): nat {
    if e == BeginElection(s) then term + 1 else if heard > term then heard else term
  }

  /** The role after the event. Only a time-out makes a candidate, only a token a leader. */
  function NewRole(role: Role, term: nat, heard: nat, e: Event, s: nat): Role {
    if heard > term then Follower
    else if e == Timeout(s) then Candidate
    else if e == BeElected(s) then Leader
    else if e == HearHeartBeat(s) || e == Restart(s) then Follower
    else role
  }

  /** Where the statesLoop stands after the event. */
  function NewLoop(loop: Loop, e: Event, s: nat): Loop {
    if e == EnterElection(s) then BeforeElection
    else if e == BeginElection(s) then AwaitingVotes
    else if e == EnterBroadcast(s) then BeforeBroadcast
    else if e == GiveUp(s) || e == HearHeartBeat(s) || e == BeElected(s) || e == Broadcast(s) || e == Restart(s) then AtSwitch
    else loop
  }

  /** The elections whose request for votes is still to be read after the event. */
  function NewBallots(ballots: set<nat>, term: nat, e: Event, s: nat): set<nat> {
    if e == BeginElection(s) then ballots + {term + 1}
    else if e.SendBallots? && e.s == s then ballots - {e.term}
    else if e == Restart(s) then {}
    else ballots
  }

  /** Server s and its goroutines after the event. */
  ghost predicate Moved(c: Cluster, e: Event, s: nat, c': Cluster)
    requires s < |c.servers| == |c.threads|
  {
    && s < |c'.servers| == |c'.threads|
    && var sv, sv', th, th', heard := c.servers[s], c'.servers[s], c.threads[s], c'.threads[s], HeardTerm(c, e, s);
    && sv'.currentTerm == NewTerm(sv.currentTerm, heard, e, s)
    && sv'.state == NewRole(sv.state, sv.currentTerm, heard, e, s)
    && th'.loop == NewLoop(th.loop, e, s)
    && th'.ballots == NewBallots(th.ballots, sv.currentTerm, e, s)
    && th'.epoch == th.epoch + (if e == Restart(s) then 1 else 0)
    && th'.applying == (e == TakeCommit(s) || (th.applying && e != ApplyAll(s) && e != Restart(s)))
  }

  lemma CampaigningMoves(c: Cluster, e: Event)
    requires Shape(c) && Enabled(c, e) && !Faults(c, e) && Campaigning(e) && Actor(c, e) < |c.servers| == |Next(c, e).servers|
    ensures Moved(c, e, Actor(c, e), Next(c, e))
  {
  }

  lemma VotingMoves(c: Cluster, e: Event)
    requires Shape(c) && Enabled(c, e) && !Faults(c, e) && Voting(e) && Actor(c, e) < |c.servers| == |Next(c, e).servers|
    ensures Moved(c, e, Actor(c, e), Next(c, e))
  {
  }

  lemma LeadingMoves(c: Cluster, e: Event)
    requires Shape(c) && Enabled(c, e) && !Faults(c, e) && Leading(e) && Actor(c, e) < |c.servers| == |Next(c, e).servers|
    ensures Moved(c, e, Actor(c, e), Next(c, e))
  {
  }

  lemma FollowingMoves(c: Cluster, e: Event)
    requires Shape(c) && Enabled(c, e) && !Faults(c, e) && Following(e) && Actor(c, e) < |c.servers| == |Next(c, e).servers|
    requires DiskInv(c.servers[Actor(c, e)])
    ensures Moved(c, e, Actor(c, e), Next(c, e))
  {
  }

  lemma QuietMoves(c: Cluster, e: Event)
    requires Shape(c) && Enabled(c, e) && !Faults(c, e) && Quiet(e) && Actor(c, e) < |c.servers| == |Next(c, e).servers|
    ensures Moved(c, e, Actor(c, e), Next(c, e))
  {
  }

  lemma ActorMoves(c: Cluster, e: Event)
    requires Shape(c) && Enabled(c, e) && !Faults(c, e) && Actor(c, e) < |c.servers| == |Next(c, e).servers|
    requires DiskInv(c.servers[Actor(c, e)])
    ensures Moved(c, e, Actor(c, e), Next(c, e))
  {
    if Campaigning(e) {
      CampaigningMoves(c, e);
    } else if Voting(e) {
      VotingMoves(c, e);
    } else if Leading(e) {
      LeadingMoves(c, e);
    } else if Following(e) {
      FollowingMoves(c, e);
    } else {
      QuietMoves(c, e);
    }
  }

  /**
   * In every run the term, the role and the goroutines of every server follow these tables. So a server is never
   * behind a message it has dealt with, be it a request or an answer, and gives its office up for a later term.
   */
  lemma EventMoves(n: nat, states: seq<Cluster>, events: seq<Event>, i: nat, s: nat)
    requires Run(n, states, events) && i < |events| && s < n
    ensures |states[i].servers| == |states[i].threads| == n && Moved(states[i], events[i], s, states[i + 1])
  {
    var c, e := states[i], events[i];
    DurableState(n, states, events, i);
    assert StepAt(states, events, i);
    ActorShape(c, e);
    ShapeKept(c, e);
    if s == Actor(c, e) {
      assert DiskInv(c.servers[s]);
      ActorMoves(c, e);
    }
  }

  /* ---------- Calls ---------- */

  /** The calls of c are calls of c', but for the status of call k, if that is the call the event moves on. */
  ghost predicate VotesMoveOn(c: Cluster, e: Event, c': Cluster) {
    && |c.votes| <= |c'.votes|
    && forall k :: 0 <= k < |c.votes| ==>
      && c'.votes[k] == c.votes[k].(status := c'.votes[k].status)
      && (if e == DeliverVote(k) then c.votes[k].status.Sent? && c'.votes[k].status.Answered?
          else if e == TakeVoteReply(k) then c.votes[k].status.Answered? && c'.votes[k].status.Closed?
          else c'.votes[k].status == c.votes[k].status)
  }

  ghost predicate AppendsMoveOn(c: Cluster, e: Event, c': Cluster) {
    && |c.appends| <= |c'.appends|
    && forall k :: 0 <= k < |c.appends| ==>
      && c'.appends[k] == c.appends[k].(status := c'.appends[k].status)
      && (if e == DeliverAppend(k) then c.appends[k].status.Sent? && c'.appends[k].status.Answered?
          else if e == TakeAppendReply(k) then c.appends[k].status.Answered? && c'.appends[k].status.Closed?
          else c'.appends[k].status == c.appends[k].status)
  }

  lemma StepMovesVotes(c: Cluster, e: Event)
    requires Shape(c) && Enabled(c, e) && !Faults(c, e)
    ensures VotesMoveOn(c, e, Next(c, e))
  {
  }

  lemma BroadcastMovesAppends(c: Cluster, s: nat)
    requires Shape(c) && Enabled(c, Broadcast(s)) && !Faults(c, Broadcast(s))
    ensures AppendsMoveOn(c, Broadcast(s), DoBroadcast(c, s))
  {
  }

  lemma StepMovesAppends(c: Cluster, e: Event)
    requires Shape(c) && Enabled(c, e) && !Faults(c, e)
    ensures AppendsMoveOn(c, e, Next(c, e))
  {
    if e.Broadcast? {
      BroadcastMovesAppends(c, e.s);
    }
  }

  /** A call is delivered at most once and its answer is taken at most once; nothing else about a call ever changes. */
  lemma CallsMoveOn(n: nat, states: seq<Cluster>, events: seq<Event>, i: nat)
    requires Run(n, states, events) && i < |events|
    ensures VotesMoveOn(states[i], events[i], states[i + 1]) && AppendsMoveOn(states[i], events[i], states[i + 1])
  {
    assert StepAt(states, events, i);
    StepMovesVotes(states[i], events[i]);
    StepMovesAppends(states[i], events[i]);
  }

  /** The event runs its section of the program in the server it acts on and, if it brings a call, answers that call. */
  ghost predicate RunsSection(c: Cluster, e: Event, c': Cluster)
    requires Shape(c) && Enabled(c, e) && !Faults(c, e)
  {
    match e
    case BeginElection(s) => c'.servers == c.servers[s := NewElection(c.servers[s])]
    case BeElected(s) => c'.servers == c.servers[s := ComeToPower(c.servers[s])]
    case Broadcast(s) => c'.servers == c.servers[s := AdvanceCommit(c.servers[s])]
    case DeliverVote(k) =>
      var (sv, reply) := RequestVote(c.servers[c.votes[k].to], c.votes[k].args);
      c'.servers == c.servers[c.votes[k].to := sv] && |c'.votes| == |c.votes| && c'.votes[k].status == Answered(reply)
    case TakeVoteReply(k) =>
      var m := c.votes[k];
      c'.servers == c.servers[m.from := DealVoteReply(c.servers[m.from], m.args, m.status.reply)]
    case DeliverAppend(k) =>
      var (sv, reply) := AppendEntries(c.servers[c.appends[k].to], c.appends[k].args);
      c'.servers == c.servers[c.appends[k].to := sv] && |c'.appends| == |c.appends| && c'.appends[k].status == Answered(reply)
    case TakeAppendReply(k) =>
      var m := c.appends[k];
      c'.servers == c.servers[m.from := DealAppendReply(c.servers[m.from], m.to, m.args, m.status.reply)]
    case ClientStart(s, command) => c'.servers == c.servers[s := Start(c.servers[s], command)]
    case TakeCommit(s) => c'.servers == c.servers[s := c.servers[s].(chanCommit := c.servers[s].chanCommit - 1)]
    case ApplyAll(s) => c'.servers == c.servers[s := Apply(c.servers[s])]
    case Restart(s) => c'.servers == c.servers[s := Make(s, |c.servers|, c.servers[s].disk)]
    case _ =>
      |c'.servers| == |c.servers| && forall s :: 0 <= s < |c.servers| ==> c'.servers[s] == c.servers[s].(state := c'.servers[s].state)
  }

  lemma StepRunsSection(c: Cluster, e: Event)
    requires Shape(c) && Enabled(c, e) && !Faults(c, e)
    ensures RunsSection(c, e, Next(c, e))
  {
  }

  /** Every step of every run is one section of the program run in one server. */
  lemma StepsAreSections(n: nat, states: seq<Cluster>, events: seq<Event>, i: nat)
    requires Run(n, states, events) && i < |events|
    ensures Step(states[i], events[i], states[i + 1]) && RunsSection(states[i], events[i], states[i + 1])
  {
    assert StepAt(states, events, i);
    StepRunsSection(states[i], events[i]);
  }

  /* ---------- Requests ---------- */

  /** Request m to peer id, made by server sv from its record of that peer. */
  ghost predicate Describes(m: AppendRpc, sv: Server, s: nat, id: nat, epoch: nat) {
    && m.from == s && m.to == id && m.epoch == epoch && m.status == Sent
    && m.args.term == sv.currentTerm && m.args.leaderId == s && m.args.leaderCommit == sv.commitIndex
    && id < |sv.nextIndex| && m.args.prevLogIndex + 1 == sv.nextIndex[id] <= |sv.logs|
    && m.args.prevLogTerm == sv.logs[m.args.prevLogIndex].term
    && m.args.entries == sv.logs[sv.nextIndex[id]..]
  }

  ghost predicate AsksPeer(c: Cluster, x: nat, s: nat, id: nat, epoch: nat)
    requires s < |c.servers| && id < |c.servers| && id != s && x + |c.servers| == |c.appends| + 1
  {
    Describes(c.appends[x + Slot(s, id)], c.servers[s], s, id, epoch)
  }

  /** Requests from the x-th on: one for every peer of s, in order, and no more. */
  ghost predicate AsksEverybody(c: Cluster, x: nat, s: nat, epoch: nat)
    requires s < |c.servers|
  {
    && |c.appends| == x + |c.servers| - 1
    && forall id {:trigger AsksPeer(c, x, s, id, epoch)} :: 0 <= id < |c.servers| && id != s ==> AsksPeer(c, x, s, id, epoch)
  }

  lemma HeartBeatDescribes(sv: Server, epoch: nat, id: nat)
    requires sv.me < sv.peers == |sv.nextIndex| && id < sv.peers && id != sv.me
    requires forall j :: 0 <= j < sv.peers && j != sv.me ==> 1 <= sv.nextIndex[j] <= |sv.logs|
    ensures Describes(HeartBeats(sv, epoch)[Slot(sv.me, id)], sv, sv.me, id, epoch)
  {
  }

  lemma HeartBeatsAsk(x: nat, sent: seq<AppendRpc>, c': Cluster, s: nat, epoch: nat)
    requires s < |c'.servers| && x == |sent|
    requires var sv := c'.servers[s];
             && sv.me == s && sv.peers == |sv.nextIndex| == |c'.servers|
             && (forall j :: 0 <= j < sv.peers && j != s ==> 1 <= sv.nextIndex[j] <= |sv.logs|)
             && c'.appends == sent + HeartBeats(sv, epoch)
    ensures AsksEverybody(c', x, s, epoch)
  {
    forall id | 0 <= id < |c'.servers| && id != s
      ensures AsksPeer(c', x, s, id, epoch)
    {
      HeartBeatDescribes(c'.servers[s], epoch, id);
      assert c'.appends[x + Slot(s, id)] == HeartBeats(c'.servers[s], epoch)[Slot(s, id)];
    }
  }

  lemma BroadcastAsks(c: Cluster, s: nat)
    requires Shape(c) && s < |c.servers| && CanBroadcast(c.servers[s])
    ensures var c' := DoBroadcast(c, s);
            && |c'.servers| == |c.servers| && |c.appends| <= |c'.appends|
            && (if c.servers[s].state == Leader then AsksEverybody(c', |c.appends|, s, c.threads[s].epoch)
                else c'.appends == c.appends)
  {
    if c.servers[s].state == Leader {
      HeartBeatsAsk(|c.appends|, c.appends, DoBroadcast(c, s), s, c.threads[s].epoch);
    }
  }

  /**
   * A leader's broadcast sends one request to every peer, with the log from that peer's nextIndex to the end and the
   * commitIndex just advanced; a server that does not lead sends none.
   */
  lemma BroadcastAsksEverybody(n: nat, states: seq<Cluster>, events: seq<Event>, i: nat, s: nat)
    requires Run(n, states, events) && i < |events| && events[i] == Broadcast(s)
    ensures s < n == |states[i].servers| == |states[i + 1].servers| == |states[i].threads|
    ensures |states[i].appends| <= |states[i + 1].appends|
    ensures if states[i].servers[s].state == Leader
            then AsksEverybody(states[i + 1], |states[i].appends|, s, states[i].threads[s].epoch)
            else states[i + 1].appends == states[i].appends
  {
    DurableState(n, states, events, i);
    assert StepAt(states, events, i);
    BroadcastAsks(states[i], s);
  }

  /** Server s has the term and the last entry that the request for votes describes. */
  ghost predicate AskedAt(c: Cluster, m: VoteRpc) {
    && m.from < |c.servers| && |c.servers[m.from].logs| > 0
    && var sv := c.servers[m.from];
    && m.args.candidateId == m.from && m.args.term == sv.currentTerm
    && m.args.lastLogIndex == |sv.logs| - 1 && m.args.lastLogTerm == sv.logs[|sv.logs| - 1].term
  }

  lemma NewBallot(c: Cluster, e: Event, k: nat)
    requires Shape(c) && Enabled(c, e) && !Faults(c, e) && |c.votes| <= k < |Next(c, e).votes|
    ensures e.SendBallots? && k - |c.votes| < |e.targets|
    ensures var m := Next(c, e).votes[k];
            AskedAt(c, m) && m.from == e.s && m.to == e.targets[k - |c.votes|] && m.status == Sent
  {
  }

  /** Every request for votes was made by its sender in the term and with the log it describes. */
  lemma {:induction false} EveryBallotWasAsked(n: nat, states: seq<Cluster>, events: seq<Event>, i: nat, k: nat)
    requires Run(n, states, events) && i < |states| && k < |states[i].votes|
    ensures exists j :: 0 <= j <= i && AskedAt(states[j], states[i].votes[k])
  {
    if i > 0 {
      assert StepAt(states, events, i - 1);
      var c, e := states[i - 1], events[i - 1];
      if k < |c.votes| {
        StepMovesVotes(c, e);
        EveryBallotWasAsked(n, states, events, i - 1, k);
        var j :| 0 <= j <= i - 1 && AskedAt(states[j], c.votes[k]);
        assert AskedAt(states[j], states[i].votes[k]);
      } else {
        NewBallot(c, e, k);
        assert AskedAt(states[i - 1], states[i].votes[k]);
      }
    }
  }
}
