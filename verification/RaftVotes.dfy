/** Raft: elections in clusters of at most three servers. */
module RaftVotes {
  // Election Safety needs both timely assumptions in general. In a cluster of at most three servers one of them is
  // enough: whoever leads a term voted for itself in it and has the vote of another server, and two leaders would
  // need two such pairs.

  import opened RaftServer
  import opened RaftCluster
  import opened RaftDurable
  import opened RaftSafety

  ghost predicate TokenAt(states: seq<Cluster>, events: seq<Event>, i: nat)
    requires i < |events| == |states| - 1
  {
    StepAt(states, events, i) && TokenIsCurrent(states[i], events[i])
  }

  /** A run in which a server takes power only with a token of the term it is in. */
  ghost predicate TokenRun(n: nat, states: seq<Cluster>, events: seq<Event>) {
    && Run(n, states, events)
    && forall i {:trigger TokenAt(states, events, i)} :: 0 <= i < |events| ==> TokenAt(states, events, i)
  }

  ghost predicate HasVoted(c: Cluster, v: nat, t: nat, b: nat) {
    v < |c.servers| && c.servers[v].currentTerm == t && c.servers[v].votedFor == b
  }

  /** By moment i, server v had its vote in term t for b. */
  ghost predicate VotedBy(states: seq<Cluster>, i: nat, v: nat, t: nat, b: nat) {
    exists j: nat :: j <= i && j < |states| && HasVoted(states[j], v, t, b)
  }

  /** By moment i, another server than s had voted for s in term t. */
  ghost predicate Backed(states: seq<Cluster>, i: nat, s: nat, t: nat) {
    exists v: nat :: v != s && VotedBy(states, i, v, t, s)
  }

  lemma BackedLater(states: seq<Cluster>, i: nat, j: nat, s: nat, t: nat)
    requires i <= j && Backed(states, i, s, t)
    ensures Backed(states, j, s, t)
  {
    var v: nat :| v != s && VotedBy(states, i, v, t, s);
    assert VotedBy(states, j, v, t, s);
  }

  /** The request asks for its sender, and a vote granted was cast. */
  ghost predicate BallotKept(states: seq<Cluster>, i: nat, m: VoteRpc) {
    && m.args.candidateId == m.from
    && (m.status.Answered? && m.status.reply.voteGranted ==> VotedBy(states, i, m.to, m.args.term, m.from))
  }

  ghost predicate TokenKept(states: seq<Cluster>, i: nat, sv: Server, th: Threads, s: nat, x: nat)
    requires x < |sv.chanBeElected|
  {
    var t := sv.chanBeElected[x];
    t <= sv.currentTerm && Backed(states, i, s, t) && (t == sv.currentTerm && th.loop == AwaitingVotes ==> sv.votedFor == s)
  }

  /** A candidate that awaits votes voted for itself, and so did a leader, who has another vote besides. */
  ghost predicate CandidateKept(states: seq<Cluster>, i: nat, sv: Server, th: Threads, s: nat) {
    && InRole(sv, th, s)
    && (sv.state == Leader ==> sv.votedFor == s && Backed(states, i, s, sv.currentTerm))
    && forall x {:trigger TokenKept(states, i, sv, th, s, x)} :: 0 <= x < |sv.chanBeElected| ==> TokenKept(states, i, sv, th, s, x)
  }

  ghost predicate ElectionsKept(states: seq<Cluster>, i: nat)
    requires i < |states|
  {
    var c := states[i];
    && Shape(c)
    && (forall k {:trigger BallotKept(states, i, c.votes[k])} :: 0 <= k < |c.votes| ==> BallotKept(states, i, c.votes[k]))
    && forall s {:trigger CandidateKept(states, i, c.servers[s], c.threads[s], s)} ::
      0 <= s < |c.servers| ==> CandidateKept(states, i, c.servers[s], c.threads[s], s)
  }

  lemma BallotLater(states: seq<Cluster>, i: nat, m: VoteRpc)
    requires BallotKept(states, i, m)
    ensures BallotKept(states, i + 1, m)
  {
  }

  lemma TokensLater(states: seq<Cluster>, i: nat, sv: Server, th: Threads, s: nat)
    requires CandidateKept(states, i, sv, th, s)
    ensures CandidateKept(states, i + 1, sv, th, s)
  {
    if sv.state == Leader {
      BackedLater(states, i, i + 1, s, sv.currentTerm);
    }
    var j := i + 1;
    forall x | 0 <= x < |sv.chanBeElected|
      ensures TokenKept(states, j, sv, th, s, x)
    {
      assert TokenKept(states, i, sv, th, s, x);
      BackedLater(states, i, j, s, sv.chanBeElected[x]);
    }
  }

  /** Where the goroutine and the role of a server can be together. */
  ghost predicate InRole(sv: Server, th: Threads, s: nat) {
    && (th.loop == BeforeElection || th.loop == AwaitingVotes ==> sv.state != Leader)
    && (th.loop == AwaitingVotes && sv.state == Candidate ==> sv.votedFor == s)
  }

  /** A change that adds no token, makes no leader, moves to a later term only as a non-leader or by an own election. */
  ghost predicate QuietChange(sv: Server, th: Threads, sv': Server, th': Threads, s: nat) {
    && sv'.chanBeElected == sv.chanBeElected && sv.currentTerm <= sv'.currentTerm
    && (sv'.state == Leader ==> sv.state == Leader && sv'.currentTerm == sv.currentTerm)
    && (sv'.currentTerm == sv.currentTerm && sv.votedFor != NOBODY ==> sv'.votedFor == sv.votedFor)
    && (th'.loop == AwaitingVotes && sv'.currentTerm == sv.currentTerm ==> th.loop == AwaitingVotes)
    && InRole(sv', th', s)
  }

  lemma QuietKept(states: seq<Cluster>, i: nat, sv: Server, th: Threads, s: nat, sv': Server, th': Threads)
    requires CandidateKept(states, i, sv, th, s) && QuietChange(sv, th, sv', th', s)
    ensures CandidateKept(states, i, sv', th', s)
  {
    forall x | 0 <= x < |sv'.chanBeElected|
      ensures TokenKept(states, i, sv', th', s, x)
    {
      assert TokenKept(states, i, sv, th, s, x);
    }
  }

  lemma LoopIsQuiet(c: Cluster, e: Event)
    requires Shape(c) && Enabled(c, e) && !Faults(c, e)
    requires e.Timeout? || e.EnterElection? || e.BeginElection? || e.SendBallots? || e.GiveUp? || e.HearHeartBeat? || e.EnterBroadcast? || e.Broadcast?
    requires Actor(c, e) < |c.servers| == |Next(c, e).servers| == |Next(c, e).threads|
    requires InRole(c.servers[e.s], c.threads[e.s], e.s)
    ensures QuietChange(c.servers[e.s], c.threads[e.s], Next(c, e).servers[e.s], Next(c, e).threads[e.s], e.s)
  {
  }

  lemma VoteIsQuiet(sv: Server, th: Threads, args: RequestVoteArgs, s: nat)
    requires |sv.logs| > 0 && InRole(sv, th, s)
    ensures QuietChange(sv, th, RequestVote(sv, args).0, th, s)
  {
  }

  lemma AppendIsQuiet(sv: Server, th: Threads, args: AppendEntriesArgs, s: nat)
    requires |sv.logs| > 0 && InRole(sv, th, s)
    ensures QuietChange(sv, th, AppendEntries(sv, args).0, th, s)
  {
  }

  lemma ReplyIsQuiet(sv: Server, th: Threads, id: nat, args: AppendEntriesArgs, reply: AppendEntriesReply, s: nat)
    requires InRole(sv, th, s) && (UpdatesPeer(sv, args, reply) ==> id < |sv.nextIndex| && id < |sv.matchIndex|)
    ensures QuietChange(sv, th, DealAppendReply(sv, id, args, reply), th, s)
  {
  }

  lemma CallIsQuiet(c: Cluster, e: Event)
    requires Shape(c) && Enabled(c, e) && !Faults(c, e)
    requires e.DeliverVote? || e.DeliverAppend? || e.TakeAppendReply?
    requires var s := Actor(c, e);
             s < |c.servers| == |Next(c, e).servers| == |Next(c, e).threads| && InRole(c.servers[s], c.threads[s], s)
    ensures var s := Actor(c, e);
            QuietChange(c.servers[s], c.threads[s], Next(c, e).servers[s], Next(c, e).threads[s], s)
  {
    var s := Actor(c, e);
    var sv, th := c.servers[s], c.threads[s];
    match e
    case DeliverVote(k) => VoteIsQuiet(sv, th, c.votes[k].args, s);
    case DeliverAppend(k) => AppendIsQuiet(sv, th, c.appends[k].args, s);
    case TakeAppendReply(k) =>
      ReplyIsQuiet(sv, th, c.appends[k].to, c.appends[k].args, c.appends[k].status.reply, s);
  }

  lemma LocalIsQuiet(c: Cluster, e: Event)
    requires Shape(c) && Enabled(c, e) && !Faults(c, e)
    requires e.ClientStart? || e.TakeCommit? || e.ApplyAll?
    requires Actor(c, e) < |c.servers| == |Next(c, e).servers| == |Next(c, e).threads|
    requires InRole(c.servers[e.s], c.threads[e.s], e.s)
    ensures QuietChange(c.servers[e.s], c.threads[e.s], Next(c, e).servers[e.s], Next(c, e).threads[e.s], e.s)
  {
  }

  /** Taking power with a token of the present term. */
  lemma PowerKept(states: seq<Cluster>, i: nat, sv: Server, th: Threads, s: nat)
    requires CandidateKept(states, i, sv, th, s) && th.loop == AwaitingVotes && |sv.logs| > 0
    requires |sv.chanBeElected| > 0 && sv.chanBeElected[0] == sv.currentTerm
    ensures CandidateKept(states, i, ComeToPower(sv), th.(loop := AtSwitch), s)
  {
    assert TokenKept(states, i, sv, th, s, 0);
    var sv' := ComeToPower(sv);
    forall x | 0 <= x < |sv'.chanBeElected|
      ensures TokenKept(states, i, sv', th.(loop := AtSwitch), s, x)
    {
      assert TokenKept(states, i, sv, th, s, x + 1);
    }
  }

  /** Counting a vote. */
  lemma CountKept(states: seq<Cluster>, i: nat, sv: Server, th: Threads, s: nat, m: VoteRpc)
    requires CandidateKept(states, i, sv, th, s) && m.from == s && m.to != s && m.status.Answered?
    requires BallotKept(states, i, m)
    ensures CandidateKept(states, i, DealVoteReply(sv, m.args, m.status.reply), th, s)
  {
    var sv' := DealVoteReply(sv, m.args, m.status.reply);
    if CountsVote(sv, m.args, m.status.reply) {
      assert VotedBy(states, i, m.to, sv.currentTerm, s);
    }
    forall x | 0 <= x < |sv'.chanBeElected|
      ensures TokenKept(states, i, sv', th, s, x)
    {
      if x < |sv.chanBeElected| {
        assert TokenKept(states, i, sv, th, s, x);
      }
    }
  }

  /** The event changes the standing of its actor only for the worse, or by an own election. */
  predicate StandsAtMost(e: Event) {
    !(e.BeElected? || e.TakeVoteReply? || e.Restart?)
  }

  lemma EventIsQuiet(c: Cluster, e: Event)
    requires Shape(c) && Enabled(c, e) && !Faults(c, e) && StandsAtMost(e)
    requires var s := Actor(c, e);
             s < |c.servers| == |Next(c, e).servers| == |Next(c, e).threads| && InRole(c.servers[s], c.threads[s], s)
    ensures var s := Actor(c, e);
            QuietChange(c.servers[s], c.threads[s], Next(c, e).servers[s], Next(c, e).threads[s], s)
  {
    if e.DeliverVote? || e.DeliverAppend? || e.TakeAppendReply? {
      CallIsQuiet(c, e);
    } else if e.ClientStart? || e.TakeCommit? || e.ApplyAll? {
      LocalIsQuiet(c, e);
    } else {
      LoopIsQuiet(c, e);
    }
  }

  lemma RestartKept(states: seq<Cluster>, i: nat, sv: Server, s: nat, epoch: nat)
    ensures CandidateKept(states, i, Make(s, sv.peers, sv.disk), Threads(AtSwitch, false, {}, epoch), s)
  {
  }

  /** The server and goroutines after a step that is not quiet. */
  lemma StandingKept(states: seq<Cluster>, i: nat, c: Cluster, e: Event)
    requires Shape(c) && Enabled(c, e) && !Faults(c, e) && TokenIsCurrent(c, e) && !StandsAtMost(e)
    requires Actor(c, e) < |c.servers|
    requires CandidateKept(states, i, c.servers[Actor(c, e)], c.threads[Actor(c, e)], Actor(c, e))
    requires e.TakeVoteReply? ==> BallotKept(states, i, c.votes[e.k])
    ensures var s, c' := Actor(c, e), Next(c, e);
            s < |c'.servers| == |c'.threads| && CandidateKept(states, i, c'.servers[s], c'.threads[s], s)
  {
    var s := Actor(c, e);
    match e
    case BeElected(_) => PowerKept(states, i, c.servers[s], c.threads[s], s);
    case TakeVoteReply(k) => CountKept(states, i, c.servers[s], c.threads[s], s, c.votes[k]);
    case Restart(_) => RestartKept(states, i, c.servers[s], s, c.threads[s].epoch + 1);
  }

  /** The server and goroutines the event acts on. */
  lemma ActorKept(states: seq<Cluster>, events: seq<Event>, i: nat)
    requires i < |events| == |states| - 1 && TokenAt(states, events, i) && ElectionsKept(states, i)
    requires Actor(states[i], events[i]) < |states[i].servers| == |states[i + 1].servers| == |states[i + 1].threads|
    ensures var s, c' := Actor(states[i], events[i]), states[i + 1];
            CandidateKept(states, i, c'.servers[s], c'.threads[s], s)
  {
    var c, e, c' := states[i], events[i], states[i + 1];
    var s := Actor(c, e);
    assert CandidateKept(states, i, c.servers[s], c.threads[s], s);
    if StandsAtMost(e) {
      EventIsQuiet(c, e);
      QuietKept(states, i, c.servers[s], c.threads[s], s, c'.servers[s], c'.threads[s]);
    } else {
      if e.TakeVoteReply? {
        assert BallotKept(states, i, c.votes[e.k]);
      }
      StandingKept(states, i, c, e);
    }
  }

  /** A vote granted in this step was cast in it. */
  lemma VoteCast(states: seq<Cluster>, events: seq<Event>, i: nat, k: nat)
    requires i < |events| == |states| - 1 && StepAt(states, events, i) && ElectionsKept(states, i)
    requires k < |states[i + 1].votes|
    ensures BallotKept(states, i + 1, states[i + 1].votes[k])
  {
    var c, e, c' := states[i], events[i], states[i + 1];
    if k < |c.votes| {
      assert BallotKept(states, i, c.votes[k]);
      BallotLater(states, i, c.votes[k]);
      if e == DeliverVote(k) {
        var m := c'.votes[k];
        if m.status.reply.voteGranted {
          assert HasVoted(c', m.to, m.args.term, m.from);
        }
      }
    }
  }

  lemma ElectionStep(states: seq<Cluster>, events: seq<Event>, i: nat)
    requires i < |events| == |states| - 1 && TokenAt(states, events, i) && ElectionsKept(states, i) && Durably(states[i])
    ensures ElectionsKept(states, i + 1)
  {
    var c, e, c' := states[i], events[i], states[i + 1];
    ActorShape(c, e);
    ShapeKept(c, e);
    ActorKept(states, events, i);
    forall s | 0 <= s < |c'.servers|
      ensures CandidateKept(states, i + 1, c'.servers[s], c'.threads[s], s)
    {
      if s != Actor(c, e) {
        assert CandidateKept(states, i, c.servers[s], c.threads[s], s);
      }
      TokensLater(states, i, c'.servers[s], c'.threads[s], s);
    }
    forall k | 0 <= k < |c'.votes|
      ensures BallotKept(states, i + 1, c'.votes[k])
    {
      VoteCast(states, events, i, k);
    }
  }

  lemma {:induction false} ElectionsHold(n: nat, states: seq<Cluster>, events: seq<Event>, i: nat)
    requires TokenRun(n, states, events) && i < |states|
    ensures ElectionsKept(states, i)
  {
    DurableState(n, states, events, i);
    if i == 0 {
      forall s | 0 <= s < n
        ensures CandidateKept(states, 0, states[0].servers[s], states[0].threads[s], s)
      {
      }
    } else {
      ElectionsHold(n, states, events, i - 1);
      DurableState(n, states, events, i - 1);
      assert TokenAt(states, events, i - 1);
      ElectionStep(states, events, i - 1);
    }
  }

  /** A leader voted for itself in its term, and so did some other server. */
  lemma LeaderIsBacked(n: nat, states: seq<Cluster>, events: seq<Event>, i: nat, s: nat, term: nat)
    returns (v: nat, j: nat)
    requires TokenRun(n, states, events) && i < |states| && IsLeader(states[i], s, term)
    ensures HasVoted(states[i], s, term, s) && s < n
    ensures v != s && v < n && j <= i && HasVoted(states[j], v, term, s)
  {
    ElectionsHold(n, states, events, i);
    DurableState(n, states, events, i);
    assert CandidateKept(states, i, states[i].servers[s], states[i].threads[s], s);
    v :| v != s && VotedBy(states, i, v, term, s);
    j :| j <= i && j < |states| && HasVoted(states[j], v, term, s);
    DurableState(n, states, events, j);
  }

  lemma VotesOnce(n: nat, states: seq<Cluster>, events: seq<Event>, i: nat, j: nat, v: nat, t: nat, a: nat, b: nat)
    requires Run(n, states, events) && i < |states| && j < |states|
    requires HasVoted(states[i], v, t, a) && HasVoted(states[j], v, t, b)
    ensures a == b
  {
    DurableState(n, states, events, i);
    DurableState(n, states, events, j);
    OneVotePerTerm(n, states, events, i, j, v);
  }

  /**
   * In a cluster of at most three servers, current tokens alone give Election Safety, even if requests for votes are
   * read in a later term than their election.
   */
  lemma FewServersElectOne(n: nat, states: seq<Cluster>, events: seq<Event>, i: nat, j: nat, a: nat, b: nat, term: nat)
    requires TokenRun(n, states, events) && i < |states| && j < |states| && n <= 3
    requires IsLeader(states[i], a, term) && IsLeader(states[j], b, term)
    ensures a == b
  {
    var v, iv := LeaderIsBacked(n, states, events, i, a, term);
    var w, jw := LeaderIsBacked(n, states, events, j, b, term);
    if a != b {
      if v == b {
        VotesOnce(n, states, events, iv, j, b, term, a, b);
      } else if w == a {
        VotesOnce(n, states, events, i, jw, a, term, a, b);
      } else {
        assert v == w;
        VotesOnce(n, states, events, iv, jw, v, term, a, b);
      }
    }
  }
}
