/** Raft: what holds in every run. */
module RaftDurable {
  // Without any assumption on timing or order, the disk equals memory between steps, a server votes at most once per
  // term across crashes, and a commit that is not yet applied is announced.

  import opened RaftServer
  import opened RaftCluster
  import opened RaftHistory

  /** A commit that is not yet applied has a token in chanCommit, or applyLoop holds one. */
  ghost predicate Announced(sv: Server, th: Threads) {
    sv.commitIndex > sv.lastApplied ==> sv.chanCommit > 0 || th.applying
  }

  ghost predicate Durably(c: Cluster) {
    && |c.threads| == |c.servers|
    && forall s {:trigger DiskInv(c.servers[s])} {:trigger Announced(c.servers[s], c.threads[s])} ::
      0 <= s < |c.servers| ==> DiskInv(c.servers[s]) && Announced(c.servers[s], c.threads[s])
  }

  /** The term never falls, and within a term a vote once given stays. */
  ghost predicate VoteKept(sv: Server, sv': Server) {
    && sv.currentTerm <= sv'.currentTerm
    && (sv'.currentTerm == sv.currentTerm && sv.votedFor != NOBODY ==> sv'.votedFor == sv.votedFor)
  }

  ghost predicate ActorBefore(c: Cluster, e: Event)
    requires Shape(c) && Enabled(c, e) && !Faults(c, e)
  {
    var s := Actor(c, e);
    s < |c.servers| == |Next(c, e).servers| == |Next(c, e).threads| && DiskInv(c.servers[s]) && Announced(c.servers[s], c.threads[s])
  }

  /** What a step does to the server it acts on. */
  ghost predicate ActorDurable(c: Cluster, e: Event)
    requires Shape(c) && Enabled(c, e) && !Faults(c, e) && ActorBefore(c, e)
  {
    var s, c' := Actor(c, e), Next(c, e);
    DiskInv(c'.servers[s]) && Announced(c'.servers[s], c'.threads[s]) && VoteKept(c.servers[s], c'.servers[s])
  }

  lemma CampaigningDurable(c: Cluster, e: Event)
    requires Shape(c) && Enabled(c, e) && !Faults(c, e) && Campaigning(e) && ActorBefore(c, e)
    ensures ActorDurable(c, e)
  {
  }

  lemma VotingDurable(c: Cluster, e: Event)
    requires Shape(c) && Enabled(c, e) && !Faults(c, e) && Voting(e) && ActorBefore(c, e)
    ensures ActorDurable(c, e)
  {
  }

  lemma LeadingDurable(c: Cluster, e: Event)
    requires Shape(c) && Enabled(c, e) && !Faults(c, e) && Leading(e) && ActorBefore(c, e)
    ensures ActorDurable(c, e)
  {
  }

  lemma RequestDurable(sv: Server, th: Threads, args: AppendEntriesArgs)
    requires |sv.logs| > 0 && DiskInv(sv) && Announced(sv, th)
    ensures var sv' := AppendEntries(sv, args).0; DiskInv(sv') && Announced(sv', th) && VoteKept(sv, sv')
  {
  }

  lemma FollowingDurable(c: Cluster, e: Event)
    requires Shape(c) && Enabled(c, e) && !Faults(c, e) && Following(e) && ActorBefore(c, e)
    ensures ActorDurable(c, e)
  {
    if e.DeliverAppend? {
      RequestDurable(c.servers[Actor(c, e)], c.threads[Actor(c, e)], c.appends[e.k].args);
    }
  }

  lemma QuietDurable(c: Cluster, e: Event)
    requires Shape(c) && Enabled(c, e) && !Faults(c, e) && Quiet(e) && ActorBefore(c, e)
    ensures ActorDurable(c, e)
  {
  }

  lemma ActsDurably(c: Cluster, e: Event)
    requires Shape(c) && Enabled(c, e) && !Faults(c, e) && ActorBefore(c, e)
    ensures ActorDurable(c, e)
  {
    if Campaigning(e) {
      CampaigningDurable(c, e);
    } else if Voting(e) {
      VotingDurable(c, e);
    } else if Leading(e) {
      LeadingDurable(c, e);
    } else if Following(e) {
      FollowingDurable(c, e);
    } else {
      QuietDurable(c, e);
    }
  }

  lemma StepDurable(c: Cluster, e: Event)
    requires Shape(c) && Enabled(c, e) && !Faults(c, e) && Durably(c)
    ensures Durably(Next(c, e)) && |Next(c, e).servers| == |c.servers|
    ensures forall s {:trigger VoteKept(c.servers[s], Next(c, e).servers[s])} ::
      0 <= s < |c.servers| ==> VoteKept(c.servers[s], Next(c, e).servers[s])
  {
    ActorShape(c, e);
    ShapeKept(c, e);
    assert DiskInv(c.servers[Actor(c, e)]) && Announced(c.servers[Actor(c, e)], c.threads[Actor(c, e)]);
    ActsDurably(c, e);
    forall s | 0 <= s < |c.servers|
      ensures DiskInv(Next(c, e).servers[s]) && Announced(Next(c, e).servers[s], Next(c, e).threads[s])
      ensures VoteKept(c.servers[s], Next(c, e).servers[s])
    {
      if s != Actor(c, e) {
        assert DiskInv(c.servers[s]);
      }
    }
  }

  /**
   * At every moment of every run: each server's disk holds its term, vote and log (an empty disk stands for
   * the initial ones), and a commitIndex ahead of lastApplied has a token pending or being processed.
   */
  lemma {:induction false} DurableState(n: nat, states: seq<Cluster>, events: seq<Event>, i: nat)
    requires Run(n, states, events) && i < |states|
    ensures Shape(states[i]) && Durably(states[i]) && |states[i].servers| == n
  {
    if i > 0 {
      DurableState(n, states, events, i - 1);
      assert StepAt(states, events, i - 1);
      StepDurable(states[i - 1], events[i - 1]);
      ShapeKept(states[i - 1], events[i - 1]);
    }
  }

  /** A restart is invisible in what Raft keeps on disk. */
  lemma RestartRestores(n: nat, states: seq<Cluster>, events: seq<Event>, i: nat, s: nat)
    requires Run(n, states, events) && i < |events| && events[i] == Restart(s)
    ensures s < |states[i].servers| && s < |states[i + 1].servers|
    ensures var sv, sv' := states[i].servers[s], states[i + 1].servers[s];
            sv'.currentTerm == sv.currentTerm && sv'.votedFor == sv.votedFor && sv'.logs == sv.logs
  {
    DurableState(n, states, events, i);
    assert StepAt(states, events, i);
    assert DiskInv(states[i].servers[s]);
  }

  lemma {:induction false} VoteKeptAlong(n: nat, states: seq<Cluster>, events: seq<Event>, i: nat, j: nat, s: nat)
    requires Run(n, states, events) && i <= j < |states| && s < n
    ensures |states[i].servers| == |states[j].servers| == n && VoteKept(states[i].servers[s], states[j].servers[s])
    decreases j
  {
    DurableState(n, states, events, i);
    DurableState(n, states, events, j);
    if i < j {
      VoteKeptAlong(n, states, events, i, j - 1, s);
      DurableState(n, states, events, j - 1);
      assert StepAt(states, events, j - 1);
      StepDurable(states[j - 1], events[j - 1]);
      assert VoteKept(states[j - 1].servers[s], states[j].servers[s]);
    }
  }

  /** A server votes for at most one candidate in a term, crashes included. */
  lemma OneVotePerTerm(n: nat, states: seq<Cluster>, events: seq<Event>, i: nat, j: nat, s: nat)
    requires Run(n, states, events) && i < |states| && j < |states| && s < n
    requires |states[i].servers| == |states[j].servers| == n
    requires states[i].servers[s].currentTerm == states[j].servers[s].currentTerm
    requires states[i].servers[s].votedFor != NOBODY && states[j].servers[s].votedFor != NOBODY
    ensures states[i].servers[s].votedFor == states[j].servers[s].votedFor
  {
    if i <= j {
      VoteKeptAlong(n, states, events, i, j, s);
    } else {
      VoteKeptAlong(n, states, events, j, i, s);
    }
  }

  /** No server leads, no token waits, and there is no call for votes. */
  ghost predicate Leaderless(c: Cluster) {
    c.votes == [] && forall s :: 0 <= s < |c.servers| ==> c.servers[s].state != Leader && c.servers[s].chanBeElected == []
  }

  lemma NoTargets(targets: seq<nat>, s: nat)
    requires s < 1 && forall i :: 0 <= i < |targets| ==> targets[i] < 1 && targets[i] != s
    ensures targets == []
  {
    FirstIsMember(targets);
  }

  lemma FirstIsMember(targets: seq<nat>)
    ensures targets == [] || targets[0] in targets
  {
  }

  lemma LoneBallots(c: Cluster, s: nat, term: nat, targets: seq<nat>)
    requires Shape(c) && Enabled(c, SendBallots(s, term, targets)) && |c.servers| == 1 && Leaderless(c)
    ensures Leaderless(DoSendBallots(c, s, term, targets))
  {
    NoTargets(targets, s);
  }

  lemma LoneStep(c: Cluster, e: Event)
    requires Shape(c) && Enabled(c, e) && !Faults(c, e) && |c.servers| == 1 && Leaderless(c)
    ensures Leaderless(Next(c, e)) && |Next(c, e).servers| == 1
  {
    if e.SendBallots? {
      LoneBallots(c, e.s, e.term, e.targets);
    }
  }

  /**
   * A server alone never becomes leader: the vote count is compared with the cluster size only when a peer's
   * vote arrives, although its own vote would already be a majority.
   */
  lemma {:induction false} LoneServerNeverLeads(states: seq<Cluster>, events: seq<Event>, i: nat)
    requires Run(1, states, events) && i < |states|
    ensures |states[i].servers| == 1 && Leaderless(states[i])
  {
    if i > 0 {
      LoneServerNeverLeads(states, events, i - 1);
      assert StepAt(states, events, i - 1);
      LoneStep(states[i - 1], events[i - 1]);
    }
  }
}
