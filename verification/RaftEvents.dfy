/**
 * The events that change terms, votes, logs or calls keep the invariant; then every timely step does. For each
 * event the acting server is treated by `RaftSteps`, everybody else by `RaftPreserve`, and the two are glued
 * together by `RaftInvariant.Glue`. The last lemma of the module puts the events together, and `RaftSafety`
 * carries it along a run.
 */
module RaftEvents {
  import opened RaftLog
  import opened RaftServer
  import opened RaftCluster
  import opened RaftHistory
  import opened RaftInvariant
  import opened RaftSteps
  import opened RaftPreserve

  lemma SameTlog(h: Hist, h': Hist)
    requires TlogInv(h) && h'.tlog == h.tlog
    ensures TlogInv(h')
  {
    forall t, i | t in h'.tlog && 0 <= i < |h'.tlog[t]|
      ensures RootedAt(h', h'.tlog[t], i)
    {
      assert RootedAt(h, h.tlog[t], i);
    }
  }

  /** A server that moves to a later term without an election of its own keeps its goroutines' invariant. */
  lemma ThreadsAtNewTerm(c: Cluster, h: Hist, c': Cluster, h': Hist, s: nat)
    requires Standing(c, h, s) && Shape(c') && |c'.servers| == |c.servers| == |h'.past|
    requires h'.leader == h.leader
    requires forall t :: t in c.threads[s].ballots ==> t in h'.past[s].counted && h'.past[s].counted[t] == {s}
    requires c'.threads[s] == c.threads[s]
    requires c'.servers[s].currentTerm >= c.servers[s].currentTerm
    requires c'.servers[s].state == Leader ==> c.servers[s].state == Leader
    ensures ThreadsInv(c', h', s)
  {
    var t := c'.servers[s].currentTerm;
    if t in h.leader {
      assert TermInv(c, h, t);
    }
  }

  /** A server answers a call or takes the answer to one: nobody becomes leader by it, or ceases to be one in its term. */
  ghost predicate Moves(sv: Server, sv': Server) {
    && sv'.me == sv.me && sv'.currentTerm >= sv.currentTerm
    && (sv'.state == Leader ==> sv.state == Leader)
    && (sv.state == Leader && sv'.currentTerm == sv.currentTerm ==> sv'.state == Leader)
  }

  lemma RequestVoteMoves(sv: Server, args: RequestVoteArgs)
    requires |sv.logs| > 0
    ensures Moves(sv, RequestVote(sv, args).0)
  {
  }

  lemma DealVoteReplyMoves(sv: Server, args: RequestVoteArgs, reply: RequestVoteReply)
    ensures Moves(sv, DealVoteReply(sv, args, reply))
  {
  }

  lemma AppendEntriesMoves(sv: Server, args: AppendEntriesArgs)
    requires |sv.logs| > 0
    ensures Moves(sv, AppendEntries(sv, args).0)
  {
  }

  /* ---------- A server starts an election ---------- */

  lemma BeginGrows(c: Cluster, h: Hist, s: nat)
    requires s < |c.servers| == |h.past| && c.servers[s].me == s && ServerInv(c.servers[s], h)
    ensures GrowsAt(h, HistBegin(c, h, s), s)
  {
  }

  lemma BeginActor(c: Cluster, h: Hist, s: nat)
    requires Standing(c, h, s) && c.threads[s].loop == BeforeElection && Shape(DoBeginElection(c, s))
    ensures ActorKept(c, h, DoBeginElection(c, s), HistBegin(c, h, s), s)
  {
    var c', h' := DoBeginElection(c, s), HistBegin(c, h, s);
    BeginGrows(c, h, s);
    NewElectionServer(c.servers[s], h, h');
    SameTlog(h, h');
    if c'.servers[s].currentTerm in h.leader {
      assert TermInv(c, h, c'.servers[s].currentTerm);
    }
  }

  lemma BeginBallots(c: Cluster, h: Hist, s: nat)
    requires Standing(c, h, s) && BallotsInv(c, h)
    requires ActsAt(c, h, DoBeginElection(c, s), HistBegin(c, h, s), s)
    ensures BallotsInv(DoBeginElection(c, s), HistBegin(c, h, s))
  {
    var c', h' := DoBeginElection(c, s), HistBegin(c, h, s);
    forall k | 0 <= k < |c.votes|
      ensures VoteInv(c', h', c.votes[k])
    {
      assert VoteInv(c, h, c.votes[k]);
      OldVote(c, h, c', h', c.votes[k]);
    }
  }

  lemma BeginElectionStep(c: Cluster, h: Hist, s: nat)
    requires Inv(c, h) && s < |c.servers| && c.threads[s].loop == BeforeElection && Shape(DoBeginElection(c, s))
    ensures Inv(DoBeginElection(c, s), HistBegin(c, h, s))
    ensures ActsAt(c, h, DoBeginElection(c, s), HistBegin(c, h, s), s)
  {
    InvStanding(c, h, s);
    BeginActor(c, h, s);
    BeginBallots(c, h, s);
    AppendsFrame(c, h, DoBeginElection(c, s), HistBegin(c, h, s), s);
    Glue(c, h, DoBeginElection(c, s), HistBegin(c, h, s), s);
  }

  /* ---------- A candidate asks for votes ---------- */

  lemma SendBallotsVotes(c: Cluster, h: Hist, s: nat, term: nat, targets: seq<nat>)
    requires Standing(c, h, s) && BallotsInv(c, h) && Enabled(c, SendBallots(s, term, targets))
    requires term == c.servers[s].currentTerm && Shape(DoSendBallots(c, s, term, targets))
    ensures BallotsInv(DoSendBallots(c, s, term, targets), h)
  {
    var c' := DoSendBallots(c, s, term, targets);
    forall k | 0 <= k < |c'.votes|
      ensures VoteInv(c', h, c'.votes[k])
    {
      if k < |c.votes| {
        assert c'.votes[k] == c.votes[k];
        OldVote(c, h, c', h, c.votes[k]);
      }
    }
    forall i, j | 0 <= i < j < |c'.votes|
      ensures c'.votes[i].from != c'.votes[j].from || c'.votes[i].to != c'.votes[j].to
           || c'.votes[i].args.term != c'.votes[j].args.term
    {
      if i < |c.votes| {
        assert VoteInv(c, h, c.votes[i]);
      }
    }
  }

  lemma SendBallotsStep(c: Cluster, h: Hist, s: nat, term: nat, targets: seq<nat>)
    requires Inv(c, h) && Enabled(c, SendBallots(s, term, targets))
    requires term == c.servers[s].currentTerm && Shape(DoSendBallots(c, s, term, targets))
    ensures Inv(DoSendBallots(c, s, term, targets), h)
    ensures ActsAt(c, h, DoSendBallots(c, s, term, targets), h, s)
  {
    var c' := DoSendBallots(c, s, term, targets);
    InvStanding(c, h, s);
    SendBallotsVotes(c, h, s, term, targets);
    assert ActorKept(c, h, c', h, s);
    AppendsFrame(c, h, c', h, s);
    Glue(c, h, c', h, s);
  }

  /* ---------- A candidate takes power ---------- */

  function HistElect(c: Cluster, h: Hist, s: nat): Hist
    requires s < |c.servers| == |h.past|
  {
    HistLeaderLog(h, s, c.servers[s].currentTerm, c.servers[s].logs)
  }

  lemma ElectGrows(c: Cluster, h: Hist, s: nat)
    requires s < |c.servers| == |h.past| && LogInv(c.servers[s], h) && TlogInv(h)
    requires c.servers[s].currentTerm !in h.leader && c.servers[s].currentTerm !in h.tlog
    ensures GrowsAt(h, HistElect(c, h, s), s)
    ensures TlogInv(HistElect(c, h, s))
  {
    NewTlog(h, c.servers[s].currentTerm, c.servers[s].logs, HistElect(c, h, s));
  }

  lemma ElectServer(sv: Server, h: Hist, h': Hist)
    requires sv.me < |h.past| && ServerInv(sv, h) && |sv.chanBeElected| > 0
    requires GrowsAt(h, h', sv.me)
    requires h' == HistLeaderLog(h, sv.me, sv.currentTerm, sv.logs)
    ensures ServerInv(ComeToPower(sv), h')
  {
    VotersStay(sv, h, h');
    RootedAtGrows(h, h', sv.logs, |sv.logs| - 1);
  }

  lemma ElectActs(c: Cluster, h: Hist, s: nat)
    requires Shape(c) && s < |c.servers| == |h.past| && |c.servers[s].chanBeElected| > 0 && Shape(DoBeElected(c, s))
    requires GrowsAt(h, HistElect(c, h, s), s)
    ensures ActsAt(c, h, DoBeElected(c, s), HistElect(c, h, s), s)
    ensures StaysLeader(c, DoBeElected(c, s), s)
    ensures ThreadsInv(c, h, s) ==> ThreadsInv(DoBeElected(c, s), HistElect(c, h, s), s)
  {
  }

  lemma ElectActor(c: Cluster, h: Hist, s: nat)
    requires Standing(c, h, s) && |c.servers[s].chanBeElected| > 0 && Shape(DoBeElected(c, s))
    requires var t := c.servers[s].currentTerm;
             && t > 0 && t !in h.leader && t !in h.tlog
             && t in h.past[s].counted && 2 * |h.past[s].counted[t]| > |c.servers|
    ensures ActorKept(c, h, DoBeElected(c, s), HistElect(c, h, s), s)
  {
    ElectGrows(c, h, s);
    ElectServer(c.servers[s], h, HistElect(c, h, s));
    ElectActs(c, h, s);
  }

  lemma BeElectedStep(c: Cluster, h: Hist, s: nat)
    requires Inv(c, h) && Enabled(c, BeElected(s)) && TokenIsCurrent(c, BeElected(s)) && Shape(DoBeElected(c, s))
    ensures Inv(DoBeElected(c, s), HistElect(c, h, s))
    ensures ActsAt(c, h, DoBeElected(c, s), HistElect(c, h, s), s)
  {
    InvStanding(c, h, s);
    TermIsOpen(c, h, s);
    ElectActor(c, h, s);
    GlueFrame(c, h, DoBeElected(c, s), HistElect(c, h, s), s);
  }

  /* ---------- A peer votes ---------- */

  lemma VoteGrows(c: Cluster, h: Hist, k: nat)
    requires k < |c.votes| && c.votes[k].to < |c.servers| == |h.past| && |c.servers[c.votes[k].to].logs| > 0
    requires VotesInv(c.servers[c.votes[k].to], h.past[c.votes[k].to])
    ensures GrowsAt(h, HistVote(c, h, k), c.votes[k].to)
  {
    var m := c.votes[k];
    if RequestVote(c.servers[m.to], m.args).1.voteGranted {
      VoteIsFinal(c.servers[m.to], h.past[m.to], m.args);
    }
  }

  /** A server answers a request for votes: the step with the new server and the reply left abstract. */
  lemma VoteEffect(c: Cluster, h: Hist, k: nat, sv: Server, reply: RequestVoteReply, c': Cluster, h': Hist)
    requires Inv(c, h) && Shape(c') && k < |c.votes| && c.votes[k].status == Sent
    requires var m := c.votes[k];
             && c' == SetServer(c, m.to, sv).(votes := c.votes[k := m.(status := Answered(reply))])
             && GrowsAt(h, h', m.to) && h'.leader == h.leader && h'.tlog == h.tlog
             && (forall j :: 0 <= j < |h.past| ==> h'.past[j].counted == h.past[j].counted)
             && Moves(c.servers[m.to], sv) && ServerInv(sv, h')
             && (reply.voteGranted ==> VotedFor(h', m.to, m.args.term, m.args.candidateId))
    ensures Inv(c', h')
    ensures ActsAt(c, h, c', h', c.votes[k].to)
  {
    var s := c.votes[k].to;
    InvStanding(c, h, s);
    SameTlog(h, h');
    ThreadsAtNewTerm(c, h, c', h', s);
    VoteBallots(c, h, k, reply, c', h');
    AppendsFrame(c, h, c', h', s);
    Glue(c, h, c', h', s);
  }

  lemma VoteBallots(c: Cluster, h: Hist, k: nat, reply: RequestVoteReply, c': Cluster, h': Hist)
    requires Shape(c) && |h.past| == |c.servers| && k < |c.votes| && BallotsInv(c, h) && c.votes[k].status == Sent
    requires ActsAt(c, h, c', h', c.votes[k].to) && c'.threads == c.threads
    requires c'.votes == c.votes[k := c.votes[k].(status := Answered(reply))]
    requires forall j :: 0 <= j < |h.past| ==> h'.past[j].counted == h.past[j].counted
    requires reply.voteGranted ==> VotedFor(h', c.votes[k].to, c.votes[k].args.term, c.votes[k].args.candidateId)
    ensures BallotsInv(c', h')
  {
    forall i | 0 <= i < |c'.votes|
      ensures VoteInv(c', h', c'.votes[i])
    {
      assert VoteInv(c, h, c.votes[i]);
      OldVote(c, h, c', h', c.votes[i]);
    }
  }

  lemma VoteIsNoted(c: Cluster, h: Hist, k: nat)
    requires k < |c.votes| && c.votes[k].to < |c.servers| == |h.past| && |c.servers[c.votes[k].to].logs| > 0
    ensures var m, h' := c.votes[k], HistVote(c, h, k);
            && h'.leader == h.leader && h'.tlog == h.tlog
            && (forall j :: 0 <= j < |h.past| ==> h'.past[j].counted == h.past[j].counted)
            && (RequestVote(c.servers[m.to], m.args).1.voteGranted ==> VotedFor(h', m.to, m.args.term, m.args.candidateId))
  {
  }

  lemma VoterServer(c: Cluster, h: Hist, k: nat)
    requires Inv(c, h) && k < |c.votes| && c.votes[k].status == Sent
    ensures var m, h' := c.votes[k], HistVote(c, h, k);
            GrowsAt(h, h', m.to) && ServerInv(RequestVote(c.servers[m.to], m.args).0, h')
  {
    var m := c.votes[k];
    assert ServerInv(c.servers[m.to], h) && VoteInv(c, h, m);
    VoteGrows(c, h, k);
    RequestVoteServer(c.servers[m.to], h, m.args, HistVote(c, h, k));
  }

  lemma DeliverVoteStep(c: Cluster, h: Hist, k: nat)
    requires Inv(c, h) && k < |c.votes| && c.votes[k].status == Sent && Shape(DoDeliverVote(c, k))
    ensures Inv(DoDeliverVote(c, k), HistVote(c, h, k))
    ensures ActsAt(c, h, DoDeliverVote(c, k), HistVote(c, h, k), c.votes[k].to)
  {
    var m := c.votes[k];
    var (sv, reply) := RequestVote(c.servers[m.to], m.args);
    VoterServer(c, h, k);
    VoteIsNoted(c, h, k);
    RequestVoteMoves(c.servers[m.to], m.args);
    VoteEffect(c, h, k, sv, reply, DoDeliverVote(c, k), HistVote(c, h, k));
  }

  /* ---------- A candidate counts a vote ---------- */

  /** A server takes the reply to its request for votes: the step with the new server left abstract. */
  lemma CountEffect(c: Cluster, h: Hist, k: nat, sv: Server, c': Cluster, h': Hist)
    requires Inv(c, h) && Shape(c') && k < |c.votes| && c.votes[k].status.Answered?
    requires var m := c.votes[k];
             && c' == SetServer(c, m.from, sv).(votes := c.votes[k := m.(status := Closed)])
             && GrowsAt(h, h', m.from) && h'.leader == h.leader && h'.tlog == h.tlog
             && m.args.term in h.past[m.from].counted
             && (h'.past[m.from].counted == h.past[m.from].counted
                 || h'.past[m.from].counted == h.past[m.from].counted[m.args.term := h.past[m.from].counted[m.args.term] + {m.to}])
             && Moves(c.servers[m.from], sv) && ServerInv(sv, h')
    ensures Inv(c', h')
    ensures ActsAt(c, h, c', h', c.votes[k].from)
  {
    var s := c.votes[k].from;
    InvStanding(c, h, s);
    assert VoteInv(c, h, c.votes[k]);
    SameTlog(h, h');
    ThreadsAtNewTerm(c, h, c', h', s);
    CountBallots(c, h, k, c', h');
    AppendsFrame(c, h, c', h', s);
    Glue(c, h, c', h', s);
  }

  lemma CountBallots(c: Cluster, h: Hist, k: nat, c': Cluster, h': Hist)
    requires Shape(c) && |h.past| == |c.servers| && k < |c.votes| && BallotsInv(c, h)
    requires var m := c.votes[k];
             && ActsAt(c, h, c', h', m.from) && c'.threads == c.threads
             && c'.votes == c.votes[k := m.(status := Closed)]
             && m.args.term in h.past[m.from].counted
             && (h'.past[m.from].counted == h.past[m.from].counted
                 || h'.past[m.from].counted == h.past[m.from].counted[m.args.term := h.past[m.from].counted[m.args.term] + {m.to}])
    ensures BallotsInv(c', h')
  {
    var m := c.votes[k];
    forall i | 0 <= i < |c'.votes|
      ensures VoteInv(c', h', c'.votes[i])
    {
      var o := c.votes[i];
      assert VoteInv(c, h, o);
      assert PastGrows(h.past[o.to], h'.past[o.to]);
      assert i == k || o.from != m.from || o.to != m.to || o.args.term != m.args.term;
    }
  }

  lemma CountIsNoted(c: Cluster, h: Hist, k: nat)
    requires k < |c.votes| && c.votes[k].from < |c.servers| == |h.past| && c.votes[k].status.Answered?
    requires c.votes[k].args.term in h.past[c.votes[k].from].counted
    ensures var m, h' := c.votes[k], HistCount(c, h, k);
            && GrowsAt(h, h', m.from) && h'.leader == h.leader && h'.tlog == h.tlog
            && h'.past[m.from].votes == h.past[m.from].votes && h'.past[m.from].cand == h.past[m.from].cand
            && h'.past[m.from].counted == if CountsVote(c.servers[m.from], m.args, m.status.reply)
               then h.past[m.from].counted[m.args.term := h.past[m.from].counted[m.args.term] + {m.to}]
               else h.past[m.from].counted
  {
  }

  lemma CounterServer(c: Cluster, h: Hist, k: nat)
    requires Inv(c, h) && k < |c.votes| && c.votes[k].status.Answered?
    ensures c.votes[k].args.term in h.past[c.votes[k].from].counted
    ensures ServerInv(DealVoteReply(c.servers[c.votes[k].from], c.votes[k].args, c.votes[k].status.reply), HistCount(c, h, k))
  {
    var m := c.votes[k];
    assert ServerInv(c.servers[m.from], h) && VoteInv(c, h, m);
    CountIsNoted(c, h, k);
    DealVoteReplyServer(c.servers[m.from], h, m.args, m.status.reply, m.to, HistCount(c, h, k));
  }

  lemma TakeVoteReplyStep(c: Cluster, h: Hist, k: nat)
    requires Inv(c, h) && k < |c.votes| && c.votes[k].status.Answered? && Shape(DoTakeVoteReply(c, k))
    ensures Inv(DoTakeVoteReply(c, k), HistCount(c, h, k))
    ensures ActsAt(c, h, DoTakeVoteReply(c, k), HistCount(c, h, k), c.votes[k].from)
  {
    var m := c.votes[k];
    CounterServer(c, h, k);
    CountIsNoted(c, h, k);
    DealVoteReplyMoves(c.servers[m.from], m.args, m.status.reply);
    CountEffect(c, h, k, DealVoteReply(c.servers[m.from], m.args, m.status.reply),
                DoTakeVoteReply(c, k), HistCount(c, h, k));
  }

  /* ---------- A leader broadcasts ---------- */

  /** What a leader broadcasts is its log, to the end. */
  lemma AppendArgsCarry(sv: Server, id: nat)
    requires Indexed(sv.logs) && id < |sv.nextIndex| && 1 <= sv.nextIndex[id] <= |sv.logs|
    ensures Carries(AppendArgs(sv, id), sv.logs)
    ensures CarriedLength(AppendArgs(sv, id)) == |sv.logs|
  {
  }

  lemma BroadcastAppends(c: Cluster, h: Hist, s: nat)
    requires Shape(c) && s < |c.servers| && CanBroadcast(c.servers[s]) && Shape(DoBroadcast(c, s))
    requires |h.past| == |c.servers|
    requires LeadersInv(c, h) && AppendsInv(c, h) && LeaderInv(c.servers[s], h)
    requires ActsAt(c, h, DoBroadcast(c, s), h, s)
    ensures AppendsInv(DoBroadcast(c, s), h)
  {
    var c' := DoBroadcast(c, s);
    var sv := AdvanceCommit(c.servers[s]);
    forall k | 0 <= k < |c'.appends|
      ensures AppendInv(c', h, c'.appends[k])
    {
      if k < |c.appends| {
        assert c'.appends[k] == c.appends[k];
        AppendKept(c, h, c', h, s, c.appends[k]);
      } else {
        assert c'.appends[k] == HeartBeats(sv, c.threads[s].epoch)[k - |c.appends|];
        AppendArgsCarry(sv, c'.appends[k].to);
      }
    }
  }

  lemma BroadcastActor(c: Cluster, h: Hist, s: nat)
    requires Standing(c, h, s) && CanBroadcast(c.servers[s]) && Shape(DoBroadcast(c, s))
    ensures ActorKept(c, h, DoBroadcast(c, s), h, s)
  {
    QuietServer(c.servers[s], h, AdvanceCommit(c.servers[s]));
  }

  lemma BroadcastStep(c: Cluster, h: Hist, s: nat)
    requires Inv(c, h) && s < |c.servers| && CanBroadcast(c.servers[s])
    requires Shape(DoBroadcast(c, s))
    ensures Inv(DoBroadcast(c, s), h)
    ensures ActsAt(c, h, DoBroadcast(c, s), h, s)
  {
    InvStanding(c, h, s);
    BroadcastActor(c, h, s);
    BroadcastAppends(c, h, s);
    BallotsFrame(c, h, DoBroadcast(c, s), h, s);
    Glue(c, h, DoBroadcast(c, s), h, s);
  }

  /* ---------- A follower takes a request ---------- */

  lemma AdoptGrows(c: Cluster, h: Hist, k: nat)
    requires k < |c.appends| && c.appends[k].to < |c.servers| == |h.past| && |c.servers[c.appends[k].to].logs| > 0
    ensures var h' := HistAdopt(c, h, k); var s := c.appends[k].to;
            GrowsAt(h, h', s) && SameFor(h, h', s)
  {
  }

  /** A server answers an AppendEntries request: the step with the new server and the reply left abstract. */
  lemma AdoptEffect(c: Cluster, h: Hist, k: nat, sv: Server, reply: AppendEntriesReply, c': Cluster, h': Hist)
    requires Inv(c, h) && Shape(c') && k < |c.appends|
    requires var m := c.appends[k];
             && c' == SetServer(c, m.to, sv).(appends := c.appends[k := m.(status := Answered(reply))])
             && GrowsAt(h, h', m.to) && SameFor(h, h', m.to)
             && Moves(c.servers[m.to], sv) && ServerInv(sv, h)
             && ReplyInv(m.args, reply)
    ensures Inv(c', h')
    ensures ActsAt(c, h, c', h', c.appends[k].to)
  {
    var s := c.appends[k].to;
    InvStanding(c, h, s);
    SameTlog(h, h');
    SameServer(sv, h, h');
    ThreadsAtNewTerm(c, h, c', h', s);
    AdoptAppends(c, h, k, reply, c', h');
    BallotsFrame(c, h, c', h', s);
    Glue(c, h, c', h', s);
  }

  lemma AdoptAppends(c: Cluster, h: Hist, k: nat, reply: AppendEntriesReply, c': Cluster, h': Hist)
    requires Shape(c) && |h.past| == |c.servers| && k < |c.appends| && LeadersInv(c, h) && AppendsInv(c, h)
    requires ActsAt(c, h, c', h', c.appends[k].to) && StaysLeader(c, c', c.appends[k].to)
    requires c'.appends == c.appends[k := c.appends[k].(status := Answered(reply))]
    requires ReplyInv(c.appends[k].args, reply)
    ensures AppendsInv(c', h')
  {
    forall i | 0 <= i < |c'.appends|
      ensures AppendInv(c', h', c'.appends[i])
    {
      AppendKept(c, h, c', h', c.appends[k].to, c.appends[i]);
    }
  }

  lemma AdopterServer(c: Cluster, h: Hist, k: nat)
    requires Inv(c, h) && k < |c.appends|
    ensures var (sv, reply) := AppendEntries(c.servers[c.appends[k].to], c.appends[k].args);
            ServerInv(sv, h) && ReplyInv(c.appends[k].args, reply)
  {
    var m := c.appends[k];
    assert ServerInv(c.servers[m.to], h) && AppendInv(c, h, m);
    AppendEntriesServer(c.servers[m.to], h, m.args);
    AppendEntriesReplyInv(c.servers[m.to], h, m.args);
  }

  lemma DeliverAppendStep(c: Cluster, h: Hist, k: nat)
    requires Inv(c, h) && k < |c.appends| && c.appends[k].status == Sent && Shape(DoDeliverAppend(c, k))
    ensures Inv(DoDeliverAppend(c, k), HistAdopt(c, h, k))
    ensures ActsAt(c, h, DoDeliverAppend(c, k), HistAdopt(c, h, k), c.appends[k].to)
  {
    var m := c.appends[k];
    var (sv, reply) := AppendEntries(c.servers[m.to], m.args);
    AdopterServer(c, h, k);
    AppendEntriesMoves(c.servers[m.to], m.args);
    AdoptGrows(c, h, k);
    AdoptEffect(c, h, k, sv, reply, DoDeliverAppend(c, k), HistAdopt(c, h, k));
  }

  /* ---------- A leader takes a reply ---------- */

  lemma AckActor(c: Cluster, h: Hist, k: nat)
    requires k < |c.appends| && Standing(c, h, c.appends[k].from)
    requires Enabled(c, TakeAppendReply(k)) && !Faults(c, TakeAppendReply(k))
    requires AppendInv(c, h, c.appends[k]) && Shape(DoTakeAppendReply(c, k))
    ensures ActorKept(c, h, DoTakeAppendReply(c, k), h, c.appends[k].from)
  {
    var m := c.appends[k];
    DealAppendReplyServer(c.servers[m.from], h, m.to, m.args, m.status.reply);
    ThreadsAtNewTerm(c, h, DoTakeAppendReply(c, k), h, m.from);
  }

  lemma AckAppends(c: Cluster, h: Hist, k: nat)
    requires Shape(c) && |h.past| == |c.servers|
    requires Enabled(c, TakeAppendReply(k)) && !Faults(c, TakeAppendReply(k))
    requires LeadersInv(c, h) && AppendsInv(c, h)
    requires ActsAt(c, h, DoTakeAppendReply(c, k), h, c.appends[k].from)
    requires StaysLeader(c, DoTakeAppendReply(c, k), c.appends[k].from)
    ensures AppendsInv(DoTakeAppendReply(c, k), h)
  {
    var c' := DoTakeAppendReply(c, k);
    forall i | 0 <= i < |c'.appends|
      ensures AppendInv(c', h, c'.appends[i])
    {
      AppendKept(c, h, c', h, c.appends[k].from, c.appends[i]);
    }
  }

  lemma TakeAppendReplyStep(c: Cluster, h: Hist, k: nat)
    requires Inv(c, h) && Enabled(c, TakeAppendReply(k)) && !Faults(c, TakeAppendReply(k))
    requires Shape(DoTakeAppendReply(c, k))
    ensures Inv(DoTakeAppendReply(c, k), h)
    ensures ActsAt(c, h, DoTakeAppendReply(c, k), h, c.appends[k].from)
  {
    var c', s := DoTakeAppendReply(c, k), c.appends[k].from;
    InvStanding(c, h, s);
    AckActor(c, h, k);
    AckAppends(c, h, k);
    BallotsFrame(c, h, c', h, s);
    Glue(c, h, c', h, s);
  }

  /* ---------- A leader gets a command ---------- */

  lemma StartGrows(sv: Server, h: Hist, command: int, h': Hist)
    requires sv.me < |h.past| && TlogInv(h) && ServerInv(sv, h) && sv.state == Leader && sv.currentTerm > 0
    requires Indexed(sv.logs)
    requires h' == HistLeaderLog(h, sv.me, sv.currentTerm, Start(sv, command).logs)
    ensures GrowsAt(h, h', sv.me) && TlogInv(h')
  {
    LongerTlog(h, sv.currentTerm, Start(sv, command).logs, h');
  }

  lemma StartServer(sv: Server, h: Hist, command: int, h': Hist)
    requires sv.me < |h.past| && ServerInv(sv, h) && sv.state == Leader
    requires h' == HistLeaderLog(h, sv.me, sv.currentTerm, Start(sv, command).logs)
    requires GrowsAt(h, h', sv.me) && TlogInv(h')
    ensures ServerInv(Start(sv, command), h')
  {
    VotersStay(sv, h, h');
    LeaderLogRooted(h', sv.currentTerm);
  }

  lemma StartActor(c: Cluster, h: Hist, s: nat, command: int)
    requires Standing(c, h, s) && c.servers[s].state == Leader
    requires Shape(SetServer(c, s, Start(c.servers[s], command)))
    ensures ActorKept(c, h, SetServer(c, s, Start(c.servers[s], command)), HistStart(c, h, s, command), s)
  {
    var sv := c.servers[s];
    assert TermInv(c, h, sv.currentTerm);
    StartGrows(sv, h, command, HistStart(c, h, s, command));
    StartServer(sv, h, command, HistStart(c, h, s, command));
  }

  lemma ClientStartStep(c: Cluster, h: Hist, s: nat, command: int)
    requires Inv(c, h) && s < |c.servers| && Shape(SetServer(c, s, Start(c.servers[s], command)))
    ensures Inv(SetServer(c, s, Start(c.servers[s], command)), HistStart(c, h, s, command))
    ensures ActsAt(c, h, SetServer(c, s, Start(c.servers[s], command)), HistStart(c, h, s, command), s)
  {
    var sv := c.servers[s];
    var c', h' := SetServer(c, s, Start(sv, command)), HistStart(c, h, s, command);
    InvStanding(c, h, s);
    if sv.state == Leader {
      StartActor(c, h, s, command);
      GlueFrame(c, h, c', h', s);
    } else {
      assert c' == c;
    }
  }

  /* ---------- A server crashes and restarts ---------- */

  lemma RestartStep(c: Cluster, h: Hist, s: nat)
    requires Inv(c, h) && s < |c.servers| && Shape(DoRestart(c, s))
    ensures Inv(DoRestart(c, s), h)
    ensures ActsAt(c, h, DoRestart(c, s), h, s)
  {
    InvStanding(c, h, s);
    MakeServer(c.servers[s], h);
    GlueFrame(c, h, DoRestart(c, s), h, s);
  }

  /* ---------- Every step, and the start ---------- */

  /** The invariant after a step by which only the actor and the history of its deeds changed. */
  ghost predicate Kept(c: Cluster, e: Event, h: Hist, c': Cluster, h': Hist)
  {
    Inv(c', h') && ActsAt(c, h, c', h', Actor(c, e))
  }

  // One lemma per event: the step above under its name in `Event`.

  lemma BeginKeeps(c: Cluster, e: Event, h: Hist)
    requires Ready(c, e, h) && e.BeginElection? && Shape(Next(c, e))
    ensures Kept(c, e, h, Next(c, e), NextHist(c, e, h))
  {
    BeginElectionStep(c, h, e.s);
  }

  lemma BallotsKeeps(c: Cluster, e: Event, h: Hist)
    requires Ready(c, e, h) && e.SendBallots? && Shape(Next(c, e))
    ensures Kept(c, e, h, Next(c, e), NextHist(c, e, h))
  {
    SendBallotsStep(c, h, e.s, e.term, e.targets);
  }

  lemma ElectKeeps(c: Cluster, e: Event, h: Hist)
    requires Ready(c, e, h) && e.BeElected? && Shape(Next(c, e))
    ensures Kept(c, e, h, Next(c, e), NextHist(c, e, h))
  {
    BeElectedStep(c, h, e.s);
  }

  lemma VoteKeeps(c: Cluster, e: Event, h: Hist)
    requires Ready(c, e, h) && e.DeliverVote? && Shape(Next(c, e))
    ensures Kept(c, e, h, Next(c, e), NextHist(c, e, h))
  {
    DeliverVoteStep(c, h, e.k);
  }

  lemma CountKeeps(c: Cluster, e: Event, h: Hist)
    requires Ready(c, e, h) && e.TakeVoteReply? && Shape(Next(c, e))
    ensures Kept(c, e, h, Next(c, e), NextHist(c, e, h))
  {
    TakeVoteReplyStep(c, h, e.k);
  }

  lemma BroadcastKeeps(c: Cluster, e: Event, h: Hist)
    requires Ready(c, e, h) && e.Broadcast? && Shape(Next(c, e))
    ensures Kept(c, e, h, Next(c, e), NextHist(c, e, h))
  {
    BroadcastStep(c, h, e.s);
  }

  lemma ReplyKeeps(c: Cluster, e: Event, h: Hist)
    requires Ready(c, e, h) && e.TakeAppendReply? && Shape(Next(c, e))
    ensures Kept(c, e, h, Next(c, e), NextHist(c, e, h))
  {
    TakeAppendReplyStep(c, h, e.k);
  }

  lemma CommandKeeps(c: Cluster, e: Event, h: Hist)
    requires Ready(c, e, h) && e.ClientStart? && Shape(Next(c, e))
    ensures Kept(c, e, h, Next(c, e), NextHist(c, e, h))
  {
    ClientStartStep(c, h, e.s, e.command);
  }

  lemma RequestKeeps(c: Cluster, e: Event, h: Hist)
    requires Ready(c, e, h) && e.DeliverAppend? && Shape(Next(c, e))
    ensures Kept(c, e, h, Next(c, e), NextHist(c, e, h))
  {
    DeliverAppendStep(c, h, e.k);
  }

  lemma RestartKeeps(c: Cluster, e: Event, h: Hist)
    requires Ready(c, e, h) && e.Restart? && Shape(Next(c, e))
    ensures Kept(c, e, h, Next(c, e), NextHist(c, e, h))
  {
    RestartStep(c, h, e.s);
  }

  lemma QuietKeeps(c: Cluster, e: Event, h: Hist)
    requires Ready(c, e, h) && Quiet(e) && Shape(Next(c, e))
    ensures Kept(c, e, h, Next(c, e), NextHist(c, e, h))
  {
    QuietEvents(c, e, h);
  }

  lemma StepKeeps(c: Cluster, e: Event, h: Hist)
    requires Ready(c, e, h)
    ensures Kept(c, e, h, Next(c, e), NextHist(c, e, h))
  {
    ShapeKept(c, e);
    match e
    case BeginElection(_) => BeginKeeps(c, e, h);
    case SendBallots(_, _, _) => BallotsKeeps(c, e, h);
    case BeElected(_) => ElectKeeps(c, e, h);
    case DeliverVote(_) => VoteKeeps(c, e, h);
    case TakeVoteReply(_) => CountKeeps(c, e, h);
    case Broadcast(_) => BroadcastKeeps(c, e, h);
    case TakeAppendReply(_) => ReplyKeeps(c, e, h);
    case ClientStart(_, _) => CommandKeeps(c, e, h);
    case DeliverAppend(_) => RequestKeeps(c, e, h);
    case Restart(_) => RestartKeeps(c, e, h);
    case _ => QuietKeeps(c, e, h);
  }

  lemma InitKeeps(n: nat)
    ensures Inv(Init(n), InitHist(n))
  {
  }
}
