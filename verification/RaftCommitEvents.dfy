/**
 * Every ordered step keeps `RaftCommit.Inv2`. Each event has an effect predicate that says what it changes in
 * cluster and history; the parts of the invariant are then shown for any two states so related, which keeps the
 * definitions of the steps out of the proofs. The last lemma of the module puts the events together, and
 * `RaftTheorems` carries it along a run.
 */
module RaftCommitEvents {
  import opened RaftLog
  import opened RaftServer
  import opened RaftCluster
  import opened RaftHistory
  import opened RaftInvariant
  import opened RaftSteps
  import opened RaftPreserve
  import opened RaftEvents
  import opened RaftCommit
  import opened RaftCompleteness
  import opened RaftCommitSteps
  import opened Quorum

  /* ---------- Calls ---------- */

  ghost predicate VotesEvolve(c: Cluster, c': Cluster) {
    && |c.votes| <= |c'.votes|
    && forall k :: 0 <= k < |c.votes| ==> c'.votes[k] == c.votes[k].(status := c'.votes[k].status)
  }

  ghost predicate AppendsEvolve(c: Cluster, c': Cluster) {
    && |c.appends| <= |c'.appends|
    && forall k :: 0 <= k < |c.appends| ==>
      && c'.appends[k] == c.appends[k].(status := c'.appends[k].status)
      && (c.appends[k].status != Sent ==> c'.appends[k].status != Sent)
  }

  lemma BallotStays(c: Cluster, h: Hist, h': Hist, k: nat, m': VoteRpc)
    requires Inv(c, h) && ServersInv2(c, h) && CallsInv(c, h) && k < |c.votes| && Grows(h, h')
    requires m' == c.votes[k].(status := m'.status)
    ensures BallotInv(h', m')
  {
    var m := c.votes[k];
    assert VoteInv(c, h, m) && BallotInv(h, m);
    assert ServerInv2(c.servers[m.from], h);
    assert PastGrows(h.past[m.from], h'.past[m.from]);
  }

  lemma AskedForStays(h: Hist, h': Hist, v: nat, t: nat)
    requires Grows(h, h') && v < |h.past| && t in h.past[v].votes && AskedFor(h, v, t)
    ensures AskedFor(h', v, t)
  {
    assert PastGrows(h.past[v], h'.past[v]);
    var b := h.past[v].votes[t];
    assert PastGrows(h.past[b], h'.past[b]);
  }

  lemma RequestStays(c: Cluster, h: Hist, c': Cluster, h': Hist, m: AppendRpc)
    requires Advances(c, h, c', h') && m.to < |h.past| && m.args.term in h.tlog
    requires CarriedLength(m.args) <= |h.tlog[m.args.term]| && RequestInv(h, m)
    ensures m.args.term in h'.tlog && RequestInv(h', m)
  {
    var u := m.args.term;
    CommittedStays(c, h, c', h', h.tlog[u], m.args.leaderCommit + 1, u, h'.tlog[u], u);
    if m.status.Answered? && m.status.reply.success {
      AckedStays(c, h, c', h', m.to, u, CarriedLength(m.args) - 1);
    }
  }

  lemma AccDeliveredStays(c: Cluster, h: Hist, c': Cluster, h': Hist, v: nat, t: nat)
    requires AppendsEvolve(c, c') && v < |h.past| == |h'.past|
    requires t in h.past[v].acc && t in h'.past[v].acc && h'.past[v].acc[t] == h.past[v].acc[t]
    requires t in h.leader && h.leader[t] != v && AccDelivered(c, h, v, t)
    ensures AccDelivered(c', h', v, t)
  {
    var k :| DeliveredAt(c, h, v, t, k);
    assert DeliveredAt(c', h', v, t, k);
  }

  lemma AllAccDelivered(c: Cluster, h: Hist, c': Cluster, h': Hist, s: nat)
    requires Inv(c, h) && ServersInv2(c, h) && CallsInv(c, h) && Acts2(c, h, c', h', s) && Inv(c', h')
    requires AppendsEvolve(c, c')
    requires forall t {:trigger AccDelivered(c', h', s, t)} ::
      t in h'.past[s].acc && (t !in h.past[s].acc || h'.past[s].acc[t] != h.past[s].acc[t]) ==> AccDelivered(c', h', s, t)
    ensures forall v: nat, t: nat {:trigger AccDelivered(c', h', v, t)} :: AccDelivered(c', h', v, t)
  {
    forall v: nat, t: nat
      ensures AccDelivered(c', h', v, t)
    {
      assert AccDelivered(c, h, v, t);
      if v < |h'.past| && t in h'.past[v].acc && t in h'.leader && h'.leader[t] != v {
        if t in h.past[v].acc && h'.past[v].acc[t] == h.past[v].acc[t] {
          assert ServerInv2(c.servers[v], h);
          assert TermInv(c', h', t);
          AccDeliveredStays(c, h, c', h', v, t);
        }
      }
    }
  }

  lemma CallsKept(c: Cluster, h: Hist, c': Cluster, h': Hist, s: nat)
    requires Inv(c, h) && ServersInv2(c, h) && CallsInv(c, h) && Acts2(c, h, c', h', s) && Inv(c', h')
    requires VotesEvolve(c, c')
    requires forall k :: |c.votes| <= k < |c'.votes| ==> BallotInv(h', c'.votes[k])
    requires forall t :: t in h'.past[s].votes && t !in h.past[s].votes ==> AskedFor(h', s, t)
    requires AppendsEvolve(c, c')
    requires forall k {:trigger RequestInv(h', c'.appends[k])} :: 0 <= k < |c'.appends| ==>
      AppendInv(c', h', c'.appends[k]) && ((k < |c.appends| && c'.appends[k] == c.appends[k]) || RequestInv(h', c'.appends[k]))
    requires forall j: nat, k: nat {:trigger Longer(c', j, k)} :: j < |c'.appends| && k < |c'.appends| ==> Longer(c', j, k)
    requires forall t {:trigger AccDelivered(c', h', s, t)} ::
      t in h'.past[s].acc && (t !in h.past[s].acc || h'.past[s].acc[t] != h.past[s].acc[t]) ==> AccDelivered(c', h', s, t)
    ensures CallsInv(c', h')
  {
    ActsAdvances(c, h, c', h', s);
    forall k | 0 <= k < |c'.votes|
      ensures BallotInv(h', c'.votes[k])
    {
      if k < |c.votes| {
        BallotStays(c, h, h', k, c'.votes[k]);
      }
    }
    forall v: nat, t: nat | v < |h'.past|
      ensures AskedFor(h', v, t)
    {
      assert AskedFor(h, v, t);
      if t in h.past[v].votes {
        AskedForStays(h, h', v, t);
      }
    }
    forall k | 0 <= k < |c'.appends|
      ensures AppendInv(c', h', c'.appends[k]) && RequestInv(h', c'.appends[k])
    {
      if k < |c.appends| && c'.appends[k] == c.appends[k] {
        assert AppendInv(c, h, c.appends[k]) && RequestInv(h, c.appends[k]);
        RequestStays(c, h, c', h', c.appends[k]);
      }
    }
    AllAccDelivered(c, h, c', h', s);
  }

  /** A step that leaves the AppendEntries calls alone. */
  lemma CallsQuiet(c: Cluster, h: Hist, c': Cluster, h': Hist, s: nat)
    requires Inv(c, h) && ServersInv2(c, h) && CallsInv(c, h) && Acts2(c, h, c', h', s) && Inv(c', h')
    requires VotesEvolve(c, c') && c'.appends == c.appends && h'.past[s].acc == h.past[s].acc
    requires forall k :: |c.votes| <= k < |c'.votes| ==> BallotInv(h', c'.votes[k])
    requires forall t :: t in h'.past[s].votes && t !in h.past[s].votes ==> AskedFor(h', s, t)
    ensures CallsInv(c', h')
  {
    forall k | 0 <= k < |c'.appends|
      ensures AppendInv(c', h', c'.appends[k])
    {
    }
    forall j: nat, k: nat | j < |c'.appends| && k < |c'.appends|
      ensures Longer(c', j, k)
    {
      assert Longer(c, j, k);
    }
    CallsKept(c, h, c', h', s);
  }

  /** A step that leaves all logs, acknowledgements, votes and AppendEntries calls alone. */
  lemma PlainStep2(c: Cluster, h: Hist, c': Cluster, h': Hist, s: nat)
    requires Inv2(c, h) && ActsAt(c, h, c', h', s) && Inv(c', h')
    requires h'.tlog == h.tlog && h'.past[s].acc == h.past[s].acc && h'.past[s].votes == h.past[s].votes
    requires c'.servers[s].logs == c.servers[s].logs && ServerInv2(c'.servers[s], h')
    requires VotesEvolve(c, c') && c'.appends == c.appends
    requires forall k :: |c.votes| <= k < |c'.votes| ==> BallotInv(h', c'.votes[k])
    ensures Inv2(c', h')
  {
    assert Acts2(c, h, c', h', s);
    AssembleServers2(c, h, c', h', s);
    SafetyFrame(c, h, c', h', s);
    CallsQuiet(c, h, c', h', s);
  }

  lemma QuietServer2(sv: Server, h: Hist, sv': Server)
    requires sv.me < |h.past| && |sv.logs| > 0 && ServerInv2(sv, h)
    requires sv' == sv.(state := sv'.state, chanCommit := sv'.chanCommit)
    requires sv'.state == Leader ==> sv.state == Leader
    ensures ServerInv2(sv', h)
  {
  }

  /** What a quiet event leaves alone. */
  ghost predicate LeavesLogs(c: Cluster, h: Hist, s: nat, c': Cluster)
    requires s < |c.servers| == |c'.servers| == |h.past|
  {
    c'.servers[s].logs == c.servers[s].logs && c'.votes == c.votes && c'.appends == c.appends
  }

  lemma ApplyActor2(c: Cluster, h: Hist, s: nat)
    requires Shape(c) && s < |c.servers| == |h.past| && ServerInv2(c.servers[s], h)
    ensures |DoApplyAll(c, s).servers| == |c.servers| && ServerShape(DoApplyAll(c, s).servers[s], s, |c.servers|)
    ensures ServerInv2(DoApplyAll(c, s).servers[s], h) && LeavesLogs(c, h, s, DoApplyAll(c, s))
  {
    ApplyServer2(h, c.servers[s]);
  }

  lemma LoopChange(c: Cluster, e: Event)
    requires Shape(c) && Enabled(c, e) && !Faults(c, e) && Quiet(e) && !e.ApplyAll? && |Next(c, e).servers| == |c.servers|
    ensures var sv, sv', c' := c.servers[e.s], Next(c, e).servers[e.s], Next(c, e);
            && sv' == sv.(state := sv'.state, chanCommit := sv'.chanCommit) && (sv'.state == Leader ==> sv.state == Leader)
            && c'.votes == c.votes && c'.appends == c.appends
  {
  }

  lemma LoopActor2(c: Cluster, e: Event, h: Hist)
    requires Shape(c) && Enabled(c, e) && !Faults(c, e) && Quiet(e) && !e.ApplyAll? && |h.past| == |c.servers|
    requires ServerInv2(c.servers[e.s], h) && |Next(c, e).servers| == |c.servers|
    ensures ServerShape(Next(c, e).servers[e.s], e.s, |c.servers|) && ServerInv2(Next(c, e).servers[e.s], h)
    ensures LeavesLogs(c, h, e.s, Next(c, e))
  {
    LoopChange(c, e);
    QuietServer2(c.servers[e.s], h, Next(c, e).servers[e.s]);
  }

  lemma QuietActor2(c: Cluster, e: Event, h: Hist)
    requires Shape(c) && Enabled(c, e) && !Faults(c, e) && Quiet(e) && |h.past| == |c.servers|
    requires ServerInv2(c.servers[e.s], h) && |Next(c, e).servers| == |c.servers|
    ensures LeavesLogs(c, h, e.s, Next(c, e))
    ensures ServerShape(Next(c, e).servers[e.s], e.s, |c.servers|) && ServerInv2(Next(c, e).servers[e.s], h)
  {
    if e.ApplyAll? {
      ApplyActor2(c, h, e.s);
    } else {
      LoopActor2(c, e, h);
    }
  }

  lemma QuietEffect2(c: Cluster, h: Hist, c': Cluster, s: nat)
    requires Inv2(c, h) && Inv(c', h) && ActsAt(c, h, c', h, s) && LeavesLogs(c, h, s, c') && ServerInv2(c'.servers[s], h)
    ensures Inv2(c', h)
  {
    PlainStep2(c, h, c', h, s);
  }

  lemma QuietStep2(c: Cluster, e: Event, h: Hist)
    requires Ready(c, e, h) && Inv2(c, h) && Quiet(e) && Kept(c, e, h, Next(c, e), h)
    ensures Inv2(Next(c, e), h)
  {
    assert ServerInv2(c.servers[e.s], h);
    QuietActor2(c, e, h);
    QuietEffect2(c, h, Next(c, e), e.s);
  }

  lemma SendBallotsStep2(c: Cluster, h: Hist, s: nat, term: nat, targets: seq<nat>)
    requires Inv2(c, h) && Enabled(c, SendBallots(s, term, targets)) && term == c.servers[s].currentTerm
    requires var c' := DoSendBallots(c, s, term, targets); Inv(c', h) && ActsAt(c, h, c', h, s)
    ensures Inv2(DoSendBallots(c, s, term, targets), h)
  {
    NewBallots(c, h, s, term, targets);
    AskEffect2(c, h, s, DoSendBallots(c, s, term, targets), Ballots(s, c.threads[s].epoch, VoteArgs(c.servers[s]), targets));
  }

  lemma NewBallots(c: Cluster, h: Hist, s: nat, term: nat, targets: seq<nat>)
    requires Inv(c, h) && ServersInv2(c, h) && s < |c.servers| && term in c.threads[s].ballots && term == c.servers[s].currentTerm
    ensures var sent := Ballots(s, c.threads[s].epoch, VoteArgs(c.servers[s]), targets);
            forall i :: 0 <= i < |sent| ==> sent[i].from < |h.past| && BallotInv(h, sent[i])
  {
    assert ServerInv2(c.servers[s], h) && ThreadsInv(c, h, s);
    BallotsDescribe(c.servers[s], h, c.threads[s].epoch, targets);
  }

  /** Calls for votes are added, and nothing else changes but goroutines. */
  lemma AskEffect2(c: Cluster, h: Hist, s: nat, c': Cluster, sent: seq<VoteRpc>)
    requires Inv2(c, h) && Inv(c', h) && ActsAt(c, h, c', h, s)
    requires c'.servers == c.servers && c'.appends == c.appends && c'.votes == c.votes + sent
    requires forall i :: 0 <= i < |sent| ==> sent[i].from < |h.past| && BallotInv(h, sent[i])
    ensures Inv2(c', h)
  {
    assert ServerInv2(c.servers[s], h);
    PlainStep2(c, h, c', h, s);
  }

  /** Requests for votes describe the log their candidate runs with. */
  lemma BallotsDescribe(sv: Server, h: Hist, epoch: nat, targets: seq<nat>)
    requires sv.me < |h.past| && |sv.logs| > 0 && CandInv(sv, h) && sv.currentTerm in h.past[sv.me].counted
    ensures var sent := Ballots(sv.me, epoch, VoteArgs(sv), targets);
            forall i :: 0 <= i < |sent| ==> BallotInv(h, sent[i])
  {
  }

  /** The actor's server keeps its log and what it applied; a leader stays as it is or leaves its term. */
  ghost predicate KeepsLog(sv: Server, sv': Server) {
    && sv'.logs == sv.logs && sv'.commitIndex == sv.commitIndex
    && sv'.lastApplied == sv.lastApplied && sv'.chanApply == sv.chanApply
    && (sv'.state == Leader ==> sv.state == Leader && sv'.currentTerm == sv.currentTerm && sv'.matchIndex == sv.matchIndex)
  }

  lemma LogKeptServer2(c: Cluster, h: Hist, s: nat, c': Cluster, h': Hist)
    requires Inv(c, h) && ServersInv2(c, h) && ActsAt(c, h, c', h', s) && KeepsLog(c.servers[s], c'.servers[s])
    requires h'.tlog == h.tlog && h'.leader == h.leader && h'.past[s].acc == h.past[s].acc
    requires h'.past[s].counted.Keys == h.past[s].counted.Keys
    ensures ServerInv2(c'.servers[s], h')
  {
    assert ServerInv2(c.servers[s], h);
    LogOf(c, h, s);
    CountOf(c, h, s);
    SameLogServer2(c, h, c', h', s);
  }

  lemma CountEffect2(c: Cluster, h: Hist, s: nat, c': Cluster, h': Hist)
    requires Inv2(c, h) && Inv(c', h') && ActsAt(c, h, c', h', s) && KeepsLog(c.servers[s], c'.servers[s])
    requires h'.tlog == h.tlog && h'.leader == h.leader
    requires h'.past[s].acc == h.past[s].acc && h'.past[s].votes == h.past[s].votes
    requires h'.past[s].counted.Keys == h.past[s].counted.Keys
    requires |c'.votes| == |c.votes| && VotesEvolve(c, c') && c'.appends == c.appends
    ensures Inv2(c', h')
  {
    LogKeptServer2(c, h, s, c', h');
    PlainStep2(c, h, c', h', s);
  }

  lemma CountKeepsLog(c: Cluster, h: Hist, k: nat)
    requires Shape(c) && |h.past| == |c.servers| && k < |c.votes| && c.votes[k].status.Answered?
    requires c.votes[k].args.term in h.past[c.votes[k].from].counted
    ensures var s, c', h' := c.votes[k].from, DoTakeVoteReply(c, k), HistCount(c, h, k);
            && KeepsLog(c.servers[s], c'.servers[s])
            && h'.tlog == h.tlog && h'.leader == h.leader
            && h'.past[s].acc == h.past[s].acc && h'.past[s].votes == h.past[s].votes
            && h'.past[s].counted.Keys == h.past[s].counted.Keys
            && |c'.votes| == |c.votes| && VotesEvolve(c, c') && c'.appends == c.appends
  {
  }

  lemma TakeVoteReplyStep2(c: Cluster, h: Hist, k: nat)
    requires Inv2(c, h) && k < |c.votes| && c.votes[k].status.Answered?
    requires var c', h' := DoTakeVoteReply(c, k), HistCount(c, h, k); Inv(c', h') && ActsAt(c, h, c', h', c.votes[k].from)
    ensures Inv2(DoTakeVoteReply(c, k), HistCount(c, h, k))
  {
    assert VoteInv(c, h, c.votes[k]);
    CountKeepsLog(c, h, k);
    CountEffect2(c, h, c.votes[k].from, DoTakeVoteReply(c, k), HistCount(c, h, k));
  }

  lemma RestartStep2(c: Cluster, h: Hist, s: nat)
    requires Inv2(c, h) && s < |c.servers|
    requires Inv(DoRestart(c, s), h) && ActsAt(c, h, DoRestart(c, s), h, s)
    ensures Inv2(DoRestart(c, s), h)
  {
    assert ServerInv(c.servers[s], h);
    RestartServer2(c, h, s);
    PlainStep2(c, h, DoRestart(c, s), h, s);
  }

  /** Server s stands for its next term. */
  ghost predicate Stands(c: Cluster, h: Hist, s: nat, c': Cluster, h': Hist) {
    && s < |c.servers| == |c'.servers| == |h.past| == |h'.past|
    && h'.tlog == h.tlog && h'.leader == h.leader && h'.past[s].acc == h.past[s].acc
    && c.servers[s].state != Leader && c'.servers[s] == NewElection(c.servers[s])
    && var u := c.servers[s].currentTerm + 1;
    && h'.past[s].counted == h.past[s].counted[u := {s}]
    && h'.past[s].cand == h.past[s].cand[u := c.servers[s].logs]
  }

  lemma BeginStands(c: Cluster, h: Hist, s: nat)
    requires Inv(c, h) && s < |c.servers| && c.threads[s].loop == BeforeElection
    ensures Stands(c, h, s, DoBeginElection(c, s), HistBegin(c, h, s))
  {
    assert ThreadsInv(c, h, s);
  }

  lemma BeginServers2(c: Cluster, h: Hist, s: nat, c': Cluster, h': Hist)
    requires Inv2(c, h) && s < |c.servers| && Stands(c, h, s, c', h') && Acts2(c, h, c', h', s)
    ensures ServersInv2(c', h')
  {
    assert ServerInv2(c.servers[s], h);
    LogOf(c, h, s);
    BeginServer2(c, h, c', h', s);
    AssembleServers2(c, h, c', h', s);
  }

  lemma BeginElectionStep2(c: Cluster, h: Hist, s: nat)
    requires Inv2(c, h) && s < |c.servers| && c.threads[s].loop == BeforeElection
    requires var c', h' := DoBeginElection(c, s), HistBegin(c, h, s); Inv(c', h') && ActsAt(c, h, c', h', s)
    ensures Inv2(DoBeginElection(c, s), HistBegin(c, h, s))
  {
    var c', h' := DoBeginElection(c, s), HistBegin(c, h, s);
    assert Acts2(c, h, c', h', s);
    BeginStands(c, h, s);
    BeginServers2(c, h, s, c', h');
    BeginSafety(c, h, c', h', s);
    CallsQuiet(c, h, c', h', s);
  }

  /** A server grants its vote. */
  ghost predicate Grants(c: Cluster, h: Hist, k: nat, c': Cluster, h': Hist)
    requires Shape(c) && |c'.servers| == |c.servers| == |h.past| == |h'.past| && k < |c.votes|
  {
    var m := c.votes[k];
    && KeepsLog(c.servers[m.to], c'.servers[m.to])
    && h'.tlog == h.tlog && h'.leader == h.leader && h'.past[m.to].acc == h.past[m.to].acc
    && h'.past[m.to].votes == h.past[m.to].votes[m.args.term := m.from]
    && h'.past[m.to].counted == h.past[m.to].counted && h'.past[m.to].cand == h.past[m.to].cand
    && UpToDate(m.args.lastLogTerm, m.args.lastLogIndex, c.servers[m.to].logs)
    && |c'.votes| == |c.votes| && VotesEvolve(c, c') && c'.appends == c.appends
  }

  lemma GrantServers2(c: Cluster, h: Hist, k: nat, c': Cluster, h': Hist)
    requires Inv2(c, h) && k < |c.votes| && Acts2(c, h, c', h', c.votes[k].to) && Grants(c, h, k, c', h')
    ensures ServersInv2(c', h')
  {
    var s := c.votes[k].to;
    assert ServerInv2(c.servers[s], h);
    LogOf(c, h, s);
    CountOf(c, h, s);
    SameLogServer2(c, h, c', h', s);
    AssembleServers2(c, h, c', h', s);
  }

  lemma GrantSafety(c: Cluster, h: Hist, k: nat, c': Cluster, h': Hist)
    requires Inv2(c, h) && k < |c.votes| && Acts2(c, h, c', h', c.votes[k].to) && Grants(c, h, k, c', h')
    ensures SafetyInv(c', h')
  {
    var m := c.votes[k];
    LogOf(c, h, m.to);
    assert VoteInv(c, h, m) && BallotInv(h, m) && CandInv(c.servers[m.from], h) by {
      assert ServerInv2(c.servers[m.from], h);
    }
    VoteSafety(c, h, c', h', m.to, m.args.term, m.from, m.args.lastLogTerm, m.args.lastLogIndex);
  }

  lemma GrantEffect2(c: Cluster, h: Hist, k: nat, c': Cluster, h': Hist)
    requires Inv2(c, h) && Inv(c', h') && k < |c.votes| && ActsAt(c, h, c', h', c.votes[k].to)
    requires VoteInv(c, h, c.votes[k]) && Grants(c, h, k, c', h')
    ensures Inv2(c', h')
  {
    var m := c.votes[k];
    assert Acts2(c, h, c', h', m.to);
    GrantServers2(c, h, k, c', h');
    GrantSafety(c, h, k, c', h');
    assert PastGrows(h.past[m.from], h'.past[m.from]);
    CallsQuiet(c, h, c', h', m.to);
  }

  lemma DeliverVoteStep2(c: Cluster, h: Hist, k: nat)
    requires Inv2(c, h) && k < |c.votes| && c.votes[k].status == Sent
    requires var c', h' := DoDeliverVote(c, k), HistVote(c, h, k); Inv(c', h') && ActsAt(c, h, c', h', c.votes[k].to)
    ensures Inv2(DoDeliverVote(c, k), HistVote(c, h, k))
  {
    var m, c', h' := c.votes[k], DoDeliverVote(c, k), HistVote(c, h, k);
    assert VoteInv(c, h, m);
    if RequestVote(c.servers[m.to], m.args).1.voteGranted {
      VoteIsGrant(c, h, k);
      GrantEffect2(c, h, k, c', h');
    } else {
      RefusalKeepsLog(c, h, k);
      CountEffect2(c, h, m.to, c', h');
    }
  }

  lemma VoteIsGrant(c: Cluster, h: Hist, k: nat)
    requires Shape(c) && |h.past| == |c.servers| && k < |c.votes| && VoteInv(c, h, c.votes[k])
    requires RequestVote(c.servers[c.votes[k].to], c.votes[k].args).1.voteGranted
    ensures Grants(c, h, k, DoDeliverVote(c, k), HistVote(c, h, k))
  {
  }

  lemma RefusalKeepsLog(c: Cluster, h: Hist, k: nat)
    requires Shape(c) && |h.past| == |c.servers| && k < |c.votes|
    requires !RequestVote(c.servers[c.votes[k].to], c.votes[k].args).1.voteGranted
    ensures KeepsLog(c.servers[c.votes[k].to], DoDeliverVote(c, k).servers[c.votes[k].to]) && HistVote(c, h, k) == h
    ensures |DoDeliverVote(c, k).votes| == |c.votes| && VotesEvolve(c, DoDeliverVote(c, k))
    ensures DoDeliverVote(c, k).appends == c.appends
  {
  }

  lemma AccKeysKnown(c: Cluster, h: Hist)
    requires Inv(c, h) && ServersInv2(c, h)
    ensures forall v, t :: 0 <= v < |h.past| && t in h.past[v].acc ==> t in h.tlog
  {
    forall v, t | 0 <= v < |h.past| && t in h.past[v].acc
      ensures t in h.tlog
    {
      assert ServerInv2(c.servers[v], h);
    }
  }

  lemma BeElectedSafety(c: Cluster, h: Hist, s: nat)
    requires Inv2(c, h) && Enabled(c, BeElected(s)) && TokenIsCurrent(c, BeElected(s))
    requires Acts2(c, h, DoBeElected(c, s), HistElect(c, h, s), s)
    ensures SafetyInv(DoBeElected(c, s), HistElect(c, h, s))
  {
    TermIsOpen(c, h, s);
    AccKeysKnown(c, h);
    assert CandInv(c.servers[s], h) by {
      assert ServerInv2(c.servers[s], h);
    }
    ElectSafety(c, h, DoBeElected(c, s), HistElect(c, h, s), s);
  }

  lemma BeElectedServers2(c: Cluster, h: Hist, s: nat)
    requires Inv2(c, h) && Enabled(c, BeElected(s)) && c.servers[s].currentTerm !in h.tlog
    requires Acts2(c, h, DoBeElected(c, s), HistElect(c, h, s), s)
    ensures ServersInv2(DoBeElected(c, s), HistElect(c, h, s))
  {
    assert ServerInv2(c.servers[s], h);
    ElectServer2(c, h, DoBeElected(c, s), HistElect(c, h, s), s);
    AssembleServers2(c, h, DoBeElected(c, s), HistElect(c, h, s), s);
  }

  lemma ElectActs2(c: Cluster, h: Hist, s: nat)
    requires Inv(c, h) && ServersInv2(c, h) && s < |c.servers| && |c.servers[s].chanBeElected| > 0
    requires ActsAt(c, h, DoBeElected(c, s), HistElect(c, h, s), s) && c.servers[s].currentTerm !in h.tlog
    ensures Acts2(c, h, DoBeElected(c, s), HistElect(c, h, s), s)
  {
    AccKeysKnown(c, h);
  }

  lemma BeElectedStep2(c: Cluster, h: Hist, s: nat)
    requires Inv2(c, h) && Enabled(c, BeElected(s)) && TokenIsCurrent(c, BeElected(s))
    requires var c', h' := DoBeElected(c, s), HistElect(c, h, s); Inv(c', h') && ActsAt(c, h, c', h', s)
    ensures Inv2(DoBeElected(c, s), HistElect(c, h, s))
  {
    TermIsOpen(c, h, s);
    ElectActs2(c, h, s);
    BeElectedServers2(c, h, s);
    BeElectedSafety(c, h, s);
    ElectCalls(c, h, s);
  }

  lemma ElectCalls(c: Cluster, h: Hist, s: nat)
    requires Inv2(c, h) && Enabled(c, BeElected(s)) && c.servers[s].currentTerm !in h.tlog
    requires var c', h' := DoBeElected(c, s), HistElect(c, h, s); Inv(c', h') && Acts2(c, h, c', h', s)
    ensures CallsInv(DoBeElected(c, s), HistElect(c, h, s))
  {
    var c', h' := DoBeElected(c, s), HistElect(c, h, s);
    forall j: nat, k: nat | j < |c'.appends| && k < |c'.appends|
      ensures Longer(c', j, k)
    {
      assert Longer(c, j, k);
    }
    CallsKept(c, h, c', h', s);
  }

  lemma ClientStartStep2(c: Cluster, h: Hist, s: nat, command: int)
    requires Inv2(c, h) && s < |c.servers|
    requires var c', h' := SetServer(c, s, Start(c.servers[s], command)), HistStart(c, h, s, command);
             Inv(c', h') && ActsAt(c, h, c', h', s)
    ensures Inv2(SetServer(c, s, Start(c.servers[s], command)), HistStart(c, h, s, command))
  {
    if c.servers[s].state == Leader {
      LeaderStartStep2(c, h, s, command);
    } else {
      assert SetServer(c, s, Start(c.servers[s], command)) == c;
    }
  }

  /** Nobody took over more than the leader has. */
  lemma NobodyIsLonger(c: Cluster, h: Hist, s: nat)
    requires Inv(c, h) && ServersInv2(c, h) && s < |c.servers| && c.servers[s].state == Leader
    ensures forall v :: 0 <= v < |h.past| && c.servers[s].currentTerm in h.past[v].acc ==>
      h.past[v].acc[c.servers[s].currentTerm] <= |c.servers[s].logs|
  {
    assert ServerInv(c.servers[s], h);
    forall v | 0 <= v < |h.past| && c.servers[s].currentTerm in h.past[v].acc
      ensures h.past[v].acc[c.servers[s].currentTerm] <= |c.servers[s].logs|
    {
      assert ServerInv2(c.servers[v], h);
    }
  }

  lemma LeaderStartServers2(c: Cluster, h: Hist, s: nat, command: int)
    requires Inv(c, h) && ServersInv2(c, h) && s < |c.servers| && c.servers[s].state == Leader
    requires Acts2(c, h, SetServer(c, s, Start(c.servers[s], command)), HistStart(c, h, s, command), s)
    ensures ServersInv2(SetServer(c, s, Start(c.servers[s], command)), HistStart(c, h, s, command))
  {
    var c', h' := SetServer(c, s, Start(c.servers[s], command)), HistStart(c, h, s, command);
    assert ServerInv2(c.servers[s], h) && ServerInv(c.servers[s], h);
    StartServer2(c, h, c', h', s, command);
    AssembleServers2(c, h, c', h', s);
  }

  lemma StartGrowsAcc(c: Cluster, h: Hist, s: nat, command: int)
    requires Inv(c, h) && ServersInv2(c, h) && s < |c.servers|
    ensures AccStep(h.past[s], HistStart(c, h, s, command).past[s], c.servers[s].currentTerm)
  {
    assert LeaderInv(c.servers[s], h) by {
      assert ServerInv(c.servers[s], h);
    }
    assert AccInv(c.servers[s], h) by {
      assert ServerInv2(c.servers[s], h);
    }
  }

  lemma LeaderStartActs(c: Cluster, h: Hist, s: nat, command: int)
    requires Inv(c, h) && ServersInv2(c, h) && s < |c.servers| && c.servers[s].state == Leader
    requires ActsAt(c, h, SetServer(c, s, Start(c.servers[s], command)), HistStart(c, h, s, command), s)
    ensures Acts2(c, h, SetServer(c, s, Start(c.servers[s], command)), HistStart(c, h, s, command), s)
  {
    StartGrowsAcc(c, h, s, command);
  }

  lemma LeaderStartSafety(c: Cluster, h: Hist, s: nat, command: int)
    requires Inv2(c, h) && s < |c.servers| && c.servers[s].state == Leader
    requires Acts2(c, h, SetServer(c, s, Start(c.servers[s], command)), HistStart(c, h, s, command), s)
    ensures SafetyInv(SetServer(c, s, Start(c.servers[s], command)), HistStart(c, h, s, command))
  {
    assert ServerInv(c.servers[s], h) && ServerInv2(c.servers[s], h);
    NobodyIsLonger(c, h, s);
    StartSafety(c, h, SetServer(c, s, Start(c.servers[s], command)), HistStart(c, h, s, command), s);
  }

  lemma LeaderStartStep2(c: Cluster, h: Hist, s: nat, command: int)
    requires Inv2(c, h) && s < |c.servers| && c.servers[s].state == Leader
    requires var c', h' := SetServer(c, s, Start(c.servers[s], command)), HistStart(c, h, s, command);
             Inv(c', h') && ActsAt(c, h, c', h', s)
    ensures Inv2(SetServer(c, s, Start(c.servers[s], command)), HistStart(c, h, s, command))
  {
    LeaderStartActs(c, h, s, command);
    LeaderStartServers2(c, h, s, command);
    LeaderStartSafety(c, h, s, command);
    StartCalls(c, h, s, command);
  }

  lemma StartCalls(c: Cluster, h: Hist, s: nat, command: int)
    requires Inv2(c, h) && s < |c.servers| && c.servers[s].state == Leader
    requires var c', h' := SetServer(c, s, Start(c.servers[s], command)), HistStart(c, h, s, command);
             Inv(c', h') && Acts2(c, h, c', h', s)
    ensures CallsInv(SetServer(c, s, Start(c.servers[s], command)), HistStart(c, h, s, command))
  {
    var c', h' := SetServer(c, s, Start(c.servers[s], command)), HistStart(c, h, s, command);
    assert ServerInv(c.servers[s], h);
    forall j: nat, k: nat | j < |c'.appends| && k < |c'.appends|
      ensures Longer(c', j, k)
    {
      assert Longer(c, j, k);
    }
    CallsKept(c, h, c', h', s);
  }

  /* ---------- AppendEntries calls ---------- */

  /** Every request of a broadcast is of the leader's term and as long as its log. */
  lemma NewRequest(c: Cluster, s: nat, k: nat)
    requires Shape(c) && s < |c.servers| && CanBroadcast(c.servers[s])
    requires |c.appends| <= k < |DoBroadcast(c, s).appends|
    ensures var m := DoBroadcast(c, s).appends[k];
            m.args.term == c.servers[s].currentTerm && CarriedLength(m.args) == |c.servers[s].logs|
            && m.args.leaderCommit == AdvanceCommit(c.servers[s]).commitIndex && m.status == Sent
  {
    AppendArgsCarry(AdvanceCommit(c.servers[s]), DoBroadcast(c, s).appends[k].to);
  }

  /** No request of the term is longer than the leader's log. */
  lemma OldRequest(c: Cluster, h: Hist, s: nat, j: nat)
    requires Inv(c, h) && s < |c.servers| && c.servers[s].state == Leader && j < |c.appends|
    requires c.appends[j].args.term == c.servers[s].currentTerm
    ensures CarriedLength(c.appends[j].args) <= |c.servers[s].logs|
  {
    assert ServerInv(c.servers[s], h) && AppendInv(c, h, c.appends[j]);
  }

  lemma BroadcastLonger(c: Cluster, h: Hist, s: nat, c': Cluster)
    requires Inv2(c, h) && s < |c.servers| && CanBroadcast(c.servers[s]) && c.servers[s].state == Leader
    requires c' == DoBroadcast(c, s) && AppendsEvolve(c, c')
    ensures forall j: nat, k: nat {:trigger Longer(c', j, k)} :: j < |c'.appends| && k < |c'.appends| ==> Longer(c', j, k)
  {
    forall j: nat, k: nat | j < |c'.appends| && k < |c'.appends|
      ensures Longer(c', j, k)
    {
      if j <= k && c'.appends[j].args.term == c'.appends[k].args.term {
        if k < |c.appends| {
          assert Longer(c, j, k);
        } else {
          NewRequest(c, s, k);
          if j < |c.appends| {
            OldRequest(c, h, s, j);
          } else {
            NewRequest(c, s, j);
          }
        }
      }
    }
  }

  lemma LeadersInCluster(c: Cluster, h: Hist)
    requires Inv(c, h)
    ensures forall t :: t in h.tlog && t > 0 ==> t in h.leader && h.leader[t] < |h.past|
  {
    forall t | t in h.tlog && t > 0
      ensures t in h.leader && h.leader[t] < |h.past|
    {
      assert TermInv(c, h, t);
    }
  }

  lemma RequestOfLeader(h: Hist, sv: Server, m: AppendRpc)
    requires CommitInv(sv, h) && sv.currentTerm in h.tlog && sv.logs == h.tlog[sv.currentTerm] && m.to < |h.past|
    requires m.args.term == sv.currentTerm && m.args.leaderCommit == sv.commitIndex
    requires CarriedLength(m.args) == |sv.logs| && m.status == Sent
    ensures RequestInv(h, m)
  {
  }

  lemma BroadcastRequests(c: Cluster, h: Hist, s: nat, c': Cluster, k: nat)
    requires Shape(c) && s < |c.servers| && CanBroadcast(c.servers[s]) && |h.past| == |c.servers|
    requires c.servers[s].state == Leader && LeaderInv(c.servers[s], h) && ServerInv2(AdvanceCommit(c.servers[s]), h)
    requires c' == DoBroadcast(c, s) && Shape(c') && AppendsInv(c', h) && |c.appends| <= k < |c'.appends|
    ensures AppendInv(c', h, c'.appends[k]) && RequestInv(h, c'.appends[k])
  {
    assert AppendInv(c', h, c'.appends[k]);
    NewRequest(c, s, k);
    RequestOfLeader(h, AdvanceCommit(c.servers[s]), c'.appends[k]);
  }

  lemma BroadcastStep2(c: Cluster, h: Hist, s: nat)
    requires Inv2(c, h) && s < |c.servers| && CanBroadcast(c.servers[s]) && c.servers[s].state == Leader
    requires Inv(DoBroadcast(c, s), h) && ActsAt(c, h, DoBroadcast(c, s), h, s)
    ensures Inv2(DoBroadcast(c, s), h)
  {
    var c' := DoBroadcast(c, s);
    assert ServerInv2(c.servers[s], h) && ServerInv(c.servers[s], h);
    LeadersInCluster(c, h);
    BroadcastServer2(c.servers[s], h);
    AssembleServers2(c, h, c', h, s);
    SafetyFrame(c, h, c', h, s);
    BroadcastCalls(c, h, s);
  }

  lemma BroadcastAdds(c: Cluster, h: Hist, s: nat, c': Cluster)
    requires Shape(c) && s < |c.servers| && CanBroadcast(c.servers[s]) && |h.past| == |c.servers|
    requires c.servers[s].state == Leader && LeaderInv(c.servers[s], h) && ServerInv2(AdvanceCommit(c.servers[s]), h)
    requires c' == DoBroadcast(c, s) && Shape(c') && AppendsInv(c', h)
    ensures AppendsEvolve(c, c')
    ensures forall k {:trigger RequestInv(h, c'.appends[k])} :: 0 <= k < |c'.appends| ==>
      AppendInv(c', h, c'.appends[k]) && ((k < |c.appends| && c'.appends[k] == c.appends[k]) || RequestInv(h, c'.appends[k]))
  {
    forall k | 0 <= k < |c'.appends|
      ensures AppendInv(c', h, c'.appends[k]) && ((k < |c.appends| && c'.appends[k] == c.appends[k]) || RequestInv(h, c'.appends[k]))
    {
      if k >= |c.appends| {
        BroadcastRequests(c, h, s, c', k);
      }
    }
  }

  lemma BroadcastCalls(c: Cluster, h: Hist, s: nat)
    requires Inv2(c, h) && s < |c.servers| && CanBroadcast(c.servers[s]) && c.servers[s].state == Leader
    requires Inv(DoBroadcast(c, s), h) && Acts2(c, h, DoBroadcast(c, s), h, s)
    requires LeaderInv(c.servers[s], h) && ServerInv2(AdvanceCommit(c.servers[s]), h)
    ensures CallsInv(DoBroadcast(c, s), h)
  {
    var c' := DoBroadcast(c, s);
    BroadcastAdds(c, h, s, c');
    BroadcastLonger(c, h, s, c');
    CallsKept(c, h, c', h, s);
  }

  /** Requests that differ only in their status are as long as before. */
  lemma LongerStays(c: Cluster, h: Hist, c': Cluster)
    requires Shape(c) && |h.past| == |c.servers| && AppendsInv(c, h) && CallsInv(c, h)
    requires AppendsEvolve(c, c') && |c'.appends| == |c.appends|
    ensures forall j: nat, k: nat {:trigger Longer(c', j, k)} :: j < |c'.appends| && k < |c'.appends| ==> Longer(c', j, k)
  {
    forall j: nat, k: nat | j < |c'.appends| && k < |c'.appends|
      ensures Longer(c', j, k)
    {
      assert Longer(c, j, k);
    }
  }

  /** The call moves on without adding an acknowledgement. */
  ghost predicate MovesOn(m: AppendRpc, m': AppendRpc) {
    && m' == m.(status := m'.status) && m'.status != Sent
    && (m'.status.Answered? ==> !m'.status.reply.success)
  }

  lemma CallEffect2(c: Cluster, h: Hist, s: nat, k: nat, c': Cluster, m': AppendRpc)
    requires Inv2(c, h) && Inv(c', h) && ActsAt(c, h, c', h, s) && k < |c.appends| && MovesOn(c.appends[k], m')
    requires c'.servers[s].logs == c.servers[s].logs && ServerInv2(c'.servers[s], h)
    requires c'.votes == c.votes && c'.appends == c.appends[k := m']
    ensures Inv2(c', h)
  {
    AssembleServers2(c, h, c', h, s);
    SafetyFrame(c, h, c', h, s);
    CallMoved(c, h, s, k, c', m');
  }

  lemma MovedRequests(c: Cluster, h: Hist, k: nat, c': Cluster, m': AppendRpc)
    requires Shape(c) && Shape(c') && |h.past| == |c.servers| == |c'.servers| && AppendsInv(c, h) && CallsInv(c, h) && AppendsInv(c', h)
    requires k < |c.appends| && MovesOn(c.appends[k], m') && c'.appends == c.appends[k := m']
    ensures AppendsEvolve(c, c')
    ensures forall i {:trigger RequestInv(h, c'.appends[i])} :: 0 <= i < |c'.appends| ==>
      AppendInv(c', h, c'.appends[i]) && ((i < |c.appends| && c'.appends[i] == c.appends[i]) || RequestInv(h, c'.appends[i]))
  {
    assert AppendInv(c, h, c.appends[k]) && RequestInv(h, c.appends[k]);
    forall i | 0 <= i < |c'.appends|
      ensures AppendInv(c', h, c'.appends[i])
    {
    }
  }

  lemma CallMoved(c: Cluster, h: Hist, s: nat, k: nat, c': Cluster, m': AppendRpc)
    requires Inv(c, h) && ServersInv2(c, h) && CallsInv(c, h) && Inv(c', h) && Acts2(c, h, c', h, s)
    requires k < |c.appends| && MovesOn(c.appends[k], m') && c'.votes == c.votes && c'.appends == c.appends[k := m']
    ensures CallsInv(c', h)
  {
    MovedRequests(c, h, k, c', m');
    LongerStays(c, h, c');
    CallsKept(c, h, c', h, s);
  }

  lemma AckKeepsLog(c: Cluster, k: nat)
    requires Shape(c) && Enabled(c, TakeAppendReply(k)) && !Faults(c, TakeAppendReply(k))
    ensures var c', s := DoTakeAppendReply(c, k), c.appends[k].from;
            && c'.servers[s].logs == c.servers[s].logs && c'.votes == c.votes
            && c'.appends == c.appends[k := c.appends[k].(status := Closed)]
  {
  }

  lemma AckingServer2(c: Cluster, h: Hist, k: nat)
    requires Inv2(c, h) && Enabled(c, TakeAppendReply(k)) && !Faults(c, TakeAppendReply(k))
    ensures ServerInv2(DoTakeAppendReply(c, k).servers[c.appends[k].from], h)
  {
    var m := c.appends[k];
    assert ServerInv2(c.servers[m.from], h) && AppendInv(c, h, m) && RequestInv(h, m);
    LogOf(c, h, m.from);
    CountOf(c, h, m.from);
    AckServer2(h, c.servers[m.from], m.to, m.args, m.status.reply);
  }

  lemma TakeAppendReplyStep2(c: Cluster, h: Hist, k: nat)
    requires Inv2(c, h) && Enabled(c, TakeAppendReply(k)) && !Faults(c, TakeAppendReply(k))
    requires var c' := DoTakeAppendReply(c, k); Inv(c', h) && ActsAt(c, h, c', h, c.appends[k].from)
    ensures Inv2(DoTakeAppendReply(c, k), h)
  {
    var m := c.appends[k];
    AckingServer2(c, h, k);
    AckKeepsLog(c, k);
    CallEffect2(c, h, m.from, k, DoTakeAppendReply(c, k), m.(status := Closed));
  }

  /** In-order delivery: what arrives is no shorter than what the follower took over before in this term. */
  lemma NoShrink(c: Cluster, h: Hist, k: nat)
    requires Inv2(c, h) && Enabled(c, DeliverAppend(k)) && InOrder(c, DeliverAppend(k))
    ensures var m := c.appends[k];
            m.args.term in h.past[m.to].acc ==> h.past[m.to].acc[m.args.term] <= CarriedLength(m.args)
  {
    var m := c.appends[k];
    assert AppendInv(c, h, m);
    if m.args.term in h.past[m.to].acc {
      assert AccDelivered(c, h, m.to, m.args.term);
      var j: nat :| DeliveredAt(c, h, m.to, m.args.term, j);
      assert AppendInv(c, h, c.appends[j]);
      assert SameStream(m, c.appends[j]);
      assert Longer(c, j, k);
    }
  }

  /** A server takes over a request: the step with the new server and the answered call left abstract. */
  ghost predicate TakesOver(c: Cluster, h: Hist, k: nat, c': Cluster, h': Hist, m': AppendRpc)
    requires Shape(c) && |c'.servers| == |c.servers| == |h.past| == |h'.past| && k < |c.appends|
  {
    var m := c.appends[k];
    var sv, sv', u := c.servers[m.to], c'.servers[m.to], m.args.term;
    && sv.currentTerm <= u && u in h.tlog
    && h'.tlog == h.tlog && h'.leader == h.leader && h'.past[m.to].votes == h.past[m.to].votes
    && h'.past[m.to].counted == h.past[m.to].counted && h'.past[m.to].cand == h.past[m.to].cand
    && h'.past[m.to].acc == h.past[m.to].acc[u := CarriedLength(m.args)]
    && Prefix(sv'.logs, h.tlog[u]) && |sv'.logs| == CarriedLength(m.args)
    && Adopted(sv, sv', u, m.args.leaderCommit)
    && c'.votes == c.votes && c'.appends == c.appends[k := m']
    && m' == m.(status := m'.status) && m'.status.Answered?
  }

  lemma AcceptFollows(c: Cluster, h: Hist, k: nat, c': Cluster, h': Hist, m': AppendRpc)
    requires Inv(c, h) && k < |c.appends| && AppendInv(c, h, c.appends[k])
    requires |c'.servers| == |c.servers| && |h'.past| == |h.past| && TakesOver(c, h, k, c', h', m')
    ensures c'.servers[c.appends[k].to].state != Leader && CountInv(c.servers[c.appends[k].to], h)
  {
    AdopterFollows(c, h, c.appends[k].to, c.appends[k].args.term);
  }

  lemma AcceptActor(c: Cluster, h: Hist, k: nat, c': Cluster, h': Hist, m': AppendRpc)
    requires k < |c.appends| && Acts2(c, h, c', h', c.appends[k].to)
    requires TakesOver(c, h, k, c', h', m') && RequestInv(h, c.appends[k])
    requires var s, u := c.appends[k].to, c.appends[k].args.term;
             && ServerInv2(c.servers[s], h) && CountInv(c.servers[s], h) && (u in h.leader ==> h.leader[u] != s)
             && Same(c.servers[s].logs, c'.servers[s].logs, c.servers[s].commitIndex + 1) && c'.servers[s].state != Leader
    ensures ServerInv2(c'.servers[c.appends[k].to], h')
  {
    AdoptServer2(c, h, c', h', c.appends[k].to, c.appends[k].args);
  }

  lemma AcceptKeepsCommitted(c: Cluster, h: Hist, k: nat, c': Cluster, h': Hist, m': AppendRpc)
    requires Inv(c, h) && ServersInv2(c, h) && SafetyInv(c, h) && k < |c.appends| && AppendInv(c, h, c.appends[k])
    requires |c'.servers| == |c.servers| && |h'.past| == |h.past| && TakesOver(c, h, k, c', h', m')
    requires var m := c.appends[k];
             m.args.term in h.past[m.to].acc ==> h.past[m.to].acc[m.args.term] <= CarriedLength(m.args)
    ensures var s := c.appends[k].to; Same(c.servers[s].logs, c'.servers[s].logs, c.servers[s].commitIndex + 1)
  {
    var m := c.appends[k];
    assert ServerInv2(c.servers[m.to], h);
    AdoptKeepsCommitted(c, h, m.to, m.args, c'.servers[m.to].logs);
  }

  lemma AcceptServers(c: Cluster, h: Hist, k: nat, c': Cluster, h': Hist, m': AppendRpc)
    requires Inv(c, h) && ServersInv2(c, h) && SafetyInv(c, h) && k < |c.appends| && Acts2(c, h, c', h', c.appends[k].to)
    requires AppendInv(c, h, c.appends[k]) && RequestInv(h, c.appends[k]) && TakesOver(c, h, k, c', h', m')
    requires var m := c.appends[k];
             m.args.term in h.past[m.to].acc ==> h.past[m.to].acc[m.args.term] <= CarriedLength(m.args)
    ensures ServersInv2(c', h')
  {
    assert ServerInv2(c.servers[c.appends[k].to], h);
    AcceptKeepsCommitted(c, h, k, c', h', m');
    AcceptFollows(c, h, k, c', h', m');
    AcceptActor(c, h, k, c', h', m');
    AssembleServers2(c, h, c', h', c.appends[k].to);
  }

  lemma AcceptSafety(c: Cluster, h: Hist, k: nat, c': Cluster, h': Hist, m': AppendRpc)
    requires Inv(c, h) && ServersInv2(c, h) && SafetyInv(c, h) && k < |c.appends| && Acts2(c, h, c', h', c.appends[k].to)
    requires AppendInv(c, h, c.appends[k]) && TakesOver(c, h, k, c', h', m')
    ensures SafetyInv(c', h')
  {
    var m := c.appends[k];
    assert ServerInv2(c.servers[m.to], h) && ServerInv(c.servers[m.to], h);
    AdoptSafety(c, h, c', h', m.to, m.args);
  }

  lemma AcceptEffect2(c: Cluster, h: Hist, k: nat, c': Cluster, h': Hist, m': AppendRpc)
    requires Inv2(c, h) && Inv(c', h') && k < |c.appends| && Acts2(c, h, c', h', c.appends[k].to)
    requires AppendInv(c, h, c.appends[k]) && RequestInv(h, c.appends[k]) && TakesOver(c, h, k, c', h', m')
    requires var m := c.appends[k];
             m.args.term in h.past[m.to].acc ==> h.past[m.to].acc[m.args.term] <= CarriedLength(m.args)
    ensures Inv2(c', h')
  {
    AcceptServers(c, h, k, c', h', m');
    AcceptSafety(c, h, k, c', h', m');
    AcceptCalls(c, h, k, c', h', m');
  }

  /** A follower in the leader's term, or on its way there, acknowledges no less than before. */
  lemma AcceptAdvances(c: Cluster, h: Hist, k: nat, c': Cluster, h': Hist, m': AppendRpc)
    requires Inv(c, h) && ServersInv2(c, h) && k < |c.appends| && ActsAt(c, h, c', h', c.appends[k].to)
    requires TakesOver(c, h, k, c', h', m')
    requires var m := c.appends[k];
             m.args.term in h.past[m.to].acc ==> h.past[m.to].acc[m.args.term] <= CarriedLength(m.args)
    ensures Acts2(c, h, c', h', c.appends[k].to)
  {
    assert ServerInv2(c.servers[c.appends[k].to], h);
  }

  lemma AcceptCalls(c: Cluster, h: Hist, k: nat, c': Cluster, h': Hist, m': AppendRpc)
    requires Inv(c, h) && ServersInv2(c, h) && CallsInv(c, h) && Inv(c', h')
    requires k < |c.appends| && Acts2(c, h, c', h', c.appends[k].to)
    requires AppendInv(c, h, c.appends[k]) && RequestInv(h, c.appends[k]) && TakesOver(c, h, k, c', h', m')
    ensures CallsInv(c', h')
  {
    var m := c.appends[k];
    ActsAdvances(c, h, c', h', m.to);
    RequestStays(c, h, c', h', m);
    NewlyDelivered(c, h, k, c', h', m');
    AnsweredCalls(c, h, k, c', h', m');
    LongerStays(c, h, c');
    CallsKept(c, h, c', h', m.to);
  }

  lemma AnsweredCalls(c: Cluster, h: Hist, k: nat, c': Cluster, h': Hist, m': AppendRpc)
    requires Shape(c) && Shape(c') && |c'.servers| == |c.servers| == |h.past| == |h'.past| && k < |c.appends|
    requires TakesOver(c, h, k, c', h', m') && AppendsInv(c', h') && c.appends[k].args.term in h'.tlog && RequestInv(h', m')
    ensures AppendsEvolve(c, c') && VotesEvolve(c, c')
    ensures forall i {:trigger RequestInv(h', c'.appends[i])} :: 0 <= i < |c'.appends| ==>
      AppendInv(c', h', c'.appends[i]) && ((i < |c.appends| && c'.appends[i] == c.appends[i]) || RequestInv(h', c'.appends[i]))
  {
    forall i | 0 <= i < |c'.appends|
      ensures AppendInv(c', h', c'.appends[i])
    {
    }
  }

  /** The request taken over is the one that what was acknowledged last came with. */
  lemma NewlyDelivered(c: Cluster, h: Hist, k: nat, c': Cluster, h': Hist, m': AppendRpc)
    requires Shape(c) && |c'.servers| == |c.servers| == |h.past| == |h'.past| && k < |c.appends|
    requires TakesOver(c, h, k, c', h', m') && c.appends[k].args.term in h'.tlog && RequestInv(h', c.appends[k])
    ensures RequestInv(h', m')
    ensures var s := c.appends[k].to;
            forall t {:trigger AccDelivered(c', h', s, t)} ::
              t in h'.past[s].acc && (t !in h.past[s].acc || h'.past[s].acc[t] != h.past[s].acc[t]) ==> AccDelivered(c', h', s, t)
  {
    assert DeliveredAt(c', h', c.appends[k].to, c.appends[k].args.term, k);
  }

  lemma AcceptedServer(h: Hist, sv: Server, args: AppendEntriesArgs)
    requires TlogInv(h) && Rooted(h, sv.logs) && args.term in h.tlog && Carries(args, h.tlog[args.term])
    requires |sv.logs| > 0 && Accepts(sv, args)
    ensures var (sv', reply) := AppendEntries(sv, args);
            && Prefix(sv'.logs, h.tlog[args.term]) && |sv'.logs| == CarriedLength(args) && reply.success
            && (args.leaderCommit < CarriedLength(args) ==> Adopted(sv, sv', args.term, args.leaderCommit))
  {
    AppendEntriesCases(sv, args);
    SnapshotAdopted(h, sv.logs, args);
  }

  lemma AcceptIsTakeOver(c: Cluster, h: Hist, k: nat)
    requires Inv(c, h) && k < |c.appends| && Accepts(c.servers[c.appends[k].to], c.appends[k].args)
    requires AppendInv(c, h, c.appends[k]) && RequestInv(h, c.appends[k])
    ensures TakesOver(c, h, k, DoDeliverAppend(c, k), HistAdopt(c, h, k), DoDeliverAppend(c, k).appends[k])
  {
    var m := c.appends[k];
    var sv := c.servers[m.to];
    LogOf(c, h, m.to);
    AcceptedServer(h, sv, m.args);
  }

  lemma DeliverAppendStep2(c: Cluster, h: Hist, k: nat)
    requires Inv2(c, h) && Enabled(c, DeliverAppend(k)) && InOrder(c, DeliverAppend(k))
    requires var c', h' := DoDeliverAppend(c, k), HistAdopt(c, h, k); Inv(c', h') && ActsAt(c, h, c', h', c.appends[k].to)
    ensures Inv2(DoDeliverAppend(c, k), HistAdopt(c, h, k))
  {
    if Accepts(c.servers[c.appends[k].to], c.appends[k].args) {
      AcceptStep2(c, h, k);
    } else {
      RejectStep2(c, h, k);
    }
  }

  lemma AcceptStep2(c: Cluster, h: Hist, k: nat)
    requires Inv2(c, h) && Enabled(c, DeliverAppend(k)) && InOrder(c, DeliverAppend(k))
    requires Accepts(c.servers[c.appends[k].to], c.appends[k].args)
    requires var c', h' := DoDeliverAppend(c, k), HistAdopt(c, h, k); Inv(c', h') && ActsAt(c, h, c', h', c.appends[k].to)
    ensures Inv2(DoDeliverAppend(c, k), HistAdopt(c, h, k))
  {
    var m, c', h' := c.appends[k], DoDeliverAppend(c, k), HistAdopt(c, h, k);
    assert AppendInv(c, h, m) && RequestInv(h, m);
    NoShrink(c, h, k);
    AcceptIsTakeOver(c, h, k);
    AcceptAdvances(c, h, k, c', h', c'.appends[k]);
    AcceptEffect2(c, h, k, c', h', c'.appends[k]);
  }

  lemma RejectStep2(c: Cluster, h: Hist, k: nat)
    requires Inv2(c, h) && Enabled(c, DeliverAppend(k)) && !Accepts(c.servers[c.appends[k].to], c.appends[k].args)
    requires var c', h' := DoDeliverAppend(c, k), HistAdopt(c, h, k); Inv(c', h') && ActsAt(c, h, c', h', c.appends[k].to)
    ensures Inv2(DoDeliverAppend(c, k), HistAdopt(c, h, k))
  {
    AppendEntriesCases(c.servers[c.appends[k].to], c.appends[k].args);
    assert HistAdopt(c, h, k) == h;
    RejectServer2(c, h, k);
    CallEffect2(c, h, c.appends[k].to, k, DoDeliverAppend(c, k), DoDeliverAppend(c, k).appends[k]);
  }

  lemma RejectServer2(c: Cluster, h: Hist, k: nat)
    requires Inv2(c, h) && k < |c.appends| && !Accepts(c.servers[c.appends[k].to], c.appends[k].args)
    requires var c' := DoDeliverAppend(c, k); Inv(c', h) && ActsAt(c, h, c', h, c.appends[k].to)
    ensures ServerInv2(DoDeliverAppend(c, k).servers[c.appends[k].to], h)
  {
    var s := c.appends[k].to;
    AppendEntriesCases(c.servers[s], c.appends[k].args);
    LogKeptServer2(c, h, s, DoDeliverAppend(c, k), h);
  }

  /* ---------- Every step, and the start ---------- */

  // One lemma per event: the step above under its name in `Event`.

  lemma BeginKeeps2(c: Cluster, e: Event, h: Hist)
    requires Ready(c, e, h) && Inv2(c, h) && e.BeginElection? && Kept(c, e, h, Next(c, e), NextHist(c, e, h))
    ensures Inv2(Next(c, e), NextHist(c, e, h))
  {
    BeginElectionStep2(c, h, e.s);
  }

  lemma BallotsKeeps2(c: Cluster, e: Event, h: Hist)
    requires Ready(c, e, h) && Inv2(c, h) && e.SendBallots? && Kept(c, e, h, Next(c, e), NextHist(c, e, h))
    ensures Inv2(Next(c, e), NextHist(c, e, h))
  {
    SendBallotsStep2(c, h, e.s, e.term, e.targets);
  }

  lemma ElectKeeps2(c: Cluster, e: Event, h: Hist)
    requires Ready(c, e, h) && Inv2(c, h) && e.BeElected? && Kept(c, e, h, Next(c, e), NextHist(c, e, h))
    ensures Inv2(Next(c, e), NextHist(c, e, h))
  {
    BeElectedStep2(c, h, e.s);
  }

  lemma VoteKeeps2(c: Cluster, e: Event, h: Hist)
    requires Ready(c, e, h) && Inv2(c, h) && e.DeliverVote? && Kept(c, e, h, Next(c, e), NextHist(c, e, h))
    ensures Inv2(Next(c, e), NextHist(c, e, h))
  {
    DeliverVoteStep2(c, h, e.k);
  }

  lemma CountKeeps2(c: Cluster, e: Event, h: Hist)
    requires Ready(c, e, h) && Inv2(c, h) && e.TakeVoteReply? && Kept(c, e, h, Next(c, e), NextHist(c, e, h))
    ensures Inv2(Next(c, e), NextHist(c, e, h))
  {
    TakeVoteReplyStep2(c, h, e.k);
  }

  lemma BroadcastKeeps2(c: Cluster, e: Event, h: Hist)
    requires Ready(c, e, h) && Inv2(c, h) && BroadcastsAsLeader(c, e) && e.Broadcast? && Kept(c, e, h, Next(c, e), NextHist(c, e, h))
    ensures Inv2(Next(c, e), NextHist(c, e, h))
  {
    BroadcastStep2(c, h, e.s);
  }

  lemma ReplyKeeps2(c: Cluster, e: Event, h: Hist)
    requires Ready(c, e, h) && Inv2(c, h) && e.TakeAppendReply? && Kept(c, e, h, Next(c, e), NextHist(c, e, h))
    ensures Inv2(Next(c, e), NextHist(c, e, h))
  {
    TakeAppendReplyStep2(c, h, e.k);
  }

  lemma CommandKeeps2(c: Cluster, e: Event, h: Hist)
    requires Ready(c, e, h) && Inv2(c, h) && e.ClientStart? && Kept(c, e, h, Next(c, e), NextHist(c, e, h))
    ensures Inv2(Next(c, e), NextHist(c, e, h))
  {
    ClientStartStep2(c, h, e.s, e.command);
  }

  lemma RequestKeeps2(c: Cluster, e: Event, h: Hist)
    requires Ready(c, e, h) && Inv2(c, h) && InOrder(c, e) && e.DeliverAppend? && Kept(c, e, h, Next(c, e), NextHist(c, e, h))
    ensures Inv2(Next(c, e), NextHist(c, e, h))
  {
    DeliverAppendStep2(c, h, e.k);
  }

  lemma RestartKeeps2(c: Cluster, e: Event, h: Hist)
    requires Ready(c, e, h) && Inv2(c, h) && e.Restart? && Kept(c, e, h, Next(c, e), NextHist(c, e, h))
    ensures Inv2(Next(c, e), NextHist(c, e, h))
  {
    RestartStep2(c, h, e.s);
  }

  lemma CampaigningKeeps2(c: Cluster, e: Event, h: Hist)
    requires Ready(c, e, h) && Inv2(c, h) && Campaigning(e) && Kept(c, e, h, Next(c, e), NextHist(c, e, h))
    ensures Inv2(Next(c, e), NextHist(c, e, h))
  {
    match e
    case BeginElection(_) => BeginKeeps2(c, e, h);
    case SendBallots(_, _, _) => BallotsKeeps2(c, e, h);
    case BeElected(_) => ElectKeeps2(c, e, h);
  }

  lemma VotingKeeps2(c: Cluster, e: Event, h: Hist)
    requires Ready(c, e, h) && Inv2(c, h) && Voting(e) && Kept(c, e, h, Next(c, e), NextHist(c, e, h))
    ensures Inv2(Next(c, e), NextHist(c, e, h))
  {
    match e
    case DeliverVote(_) => VoteKeeps2(c, e, h);
    case TakeVoteReply(_) => CountKeeps2(c, e, h);
  }

  lemma LogKeeps2(c: Cluster, e: Event, h: Hist)
    requires Ready(c, e, h) && Inv2(c, h) && BroadcastsAsLeader(c, e) && InOrder(c, e) && (Leading(e) || Following(e))
    requires Kept(c, e, h, Next(c, e), NextHist(c, e, h))
    ensures Inv2(Next(c, e), NextHist(c, e, h))
  {
    match e
    case Broadcast(_) => BroadcastKeeps2(c, e, h);
    case TakeAppendReply(_) => ReplyKeeps2(c, e, h);
    case ClientStart(_, _) => CommandKeeps2(c, e, h);
    case DeliverAppend(_) => RequestKeeps2(c, e, h);
    case Restart(_) => RestartKeeps2(c, e, h);
  }

  lemma StepKeeps2(c: Cluster, e: Event, h: Hist)
    requires Ready(c, e, h) && Inv2(c, h) && Orderly(c, e)
    ensures Inv2(Next(c, e), NextHist(c, e, h))
  {
    StepKeeps(c, e, h);
    if Campaigning(e) {
      CampaigningKeeps2(c, e, h);
    } else if Voting(e) {
      VotingKeeps2(c, e, h);
    } else if Leading(e) || Following(e) {
      LogKeeps2(c, e, h);
    } else {
      QuietStep2(c, e, h);
    }
  }

  lemma InitServer2(n: nat, s: nat)
    requires s < n
    ensures ServerInv2(Init(n).servers[s], InitHist(n))
  {
    var h := InitHist(n);
    assert ChosenBy(h, 0, 0, Ids(n));
    assert CommittedBy(h, [SENTINEL], 1, 0, 0, 0);
  }

  lemma InitServers2(n: nat)
    requires Inv(Init(n), InitHist(n))
    ensures ServersInv2(Init(n), InitHist(n))
  {
    forall s | 0 <= s < n
      ensures ServerInv2(Init(n).servers[s], InitHist(n))
    {
      InitServer2(n, s);
    }
  }

  lemma InitSafety(n: nat)
    ensures SafetyInv(Init(n), InitHist(n))
  {
    var c, h := Init(n), InitHist(n);
    forall v: nat, t: nat, i: nat
      ensures AckSafe(c, h, v, t, i)
    {
    }
  }

  lemma InitKeeps2(n: nat)
    ensures Inv2(Init(n), InitHist(n))
  {
    InitKeeps(n);
    InitServers2(n);
    InitSafety(n);
  }
}
