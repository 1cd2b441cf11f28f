/**
 * How a step keeps the part of `RaftCommit.Inv2` about single servers and calls: first the servers that do not
 * act, whose facts survive because the history only grows; then the acting server, whose log, acknowledgments,
 * candidacies, matchIndex and commit are taken one at a time; then the calls in flight.
 */
module RaftCommitSteps {
  import opened RaftLog
  import opened RaftServer
  import opened RaftCluster
  import opened RaftHistory
  import opened RaftInvariant
  import opened RaftCommit
  import opened RaftCompleteness
  import opened Quorum

  /* ---------- Servers other than the actor, and quiet changes ---------- */

  lemma CandGrows(sv: Server, h: Hist, h': Hist)
    requires sv.me < |h.past| && Grows(h, h') && CandInv(sv, h)
    requires h'.past[sv.me].counted.Keys == h.past[sv.me].counted.Keys
    ensures CandInv(sv, h')
  {
    var p, p' := h.past[sv.me], h'.past[sv.me];
    assert PastGrows(p, p');
    forall t | t in p'.counted
      ensures t in p'.cand && Rooted(h', p'.cand[t]) && LastTerm(p'.cand[t]) < t
    {
      RootedAtGrows(h, h', p.cand[t], |p.cand[t]| - 1);
    }
  }

  lemma MatchStays(c: Cluster, h: Hist, c': Cluster, h': Hist, sv: Server)
    requires Advances(c, h, c', h') && MatchInv(sv, h)
    ensures MatchInv(sv, h')
  {
    if sv.state == Leader {
      forall id | 0 <= id < sv.peers && id != sv.me && sv.matchIndex[id] != 0
        ensures Acked(h', id, sv.currentTerm, sv.matchIndex[id])
      {
        AckedStays(c, h, c', h', id, sv.currentTerm, sv.matchIndex[id]);
      }
    }
  }

  /** What is committed and applied stays so while the log, the commit and what was applied are kept. */
  lemma CommitKept(c: Cluster, h: Hist, c': Cluster, h': Hist, sv: Server, sv': Server)
    requires Advances(c, h, c', h') && CommitInv(sv, h) && sv.currentTerm <= sv'.currentTerm
    requires sv'.logs == sv.logs && sv'.commitIndex == sv.commitIndex
    requires sv'.lastApplied == sv.lastApplied && sv'.chanApply == sv.chanApply
    ensures CommitInv(sv', h')
  {
    CommittedStays(c, h, c', h', sv.logs, sv.commitIndex + 1, sv.currentTerm, sv'.logs, sv'.currentTerm);
  }

  lemma OtherAcc(sv: Server, h: Hist, h': Hist, s: nat)
    requires sv.me < |h.past| && |sv.logs| > 0 && sv.me != s && GrowsAt(h, h', s) && AccInv(sv, h)
    ensures AccInv(sv, h')
  {
  }

  lemma OtherServer2(c: Cluster, h: Hist, c': Cluster, h': Hist, s: nat, j: nat)
    requires Acts2(c, h, c', h', s) && j < |c.servers| && j != s && ServerInv2(c.servers[j], h)
    ensures ServerInv2(c'.servers[j], h')
  {
    ActsAdvances(c, h, c', h', s);
    var sv := c.servers[j];
    OtherAcc(sv, h, h', s);
    CandGrows(sv, h, h');
    MatchStays(c, h, c', h', sv);
    CommitKept(c, h, c', h', sv, sv);
  }

  lemma AssembleServers2(c: Cluster, h: Hist, c': Cluster, h': Hist, s: nat)
    requires Acts2(c, h, c', h', s) && ServersInv2(c, h) && ServerInv2(c'.servers[s], h')
    ensures ServersInv2(c', h')
  {
    forall j | 0 <= j < |c.servers|
      ensures ServerInv2(c'.servers[j], h')
    {
      if j != s {
        assert ServerInv2(c.servers[j], h);
        OtherServer2(c, h, c', h', s, j);
      }
    }
  }

  lemma SameLogAcc(sv: Server, h: Hist, sv': Server, h': Hist)
    requires sv.me < |h.past| == |h'.past| && sv'.me == sv.me && |sv.logs| > 0
    requires AccInv(sv, h) && LastTerm(sv.logs) <= sv.currentTerm <= sv'.currentTerm && sv'.logs == sv.logs
    requires h'.tlog == h.tlog && h'.leader == h.leader && h'.past[sv.me].acc == h.past[sv.me].acc
    ensures AccInv(sv', h')
  {
  }

  lemma SameLogCand(sv: Server, h: Hist, sv': Server, h': Hist)
    requires sv.me < |h.past| && Grows(h, h') && sv'.me == sv.me
    requires CandInv(sv, h) && CountInv(sv, h) && sv.currentTerm <= sv'.currentTerm && sv'.logs == sv.logs
    requires h'.past[sv.me].counted.Keys == h.past[sv.me].counted.Keys
    ensures CandInv(sv', h')
  {
    CandGrows(sv, h, h');
    assert PastGrows(h.past[sv.me], h'.past[sv.me]);
    assert forall t :: t in h'.past[sv.me].counted ==> t in h.past[sv.me].counted;
  }

  /** The actor keeps its log and what it applied, and moves to a later term only as a non-leader. */
  lemma SameLogServer2(c: Cluster, h: Hist, c': Cluster, h': Hist, s: nat)
    requires Acts2(c, h, c', h', s) && ServerInv2(c.servers[s], h) && LogInv(c.servers[s], h) && CountInv(c.servers[s], h)
    requires h'.tlog == h.tlog && h'.leader == h.leader && h'.past[s].acc == h.past[s].acc
    requires h'.past[s].counted.Keys == h.past[s].counted.Keys
    requires var sv, sv' := c.servers[s], c'.servers[s];
             && sv'.logs == sv.logs && sv'.commitIndex == sv.commitIndex
             && sv'.lastApplied == sv.lastApplied && sv'.chanApply == sv.chanApply
             && (sv'.state == Leader ==> sv.state == Leader && sv'.currentTerm == sv.currentTerm && sv'.matchIndex == sv.matchIndex)
    ensures ServerInv2(c'.servers[s], h')
  {
    ActsAdvances(c, h, c', h', s);
    var sv, sv' := c.servers[s], c'.servers[s];
    SameLogAcc(sv, h, sv', h');
    SameLogCand(sv, h, sv', h');
    MatchStays(c, h, c', h', sv);
    CommitKept(c, h, c', h', sv, sv');
  }

  lemma BeginCand(sv: Server, h: Hist, sv': Server, h': Hist)
    requires sv.me < |h.past| && Grows(h, h') && CandInv(sv, h) && LogInv(sv, h)
    requires sv'.me == sv.me && sv'.currentTerm == sv.currentTerm + 1 && sv'.logs == sv.logs
    requires h'.past[sv.me].counted == h.past[sv.me].counted[sv.currentTerm + 1 := {sv.me}]
    requires h'.past[sv.me].cand == h.past[sv.me].cand[sv.currentTerm + 1 := sv.logs]
    ensures CandInv(sv', h')
  {
    RootedAtGrows(h, h', sv.logs, |sv.logs| - 1);
    var p, p' := h.past[sv.me], h'.past[sv.me];
    forall t | t in p'.counted
      ensures t in p'.cand && Rooted(h', p'.cand[t]) && LastTerm(p'.cand[t]) < t
    {
      if t != sv.currentTerm + 1 {
        RootedAtGrows(h, h', p.cand[t], |p.cand[t]| - 1);
      }
    }
  }

  lemma BeginServer2(c: Cluster, h: Hist, c': Cluster, h': Hist, s: nat)
    requires Acts2(c, h, c', h', s) && ServerInv2(c.servers[s], h) && LogInv(c.servers[s], h)
    requires h'.tlog == h.tlog && h'.leader == h.leader && h'.past[s].acc == h.past[s].acc
    requires var sv, sv' := c.servers[s], c'.servers[s];
             && sv'.state != Leader && sv'.currentTerm == sv.currentTerm + 1 && sv'.logs == sv.logs
             && sv'.commitIndex == sv.commitIndex && sv'.lastApplied == sv.lastApplied && sv'.chanApply == sv.chanApply
    requires var u := c.servers[s].currentTerm + 1;
             && h'.past[s].counted == h.past[s].counted[u := {s}]
             && h'.past[s].cand == h.past[s].cand[u := c.servers[s].logs]
    ensures ServerInv2(c'.servers[s], h')
  {
    var sv, sv' := c.servers[s], c'.servers[s];
    SameLogAcc(sv, h, sv', h');
    BeginCand(sv, h, sv', h');
    assert CommitInv(sv', h') by {
      ActsAdvances(c, h, c', h', s);
      CommitKept(c, h, c', h', sv, sv');
    }
  }

  lemma ElectServer2(c: Cluster, h: Hist, c': Cluster, h': Hist, s: nat)
    requires Acts2(c, h, c', h', s) && ServerInv2(c.servers[s], h)
    requires |c.servers[s].chanBeElected| > 0 && c'.servers[s] == ComeToPower(c.servers[s]) && c.servers[s].peers == |c.servers|
    requires c.servers[s].currentTerm !in h.tlog && c.servers[s].currentTerm !in h.leader
    requires h' == HistLeaderLog(h, s, c.servers[s].currentTerm, c.servers[s].logs)
    ensures ServerInv2(c'.servers[s], h')
  {
    ActsAdvances(c, h, c', h', s);
    var sv := c.servers[s];
    CandGrows(sv, h, h');
    CommitKept(c, h, c', h', sv, c'.servers[s]);
    LeaderAcc(sv, h, c'.servers[s], h');
    assert MatchInv(c'.servers[s], h');
  }

  /** The leader of a term has its whole log acknowledged by itself. */
  lemma LeaderAcc(sv: Server, h: Hist, sv': Server, h': Hist)
    requires sv.me < |h.past| && |sv.logs| > 0 && |sv'.logs| > 0 && AccInv(sv, h)
    requires sv'.me == sv.me && sv'.currentTerm == sv.currentTerm
    requires h' == HistLeaderLog(h, sv.me, sv.currentTerm, sv'.logs)
    requires sv.currentTerm in h.leader ==> h.leader[sv.currentTerm] == sv.me
    ensures AccInv(sv', h')
  {
  }

  lemma StartServer2(c: Cluster, h: Hist, c': Cluster, h': Hist, s: nat, command: int)
    requires Acts2(c, h, c', h', s) && ServerInv2(c.servers[s], h) && LeaderInv(c.servers[s], h)
    requires c.servers[s].state == Leader && c'.servers[s] == Start(c.servers[s], command)
    requires h' == HistLeaderLog(h, s, c.servers[s].currentTerm, c'.servers[s].logs)
    ensures ServerInv2(c'.servers[s], h')
  {
    ActsAdvances(c, h, c', h', s);
    var sv, sv' := c.servers[s], c'.servers[s];
    CandGrows(sv, h, h');
    MatchStays(c, h, c', h', sv);
    LeaderAcc(sv, h, sv', h');
    StartCommit(c, h, c', h', sv, sv');
  }

  /** What is committed and applied stays so while the log only grows. */
  lemma StartCommit(c: Cluster, h: Hist, c': Cluster, h': Hist, sv: Server, sv': Server)
    requires Advances(c, h, c', h') && CommitInv(sv, h) && sv.currentTerm == sv'.currentTerm
    requires Prefix(sv.logs, sv'.logs) && sv'.commitIndex == sv.commitIndex
    requires sv'.lastApplied == sv.lastApplied && sv'.chanApply == sv.chanApply
    ensures CommitInv(sv', h')
  {
    CommittedStays(c, h, c', h', sv.logs, sv.commitIndex + 1, sv.currentTerm, sv'.logs, sv.currentTerm);
  }

  /** A server that leaves its term as a non-leader. */
  lemma LaterServer2(h: Hist, sv: Server, sv': Server)
    requires sv.me < |h.past| && |sv.logs| > 0 && ServerInv2(sv, h) && LogInv(sv, h) && CountInv(sv, h)
    requires sv'.me == sv.me && sv'.currentTerm > sv.currentTerm && sv'.state != Leader && sv'.logs == sv.logs
    requires sv'.commitIndex == sv.commitIndex && sv'.lastApplied == sv.lastApplied && sv'.chanApply == sv.chanApply
    ensures ServerInv2(sv', h)
  {
    SameLogAcc(sv, h, sv', h);
    var t: nat, i: nat :| CommittedBy(h, sv.logs, sv.commitIndex + 1, sv.currentTerm, t, i);
    assert CommittedBy(h, sv'.logs, sv'.commitIndex + 1, sv'.currentTerm, t, i);
  }

  /** A server that only notes what its peers hold. */
  lemma NotingServer2(h: Hist, sv: Server, sv': Server)
    requires sv.me < |h.past| && |sv.logs| > 0 && ServerInv2(sv, h)
    requires sv' == sv.(nextIndex := sv'.nextIndex, matchIndex := sv'.matchIndex) && MatchInv(sv', h)
    ensures ServerInv2(sv', h)
  {
  }

  /** The last entry of a request stands where its leader's log has it. */
  lemma LastCarried(h: Hist, args: AppendEntriesArgs)
    requires TlogInv(h) && args.term in h.tlog && Carries(args, h.tlog[args.term]) && |args.entries| > 0
    ensures args.entries[|args.entries| - 1].index == CarriedLength(args) - 1
  {
    assert TermLog(h.tlog[args.term], args.term);
  }

  lemma AckServer2(h: Hist, sv: Server, id: nat, args: AppendEntriesArgs, reply: AppendEntriesReply)
    requires sv.me < |h.past| && |sv.logs| > 0 && ServerInv2(sv, h) && LogInv(sv, h) && CountInv(sv, h)
    requires UpdatesPeer(sv, args, reply) ==> id < |sv.nextIndex| && id < |sv.matchIndex|
    requires TlogInv(h) && args.term in h.tlog && Carries(args, h.tlog[args.term])
    requires reply.success ==> Acked(h, id, args.term, CarriedLength(args) - 1)
    ensures ServerInv2(DealAppendReply(sv, id, args, reply), h)
  {
    if reply.term > sv.currentTerm {
      LaterServer2(h, sv, DealAppendReply(sv, id, args, reply));
    } else {
      if |args.entries| > 0 {
        LastCarried(h, args);
      }
      NotingServer2(h, sv, DealAppendReply(sv, id, args, reply));
    }
  }

  lemma ApplyServer2(h: Hist, sv: Server)
    requires sv.me < |h.past| && |sv.logs| > 0 && ServerInv2(sv, h)
    ensures ServerInv2(Apply(sv), h)
  {
  }

  /* ---------- Committing ---------- */

  lemma HoldersAcked(sv: Server, h: Hist, idx: nat)
    requires sv.me < sv.peers == |h.past| && |sv.logs| > 0 && LeaderInv(sv, h) && AccInv(sv, h) && MatchInv(sv, h)
    requires sv.state == Leader && |sv.matchIndex| == sv.peers && 0 < idx < |sv.logs|
    ensures var q := Holders(sv, idx) + {sv.me};
            && |q| == |Holders(sv, idx)| + 1 && q <= Ids(sv.peers)
            && forall v :: v in q ==> Acked(h, v, sv.currentTerm, idx)
  {
    forall v | v in Holders(sv, idx)
      ensures Acked(h, v, sv.currentTerm, idx)
    {
      assert Acked(h, v, sv.currentTerm, sv.matchIndex[v]);
    }
  }

  /** Section 5.4.2: an index the commit test accepts is chosen in the leader's term. */
  lemma CountedIsCommitted(sv: Server, h: Hist, idx: nat)
    requires sv.me < sv.peers == |h.past| && |sv.logs| > 0 && ServerInv2(sv, h) && LeaderInv(sv, h) && LogInv(sv, h) && TlogInv(h)
    requires sv.state == Leader && |sv.matchIndex| == sv.peers && 0 < idx < |sv.logs| && Counted(sv, idx)
    requires forall t :: t in h.tlog && t > 0 ==> t in h.leader && h.leader[t] < |h.past|
    ensures Committed(h, sv.logs, idx + 1, sv.currentTerm)
  {
    var u := sv.currentTerm;
    if sv.logs[idx].term == u {
      var q := Holders(sv, idx) + {sv.me};
      HoldersAcked(sv, h, idx);
      assert ChosenBy(h, u, idx, q);
      assert CommittedBy(h, sv.logs, idx + 1, u, u, idx);
    } else {
      OnlyServerCommitted(sv, h, idx);
    }
  }

  /** In a cluster of one server, the test accepts every index, and rightly so. */
  lemma OnlyServerCommitted(sv: Server, h: Hist, idx: nat)
    requires sv.me < sv.peers == |h.past| == 1 && 0 < idx < |sv.logs| && AccInv(sv, h) && LogInv(sv, h) && TlogInv(h)
    requires forall t :: t in h.tlog && t > 0 ==> t in h.leader && h.leader[t] < |h.past|
    ensures Committed(h, sv.logs, idx + 1, sv.currentTerm)
  {
    RootedEverywhere(h, sv.logs, idx);
    RootedIsTermLog(h, sv.logs);
    var t := sv.logs[idx].term;
    assert RootedAt(h, sv.logs, idx);
    assert Acked(h, 0, t, idx);
    assert ChosenBy(h, t, idx, {0}) by {
      assert forall v: nat :: v in {0} ==> v in Ids(1);
    }
    assert CommittedBy(h, sv.logs, idx + 1, sv.currentTerm, t, idx);
  }

  /** A server that only advances its commit. */
  lemma CommittingServer2(h: Hist, sv: Server, sv': Server)
    requires sv.me < |h.past| && |sv.logs| > 0 && ServerInv2(sv, h)
    requires sv' == sv.(commitIndex := sv'.commitIndex, chanCommit := sv'.chanCommit)
    requires sv.commitIndex <= sv'.commitIndex < |sv.logs| && Committed(h, sv.logs, sv'.commitIndex + 1, sv.currentTerm)
    ensures ServerInv2(sv', h)
  {
  }

  lemma BroadcastServer2(sv: Server, h: Hist)
    requires sv.me < sv.peers == |h.past| && |sv.logs| > 0 && ServerInv2(sv, h) && LeaderInv(sv, h) && LogInv(sv, h) && TlogInv(h)
    requires sv.state == Leader && |sv.matchIndex| == sv.peers
    requires forall t :: t in h.tlog && t > 0 ==> t in h.leader && h.leader[t] < |h.past|
    ensures ServerInv2(AdvanceCommit(sv), h)
  {
    var idx := NewCommitIndex(sv, LastIndex(sv.logs));
    if idx > sv.commitIndex {
      CountedIsCommitted(sv, h, idx);
      CommittingServer2(h, sv, AdvanceCommit(sv));
    }
  }

  /* ---------- Taking over the leader's log ---------- */

  /** What a server that took over a request for term u has become, apart from its log. */
  ghost predicate Adopted(sv: Server, sv': Server, u: nat, leaderCommit: nat) {
    && sv'.me == sv.me && sv.currentTerm <= u == sv'.currentTerm
    && sv'.state == (if sv.currentTerm < u then Follower else sv.state)
    && sv'.lastApplied == sv.lastApplied && sv'.chanApply == sv.chanApply
    && sv'.commitIndex == (if leaderCommit > sv.commitIndex then leaderCommit else sv.commitIndex)
  }

  /** A follower in the term of the request has nothing committed beyond what it took over in that term. */
  lemma CommittedInTerm(sv: Server, h: Hist, u: nat, log': seq<LogEntry>)
    requires sv.me < |h.past| && |sv.logs| > 0 && AccInv(sv, h) && sv.commitIndex < |sv.logs|
    requires sv.currentTerm == u && u in h.past[sv.me].acc && u in h.tlog
    requires Prefix(log', h.tlog[u]) && h.past[sv.me].acc[u] <= |log'|
    ensures Same(sv.logs, log', sv.commitIndex + 1)
  {
  }

  /** What was committed before term u is in every log of its leader. */
  lemma CommittedBefore(c: Cluster, h: Hist, log: seq<LogEntry>, len: nat, t: nat, u: nat, k: nat, log': seq<LogEntry>)
    requires |h.past| == |c.servers| && SafetyInv(c, h) && CommittedBy(h, log, len, u, t, k) && t < u && u in h.tlog
    requires Prefix(log', h.tlog[u]) && 0 < len <= |log|
    requires forall i :: |log'| <= i < |h.tlog[u]| ==> h.tlog[u][i].term == u
    requires TermLog(h.tlog[t], t)
    ensures Same(log, log', len)
  {
    ChosenNotBlocked(c, h, t, k);
    var q :| ChosenBy(h, t, k, q);
    assert LeaderSafe(c, h, t, u, k);
    assert forall i :: 0 <= i < len ==> h.tlog[t][i].term <= t;
  }

  /** The log a follower takes over still holds everything the follower knows to be committed. */
  lemma AdoptKeepsCommitted(c: Cluster, h: Hist, s: nat, args: AppendEntriesArgs, log': seq<LogEntry>)
    requires Inv(c, h) && SafetyInv(c, h) && s < |c.servers| && ServerInv2(c.servers[s], h)
    requires c.servers[s].currentTerm <= args.term && args.term in h.tlog && Carries(args, h.tlog[args.term])
    requires Prefix(log', h.tlog[args.term]) && |log'| == CarriedLength(args)
    requires args.term in h.past[s].acc ==> h.past[s].acc[args.term] <= CarriedLength(args)
    ensures Same(c.servers[s].logs, log', c.servers[s].commitIndex + 1)
  {
    var sv, u := c.servers[s], args.term;
    var len := sv.commitIndex + 1;
    var t: nat, k: nat :| CommittedBy(h, sv.logs, len, sv.currentTerm, t, k);
    assert TermLog(h.tlog[t], t);
    if t < u {
      assert CommittedBy(h, sv.logs, len, u, t, k);
      CommittedBefore(c, h, sv.logs, len, t, u, k, log');
    } else if u in h.past[s].acc {
      CommittedInTerm(sv, h, u, log');
    } else {
      assert ServerInv(sv, h);
      CommittedByNewcomer(sv, h, len, u, k, log');
    }
  }

  /** A follower that took nothing over in term u yet has no entry of that term. */
  lemma CommittedByNewcomer(sv: Server, h: Hist, len: nat, u: nat, k: nat, log': seq<LogEntry>)
    requires sv.me < |h.past| && |sv.logs| > 0 && AccInv(sv, h) && LogInv(sv, h) && TlogInv(h)
    requires sv.currentTerm == u && u !in h.past[sv.me].acc && u in h.tlog && 0 < len <= |sv.logs|
    requires CommittedBy(h, sv.logs, len, u, u, k) && Prefix(log', h.tlog[u])
    requires forall i :: |log'| <= i < |h.tlog[u]| ==> h.tlog[u][i].term == u
    ensures Same(sv.logs, log', len)
  {
    RootedIsTermLog(h, sv.logs);
    assert sv.logs[len - 1].term <= LastTerm(sv.logs) < u;
    assert forall i :: 0 <= i < len ==> sv.logs[i].term <= LastTerm(sv.logs);
  }

  lemma AdoptCommit(c: Cluster, h: Hist, c': Cluster, h': Hist, sv: Server, sv': Server, u: nat, leaderCommit: nat)
    requires Advances(c, h, c', h') && CommitInv(sv, h) && u in h.tlog && Adopted(sv, sv', u, leaderCommit)
    requires Same(sv.logs, sv'.logs, sv.commitIndex + 1)
    requires Prefix(sv'.logs, h.tlog[u]) && leaderCommit < |sv'.logs|
    requires Committed(h, h.tlog[u], leaderCommit + 1, u)
    ensures CommitInv(sv', h')
  {
    if leaderCommit > sv.commitIndex {
      CommittedStays(c, h, c', h', h.tlog[u], leaderCommit + 1, u, sv'.logs, u);
    } else {
      CommittedStays(c, h, c', h', sv.logs, sv.commitIndex + 1, sv.currentTerm, sv'.logs, u);
    }
  }

  lemma AdoptAcc(sv: Server, h: Hist, sv': Server, h': Hist)
    requires sv.me < |h.past| == |h'.past| && sv'.me == sv.me && |sv.logs| > 0 && |sv'.logs| > 0 && AccInv(sv, h)
    requires sv'.currentTerm >= sv.currentTerm && sv'.currentTerm in h.tlog && Prefix(sv'.logs, h.tlog[sv'.currentTerm])
    requires sv'.currentTerm in h.leader ==> h.leader[sv'.currentTerm] != sv.me
    requires h'.tlog == h.tlog && h'.leader == h.leader
    requires h'.past[sv.me].acc == h.past[sv.me].acc[sv'.currentTerm := |sv'.logs|]
    ensures AccInv(sv', h')
  {
  }

  /** A server other than the leader of its term does not lead, and has counted votes of known terms. */
  lemma AdopterFollows(c: Cluster, h: Hist, s: nat, u: nat)
    requires Inv(c, h) && s < |c.servers| && u in h.leader && h.leader[u] != s
    ensures c.servers[s].state == Leader ==> c.servers[s].currentTerm != u
    ensures CountInv(c.servers[s], h)
  {
    assert ServerInv(c.servers[s], h);
  }

  /** The receiver's log still holds what it knew to be committed, and it does not lead. */
  lemma AdoptServer2(c: Cluster, h: Hist, c': Cluster, h': Hist, s: nat, args: AppendEntriesArgs)
    requires Acts2(c, h, c', h', s) && ServerInv2(c.servers[s], h) && CountInv(c.servers[s], h)
    requires c.servers[s].currentTerm <= args.term && args.term in h.tlog
    requires args.term in h.leader ==> h.leader[args.term] != s
    requires h'.tlog == h.tlog && h'.leader == h.leader && h'.past[s].counted == h.past[s].counted && h'.past[s].cand == h.past[s].cand
    requires h'.past[s].acc == h.past[s].acc[args.term := CarriedLength(args)]
    requires args.leaderCommit < CarriedLength(args) && Committed(h, h.tlog[args.term], args.leaderCommit + 1, args.term)
    requires var log' := c'.servers[s].logs;
             && Prefix(log', h.tlog[args.term]) && |log'| == CarriedLength(args)
             && Same(c.servers[s].logs, log', c.servers[s].commitIndex + 1)
             && Adopted(c.servers[s], c'.servers[s], args.term, args.leaderCommit) && c'.servers[s].state != Leader
    ensures ServerInv2(c'.servers[s], h')
  {
    var sv, sv' := c.servers[s], c'.servers[s];
    ActsAdvances(c, h, c', h', s);
    AdoptCommit(c, h, c', h', sv, sv', args.term, args.leaderCommit);
    AdoptAcc(sv, h, sv', h');
    AdoptCand(sv, h, sv', h');
  }

  lemma AdoptCand(sv: Server, h: Hist, sv': Server, h': Hist)
    requires sv.me < |h.past| && Grows(h, h') && CandInv(sv, h) && CountInv(sv, h) && sv'.me == sv.me
    requires h'.past[sv.me].counted == h.past[sv.me].counted && h'.past[sv.me].cand == h.past[sv.me].cand
    requires sv'.currentTerm in h'.tlog
    ensures CandInv(sv', h')
  {
    var p := h.past[sv.me];
    forall t | t in p.counted
      ensures Rooted(h', p.cand[t])
    {
      RootedAtGrows(h, h', p.cand[t], |p.cand[t]| - 1);
    }
  }

  /* ---------- A restart ---------- */

  lemma StartIsChosen(c: Cluster, h: Hist)
    requires Inv(c, h) && ServersInv2(c, h) && |c.servers| > 0
    ensures Chosen(h, 0, 0)
  {
    var q := Ids(|c.servers|);
    forall v | v in q
      ensures Acked(h, v, 0, 0)
    {
      assert ServerInv2(c.servers[v], h);
    }
    assert ChosenBy(h, 0, 0, q);
  }

  lemma RestartServer2(c: Cluster, h: Hist, s: nat)
    requires Inv(c, h) && ServersInv2(c, h) && s < |c.servers|
    ensures ServerInv2(Make(s, |c.servers|, c.servers[s].disk), h)
  {
    var sv := c.servers[s];
    assert ServerInv2(sv, h) && ServerInv(sv, h);
    StartIsChosen(c, h);
    RootedIsTermLog(h, sv.logs);
    assert CommittedBy(h, sv.logs, 1, sv.currentTerm, 0, 0);
  }
}
