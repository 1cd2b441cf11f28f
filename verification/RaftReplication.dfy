/** Raft: commit count and back-off. */
module RaftReplication {
  // Single-server facts: what the commit count selects, how far the back-off of nextIndex can go, and what a request
  // leaves of a follower's log.

  import opened RaftLog
  import opened RaftServer
  import opened RaftHistory
  import opened RaftLaws
  import opened RaftSteps
  import opened Quorum

  /* ---------- The commit count (section 5.4.2) ---------- */

  /** The servers a leader counts for an index: itself, and the peers whose matchIndex reaches it. */
  ghost function Supporters(s: Server, idx: nat): set<nat>
    requires |s.matchIndex| == s.peers
  {
    set id | 0 <= id < s.peers && (id == s.me || s.matchIndex[id] >= idx)
  }

  /** Entry idx is of the current term and a majority holds it. */
  ghost predicate Committable(s: Server, idx: nat)
    requires |s.matchIndex| == s.peers
  {
    idx < |s.logs| && s.logs[idx].term == s.currentTerm && Majority(Supporters(s, idx), s.peers)
  }

  /** With at least two servers, the count accepts exactly the current-term entries a majority holds. */
  lemma CountedIsCommittable(s: Server, idx: nat)
    requires |s.matchIndex| == s.peers && s.me < s.peers && idx < |s.logs| && s.peers >= 2
    ensures Counted(s, idx) <==> Committable(s, idx)
  {
    assert Supporters(s, idx) == {s.me} + Holders(s, idx);
    assert |Supporters(s, idx)| == 1 + |Holders(s, idx)|;
    forall v | v in Supporters(s, idx)
      ensures v in Ids(s.peers)
    {
    }
  }

  /** A server without peers counts every index, of any term. */
  lemma LoneServerCountsAll(s: Server, idx: nat)
    requires |s.matchIndex| == s.peers == 1 && idx < |s.logs|
    ensures Counted(s, idx)
  {
  }

  /**
   * The commit loop moves commitIndex to the largest committable index above it, if there is one, and
   * announces the move; otherwise it changes nothing.
   */
  lemma CommitLoopPicksLargest(s: Server)
    requires |s.matchIndex| == s.peers && s.me < s.peers && |s.logs| > 0 && s.peers >= 2
    ensures var s' := AdvanceCommit(s);
            && s' == s.(commitIndex := s'.commitIndex, chanCommit := s'.chanCommit)
            && (forall j :: s'.commitIndex < j ==> !Committable(s, j))
            && (s'.commitIndex != s.commitIndex ==>
                 s'.commitIndex > s.commitIndex && Committable(s, s'.commitIndex) && s'.chanCommit == s.chanCommit + 1)
            && (s'.commitIndex == s.commitIndex ==> s' == s)
  {
    var s' := AdvanceCommit(s);
    var idx := NewCommitIndex(s, LastIndex(s.logs));
    if idx > s.commitIndex {
      CountedIsCommittable(s, idx);
    }
    forall j: nat | s'.commitIndex < j
      ensures !Committable(s, j)
    {
      if j < |s.logs| {
        CountedIsCommittable(s, j);
      }
    }
  }

  /* ---------- Back-off (section 5.3) ---------- */

  /** The non-zero terms among the entries 1, ..., p. */
  ghost function TermsUpTo(log: seq<LogEntry>, p: int): set<nat>
    requires p < |log|
  {
    set i | 1 <= i <= p :: log[i].term
  }

  /** A leader and a follower that is not ahead of it, ready for a probe of the follower. */
  ghost predicate Probing(leader: Server, id: nat, follower: Server) {
    && id < |leader.nextIndex| == |leader.matchIndex| && 1 <= leader.nextIndex[id] <= |leader.logs|
    && follower.currentTerm <= leader.currentTerm
    && TermLog(follower.logs, follower.currentTerm)
  }

  /** The entries from r through p are of one term. */
  ghost predicate IsRun(log: seq<LogEntry>, r: nat, p: nat)
    requires p < |log|
  {
    forall j :: r <= j <= p ==> log[j].term == log[p].term
  }

  lemma ProbeRejected(leader: Server, id: nat, follower: Server)
    requires Probing(leader, id, follower) && !Accepts(follower, AppendArgs(leader, id))
    ensures var args := AppendArgs(leader, id);
            var (follower', reply) := AppendEntries(follower, args);
            && UpdatesPeer(leader, args, reply)
            && 1 <= reply.nextIndex <= args.prevLogIndex
            && (args.prevLogIndex >= |follower.logs| ==> reply.nextIndex == |follower.logs|)
            && (args.prevLogIndex < |follower.logs| ==>
                 IsRun(follower.logs, reply.nextIndex, args.prevLogIndex)
                 && follower.logs[reply.nextIndex - 1].term != follower.logs[args.prevLogIndex].term)
            && follower'.logs == follower.logs
            && DealAppendReply(leader, id, args, reply) == leader.(nextIndex := leader.nextIndex[id := reply.nextIndex])
            && Probing(DealAppendReply(leader, id, args, reply), id, follower')
  {
    AppendEntriesCases(follower, AppendArgs(leader, id));
    RejectionHint(follower, AppendArgs(leader, id));
  }

  /** One rejected probe inside the follower's log skips at least one of its terms for good. */
  lemma RejectionSkipsTerm(log: seq<LogEntry>, t: nat, p: nat, r: nat)
    requires TermLog(log, t) && 1 <= r <= p < |log|
    requires log[r - 1].term != log[p].term
    ensures |TermsUpTo(log, r - 1)| < |TermsUpTo(log, p)|
  {
    var lo, hi := TermsUpTo(log, r - 1), TermsUpTo(log, p);
    assert log[p].term in hi;
    assert log[p].term !in lo;
    assert lo + {log[p].term} <= hi by {
      forall u | u in lo
        ensures u in hi
      {
        var i :| 1 <= i <= r - 1 && log[i].term == u;
        assert 1 <= i <= p;
      }
    }
    SubsetSize(lo + {log[p].term}, hi);
  }

  lemma MoreTerms(log: seq<LogEntry>, p: nat, q: nat)
    requires p <= q < |log|
    ensures |TermsUpTo(log, p)| <= |TermsUpTo(log, q)|
  {
    var lo, hi := TermsUpTo(log, p), TermsUpTo(log, q);
    forall u | u in lo
      ensures u in hi
    {
      var i :| 1 <= i <= p && log[i].term == u;
      assert 1 <= i <= q;
    }
    SubsetSize(lo, hi);
  }

  /** The terms below the entry before `next`, and one rejection more if that entry is missing. */
  ghost function Allowance(log: seq<LogEntry>, next: nat): nat
    requires 1 <= next && |log| > 0
  {
    if next <= |log| then |TermsUpTo(log, next - 1)| else 1 + |TermsUpTo(log, |log| - 1)|
  }

  lemma AllowanceFalls(log: seq<LogEntry>, t: nat, p: nat, r: nat)
    requires TermLog(log, t) && 1 <= r <= p
    requires p >= |log| ==> r == |log|
    requires p < |log| ==> log[r - 1].term != log[p].term
    ensures Allowance(log, r) < Allowance(log, p + 1)
  {
    if p < |log| {
      RejectionSkipsTerm(log, t, p, r);
    }
  }

  lemma AllowanceIsSmall(log: seq<LogEntry>, next: nat)
    requires 1 <= next && |log| > 0
    ensures Allowance(log, next) <= 1 + |TermsUpTo(log, |log| - 1)|
  {
    if next <= |log| {
      MoreTerms(log, next - 1, |log| - 1);
    }
  }

  /** The hint of a rejection uses up a part of the allowance. */
  lemma RejectionUsesAllowance(leader: Server, id: nat, follower: Server)
    requires Probing(leader, id, follower) && !Accepts(follower, AppendArgs(leader, id))
    ensures var next' := AppendEntries(follower, AppendArgs(leader, id)).1.nextIndex;
            next' >= 1 && Allowance(follower.logs, next') < Allowance(follower.logs, leader.nextIndex[id])
  {
    ProbeRejected(leader, id, follower);
    AllowanceFalls(follower.logs, follower.currentTerm, leader.nextIndex[id] - 1,
                   AppendEntries(follower, AppendArgs(leader, id)).1.nextIndex);
  }

  /**
   * How many times the leader's probes are rejected before one succeeds, with the follower's log and the
   * leader's log left alone by others.
   */
  ghost function Rejections(leader: Server, id: nat, follower: Server): (n: nat)
    requires Probing(leader, id, follower)
    ensures n <= Allowance(follower.logs, leader.nextIndex[id])
    decreases leader.nextIndex[id]
  {
    var args := AppendArgs(leader, id);
    if Accepts(follower, args) then 0
    else
      ProbeRejected(leader, id, follower);
      RejectionUsesAllowance(leader, id, follower);
      var (follower', reply) := AppendEntries(follower, args);
      1 + Rejections(DealAppendReply(leader, id, args, reply), id, follower')
  }

  /**
   * Back-off converges: probing is rejected at most once more than there are distinct non-zero terms in the
   * follower's log.
   */
  lemma BackOffConverges(leader: Server, id: nat, follower: Server)
    requires Probing(leader, id, follower)
    ensures Rejections(leader, id, follower) <= 1 + |TermsUpTo(follower.logs, |follower.logs| - 1)|
  {
    AllowanceIsSmall(follower.logs, leader.nextIndex[id]);
  }

  /* ---------- What a request leaves of a follower's log ---------- */

  /**
   * The cut is unconditional: an accepted request keeps the follower's log up to and including position i
   * exactly when it carries the same entries up to there. A request that carries less erases the rest.
   */
  lemma AcceptKeepsIff(s: Server, args: AppendEntriesArgs, i: nat)
    requires |s.logs| > 0 && Accepts(s, args) && i < |s.logs|
    ensures Same(s.logs, AppendEntries(s, args).0.logs, i + 1)
      <==> i < CarriedLength(args) && forall j :: args.prevLogIndex < j <= i ==> args.entries[j - args.prevLogIndex - 1] == s.logs[j]
  {
    AppendEntriesCases(s, args);
    var log' := AppendEntries(s, args).0.logs;
    assert log' == s.logs[..args.prevLogIndex + 1] + args.entries;
    if Same(s.logs, log', i + 1) {
      forall j | args.prevLogIndex < j <= i
        ensures args.entries[j - args.prevLogIndex - 1] == s.logs[j]
      {
        assert log'[j] == s.logs[j];
      }
    }
  }

  /* ---------- matchIndex ---------- */

  /**
   * A reply lowers the recorded match of its peer exactly when it is a success of the present term to a request
   * whose last entry lies below the record: a reply that comes late.
   */
  lemma MatchIndexFallsIff(s: Server, id: nat, args: AppendEntriesArgs, reply: AppendEntriesReply)
    requires id < |s.nextIndex| && id < |s.matchIndex|
    ensures DealAppendReply(s, id, args, reply).matchIndex[id] < s.matchIndex[id] <==>
      && reply.term <= s.currentTerm == args.term && reply.success
      && |args.entries| > 0 && args.entries[|args.entries| - 1].index < s.matchIndex[id]
  {
  }
}
