/** Raft: safe logs. */
module RaftCompleteness {
  // Every ordered step keeps `RaftCommit.SafetyInv`: later leaders hold what may have been chosen before. An entry
  // is either in the log of every later leader, voter and candidate in question, or a majority has moved on without
  // it, so that it can never be chosen; the vote test carries this from voters to candidates, and majorities carry
  // it to winners.

  import opened RaftLog
  import opened RaftServer
  import opened RaftCluster
  import opened RaftHistory
  import opened RaftInvariant
  import opened RaftPreserve
  import opened RaftCommit

  /** A step of server s under which the history advances. */
  ghost predicate Acts2(c: Cluster, h: Hist, c': Cluster, h': Hist, s: nat) {
    ActsAt(c, h, c', h', s) && AccStep(h.past[s], h'.past[s], c.servers[s].currentTerm)
  }

  lemma ActsAdvances(c: Cluster, h: Hist, c': Cluster, h': Hist, s: nat)
    requires Acts2(c, h, c', h', s)
    ensures Advances(c, h, c', h')
  {
  }

  /* ---------- Steps that leave all logs and acknowledgements alone ---------- */

  lemma LeadersFrame(c: Cluster, h: Hist, c': Cluster, h': Hist, s: nat)
    requires Acts2(c, h, c', h', s) && SafetyInv(c, h) && h'.tlog == h.tlog
    ensures forall t, t', i {:trigger LeaderSafe(c', h', t, t', i)} :: LeaderSafe(c', h', t, t', i)
  {
    ActsAdvances(c, h, c', h', s);
    forall t: nat, t': nat, i: nat
      ensures LeaderSafe(c', h', t, t', i)
    {
      assert LeaderSafe(c, h, t, t', i);
      if t < t' && t' in h.tlog && EntryOf(h, t, i) {
        SafeStays(c, h, c', h', t, i, h.tlog[t'], h'.tlog[t']);
      }
    }
  }

  /** Acknowledgements other than those of the acting server. */
  lemma OtherAck(c: Cluster, h: Hist, c': Cluster, h': Hist, s: nat, v: nat, t: nat, i: nat)
    requires Acts2(c, h, c', h', s) && AckSafe(c, h, v, t, i)
    requires v != s || c'.servers[s].logs == c.servers[s].logs
    requires Acked(h', v, t, i) ==> Acked(h, v, t, i)
    requires Acked(h', v, t, i) && EntryOf(h', t, i) ==> EntryOf(h, t, i)
    ensures AckSafe(c', h', v, t, i)
  {
    ActsAdvances(c, h, c', h', s);
    if v < |c.servers| && Acked(h', v, t, i) && EntryOf(h', t, i) {
      SafeStays(c, h, c', h', t, i, c.servers[v].logs, c'.servers[v].logs);
    }
  }

  /** Votes that were given before the step. */
  lemma OldVoteSafe(c: Cluster, h: Hist, c': Cluster, h': Hist, s: nat, v: nat, u: nat, b: nat, t: nat, i: nat)
    requires Acts2(c, h, c', h', s) && VoteSafe(c, h, v, u, b, t, i)
    requires VotedFor(h', v, u, b) ==> VotedFor(h, v, u, b)
    requires t < u && Acked(h', v, t, i) ==> Acked(h, v, t, i)
    requires Acked(h', v, t, i) && EntryOf(h', t, i) && t < u ==> EntryOf(h, t, i)
    ensures VoteSafe(c', h', v, u, b, t, i)
  {
    ActsAdvances(c, h, c', h', s);
    if VotedFor(h', v, u, b) && u !in h'.tlog && t < u && Acked(h', v, t, i) && EntryOf(h', t, i) {
      assert PastGrows(h.past[b], h'.past[b]);
      SafeStays(c, h, c', h', t, i, h.past[b].cand[u], h'.past[b].cand[u]);
    }
  }

  /** A step that at most adds votes, each of which is safe. */
  lemma SafetyFrame(c: Cluster, h: Hist, c': Cluster, h': Hist, s: nat)
    requires Acts2(c, h, c', h', s) && SafetyInv(c, h)
    requires h'.tlog == h.tlog && h'.past[s].acc == h.past[s].acc && c'.servers[s].logs == c.servers[s].logs
    requires forall u, b, t, i {:trigger VoteSafe(c', h', s, u, b, t, i)} ::
      VotedFor(h', s, u, b) && !VotedFor(h, s, u, b) ==> VoteSafe(c', h', s, u, b, t, i)
    ensures SafetyInv(c', h')
  {
    LeadersFrame(c, h, c', h', s);
    forall v: nat, t: nat, i: nat
      ensures AckSafe(c', h', v, t, i)
    {
      assert AckSafe(c, h, v, t, i);
      OtherAck(c, h, c', h', s, v, t, i);
    }
    forall v: nat, u: nat, b: nat, t: nat, i: nat
      ensures VoteSafe(c', h', v, u, b, t, i)
    {
      assert VoteSafe(c, h, v, u, b, t, i);
      if VotedFor(h', v, u, b) ==> VotedFor(h, v, u, b) {
        OldVoteSafe(c, h, c', h', s, v, u, b, t, i);
      }
    }
  }

  /* ---------- An election begins: the candidate votes for its own log ---------- */

  lemma BeginSafety(c: Cluster, h: Hist, c': Cluster, h': Hist, s: nat)
    requires Acts2(c, h, c', h', s) && SafetyInv(c, h)
    requires h'.tlog == h.tlog && h'.past[s].acc == h.past[s].acc && c'.servers[s].logs == c.servers[s].logs
    requires var u := c.servers[s].currentTerm + 1;
             && h'.past[s].votes == h.past[s].votes[u := s]
             && h'.past[s].cand == h.past[s].cand[u := c.servers[s].logs]
    ensures SafetyInv(c', h')
  {
    ActsAdvances(c, h, c', h', s);
    forall u: nat, b: nat, t: nat, i: nat | VotedFor(h', s, u, b) && !VotedFor(h, s, u, b)
      ensures VoteSafe(c', h', s, u, b, t, i)
    {
      assert AckSafe(c, h, s, t, i);
      if Acked(h, s, t, i) && EntryOf(h, t, i) {
        SafeStays(c, h, c', h', t, i, c.servers[s].logs, c.servers[s].logs);
      }
    }
    SafetyFrame(c, h, c', h', s);
  }

  /* ---------- A vote: the up-to-date test carries safety from the voter to the candidate ---------- */

  /** Section 5.4.1: a candidate whose log is at least as up to date holds what the voter's log safely holds. */
  lemma UpToDateIsSafe(c: Cluster, h: Hist, t: nat, i: nat, voter: seq<LogEntry>, cand: seq<LogEntry>)
    requires TlogInv(h) && Rooted(h, voter) && Rooted(h, cand) && EntryOf(h, t, i)
    requires UpToDate(LastTerm(cand), LastIndex(cand), voter)
    requires LeaderSafe(c, h, t, LastTerm(cand), i)
    requires Safe(c, h, t, i, voter)
    ensures Safe(c, h, t, i, cand)
  {
    if Same(h.tlog[t], voter, i + 1) {
      RootedIsTermLog(h, voter);
      RootedIsTermLog(h, cand);
      assert voter[i].term == t;
      if LastTerm(cand) == LastTerm(voter) {
        assert RootedAt(h, voter, |voter| - 1) && RootedAt(h, cand, |cand| - 1);
      } else {
        assert LastTerm(cand) > t;
        assert RootedAt(h, cand, |cand| - 1);
        var w := LastTerm(cand);
        if Same(h.tlog[t], h.tlog[w], i + 1) {
          assert h.tlog[w][i].term == t;
          assert TermLog(h.tlog[w], w);
          assert i < |cand| - 1;
        }
      }
    }
  }

  lemma VoteSafety(c: Cluster, h: Hist, c': Cluster, h': Hist, s: nat, u: nat, b: nat, lastTerm: nat, lastIndex: nat)
    requires Acts2(c, h, c', h', s) && TlogInv(h) && SafetyInv(c, h) && b < |h.past|
    requires h'.tlog == h.tlog && h'.past[s].acc == h.past[s].acc && c'.servers[s].logs == c.servers[s].logs
    requires h'.past[s].votes == h.past[s].votes[u := b] && h'.past[s].cand == h.past[s].cand
    requires Rooted(h, c.servers[s].logs)
    requires u in h.past[b].cand && Rooted(h, h.past[b].cand[u]) && LastTerm(h.past[b].cand[u]) < u
    requires u !in h.tlog ==> lastTerm == LastTerm(h.past[b].cand[u]) && lastIndex == LastIndex(h.past[b].cand[u])
    requires UpToDate(lastTerm, lastIndex, c.servers[s].logs)
    ensures SafetyInv(c', h')
  {
    ActsAdvances(c, h, c', h', s);
    var log, cand := c.servers[s].logs, h.past[b].cand[u];
    forall u': nat, b': nat, t: nat, i: nat | VotedFor(h', s, u', b') && !VotedFor(h, s, u', b')
      ensures VoteSafe(c', h', s, u', b', t, i)
    {
      assert u' == u && b' == b;
      if u !in h.tlog && t < u && Acked(h, s, t, i) && EntryOf(h, t, i) {
        assert AckSafe(c, h, s, t, i);
        assert LeaderSafe(c, h, t, LastTerm(cand), i);
        UpToDateIsSafe(c, h, t, i, log, cand);
        assert PastGrows(h.past[b], h'.past[b]);
        SafeStays(c, h, c', h', t, i, cand, cand);
      }
    }
    SafetyFrame(c, h, c', h', s);
  }

  /* ---------- An election is won ---------- */

  /** The heart of Leader Completeness: a majority voted, and each voter vouches for what it acknowledged. */
  lemma WinnerIsSafe(c: Cluster, h: Hist, s: nat, u: nat, t: nat, i: nat)
    requires Inv(c, h) && SafetyInv(c, h) && s < |c.servers|
    requires u !in h.tlog && t < u && EntryOf(h, t, i)
    requires u in h.past[s].counted && 2 * |h.past[s].counted[u]| > |c.servers| && u in h.past[s].cand
    ensures Safe(c, h, t, i, h.past[s].cand[u])
  {
    var q := h.past[s].counted[u];
    assert ServerInv(c.servers[s], h);
    CountedIsMajority(c, h, s, u);
    forall v | v in q
      ensures v < |c.servers| && VotedFor(h, v, u, s) && c.servers[v].currentTerm >= u
    {
      assert VotedFor(h, v, u, s);
      assert ServerInv(c.servers[v], h);
    }
    if v :| v in q && Acked(h, v, t, i) {
      assert VoteSafe(c, h, v, u, s, t, i);
    } else {
      assert BlockedBy(c, h, t, i, q);
    }
  }

  /** Server s becomes leader with its log, won by the votes counted. */
  ghost predicate Elects(c: Cluster, h: Hist, c': Cluster, h': Hist, s: nat) {
    && Acts2(c, h, c', h', s) && Inv(c, h) && SafetyInv(c, h)
    && c'.servers[s].logs == c.servers[s].logs && h'.past[s].votes == h.past[s].votes
    && var u := c.servers[s].currentTerm;
       && u !in h.tlog && h'.tlog == h.tlog[u := c.servers[s].logs]
       && u in h.past[s].counted && 2 * |h.past[s].counted[u]| > |c.servers|
       && u in h.past[s].cand && h.past[s].cand[u] == c.servers[s].logs
       && h'.past[s].acc == h.past[s].acc[u := |c.servers[s].logs|]
       && LastTerm(c.servers[s].logs) < u
       && (forall v, t :: 0 <= v < |h.past| && t in h.past[v].acc ==> t in h.tlog)
  }

  /** The new leader has no entry of its own term yet. */
  lemma NoEntryYet(c: Cluster, h: Hist, c': Cluster, h': Hist, s: nat, t: nat, i: nat)
    requires Elects(c, h, c', h', s) && EntryOf(h', t, i)
    ensures t != c.servers[s].currentTerm && EntryOf(h, t, i)
  {
    assert ServerInv(c.servers[s], h);
    RootedIsTermLog(h, c.servers[s].logs);
  }

  lemma ElectLeaders(c: Cluster, h: Hist, c': Cluster, h': Hist, s: nat, t: nat, t': nat, i: nat)
    requires Elects(c, h, c', h', s)
    ensures LeaderSafe(c', h', t, t', i)
  {
    ActsAdvances(c, h, c', h', s);
    var u, log := c.servers[s].currentTerm, c.servers[s].logs;
    if t < t' && t' in h'.tlog && EntryOf(h', t, i) {
      NoEntryYet(c, h, c', h', s, t, i);
      if t' == u {
        WinnerIsSafe(c, h, s, u, t, i);
        SafeStays(c, h, c', h', t, i, log, log);
      } else {
        assert LeaderSafe(c, h, t, t', i);
        SafeStays(c, h, c', h', t, i, h.tlog[t'], h'.tlog[t']);
      }
    }
  }

  lemma ElectAcks(c: Cluster, h: Hist, c': Cluster, h': Hist, s: nat, v: nat, t: nat, i: nat)
    requires Elects(c, h, c', h', s)
    ensures AckSafe(c', h', v, t, i)
  {
    if v < |c.servers| && Acked(h', v, t, i) && EntryOf(h', t, i) {
      NoEntryYet(c, h, c', h', s, t, i);
      assert AckSafe(c, h, v, t, i);
      OtherAck(c, h, c', h', s, v, t, i);
    }
  }

  lemma ElectVotes(c: Cluster, h: Hist, c': Cluster, h': Hist, s: nat, v: nat, w: nat, b: nat, t: nat, i: nat)
    requires Elects(c, h, c', h', s)
    ensures VoteSafe(c', h', v, w, b, t, i)
  {
    if EntryOf(h', t, i) {
      NoEntryYet(c, h, c', h', s, t, i);
      assert VoteSafe(c, h, v, w, b, t, i);
      OldVoteSafe(c, h, c', h', s, v, w, b, t, i);
    }
  }

  lemma ElectSafety(c: Cluster, h: Hist, c': Cluster, h': Hist, s: nat)
    requires Elects(c, h, c', h', s)
    ensures SafetyInv(c', h')
  {
    forall t: nat, t': nat, i: nat
      ensures LeaderSafe(c', h', t, t', i)
    {
      ElectLeaders(c, h, c', h', s, t, t', i);
    }
    forall v: nat, t: nat, i: nat
      ensures AckSafe(c', h', v, t, i)
    {
      ElectAcks(c, h, c', h', s, v, t, i);
    }
    forall v: nat, w: nat, b: nat, t: nat, i: nat
      ensures VoteSafe(c', h', v, w, b, t, i)
    {
      ElectVotes(c, h, c', h', s, v, w, b, t, i);
    }
  }

  /* ---------- A leader extends its log ---------- */

  /** An entry a leader makes after a later leader was elected is blocked from the start. */
  lemma LateEntryBlocked(c: Cluster, h: Hist, c': Cluster, h': Hist, s: nat, u: nat, i: nat)
    requires Acts2(c, h, c', h', s) && Inv(c, h) && u in h.leader && c.servers[s].currentTerm < u
    requires c'.servers[s].currentTerm == c.servers[s].currentTerm
    requires forall v :: 0 <= v < |h.past| && v != s ==> !Acked(h', v, c.servers[s].currentTerm, i)
    ensures Blocked(c', h', c.servers[s].currentTerm, i)
  {
    assert TermInv(c, h, u);
    var l := h.leader[u];
    var q := h.past[l].counted[u];
    assert ServerInv(c.servers[l], h);
    CountedIsMajority(c, h, l, u);
    forall v | v in q
      ensures v < |c.servers| && c'.servers[v].currentTerm >= u && v != s
    {
      assert VotedFor(h, v, u, l);
      assert ServerInv(c.servers[v], h);
    }
    assert BlockedBy(c', h', c.servers[s].currentTerm, i, q);
  }

  /** Leader s appends one entry of its term to its log. */
  ghost predicate Extends(c: Cluster, h: Hist, c': Cluster, h': Hist, s: nat) {
    && Acts2(c, h, c', h', s) && Inv(c, h) && SafetyInv(c, h)
    && h'.past[s].votes == h.past[s].votes
    && var u, log, log' := c.servers[s].currentTerm, c.servers[s].logs, c'.servers[s].logs;
       && c'.servers[s].currentTerm == u
       && u in h.leader && h.leader[u] == s && u in h.tlog && h.tlog[u] == log && h'.tlog == h.tlog[u := log']
       && |log'| == |log| + 1 && Prefix(log, log') && log'[|log|].term == u
       && h'.past[s].acc == h.past[s].acc[u := |log'|]
       && (forall v :: 0 <= v < |h.past| && u in h.past[v].acc ==> h.past[v].acc[u] <= |log|)
       && u in h.past[s].acc && h.past[s].acc[u] == |log|
  }

  lemma StartLeaders(c: Cluster, h: Hist, c': Cluster, h': Hist, s: nat, t: nat, t': nat, i: nat)
    requires Extends(c, h, c', h', s)
    ensures LeaderSafe(c', h', t, t', i)
  {
    ActsAdvances(c, h, c', h', s);
    if t < t' && t' in h'.tlog && EntryOf(h', t, i) {
      if t == c.servers[s].currentTerm && i == |c.servers[s].logs| {
        LateEntryBlocked(c, h, c', h', s, t', i);
      } else {
        assert LeaderSafe(c, h, t, t', i);
        SafeStays(c, h, c', h', t, i, h.tlog[t'], h'.tlog[t']);
      }
    }
  }

  lemma StartAcks(c: Cluster, h: Hist, c': Cluster, h': Hist, s: nat, v: nat, t: nat, i: nat)
    requires Extends(c, h, c', h', s)
    ensures AckSafe(c', h', v, t, i)
  {
    ActsAdvances(c, h, c', h', s);
    assert AckSafe(c, h, v, t, i);
    var isNew := v == s && t == c.servers[s].currentTerm && i == |c.servers[s].logs|;
    if v < |c.servers| && Acked(h', v, t, i) && EntryOf(h', t, i) && !isNew {
      SafeStays(c, h, c', h', t, i, c.servers[v].logs, c'.servers[v].logs);
    }
  }

  lemma StartVotes(c: Cluster, h: Hist, c': Cluster, h': Hist, s: nat, v: nat, w: nat, b: nat, t: nat, i: nat)
    requires Extends(c, h, c', h', s)
    ensures VoteSafe(c', h', v, w, b, t, i)
  {
    assert VoteSafe(c, h, v, w, b, t, i);
    assert v < |c.servers| ==> ServerInv(c.servers[v], h);
    if v == s && t == c.servers[s].currentTerm && t < w {
      assert !VotedFor(h', v, w, b);
    } else {
      OldVoteSafe(c, h, c', h', s, v, w, b, t, i);
    }
  }

  lemma StartSafety(c: Cluster, h: Hist, c': Cluster, h': Hist, s: nat)
    requires Extends(c, h, c', h', s)
    ensures SafetyInv(c', h')
  {
    forall t: nat, t': nat, i: nat
      ensures LeaderSafe(c', h', t, t', i)
    {
      StartLeaders(c, h, c', h', s, t, t', i);
    }
    forall v: nat, t: nat, i: nat
      ensures AckSafe(c', h', v, t, i)
    {
      StartAcks(c, h, c', h', s, v, t, i);
    }
    forall v: nat, w: nat, b: nat, t: nat, i: nat
      ensures VoteSafe(c', h', v, w, b, t, i)
    {
      StartVotes(c, h, c', h', s, v, w, b, t, i);
    }
  }

  /* ---------- A follower takes over the leader's log ---------- */

  /** Server s takes over the log of the leader of args.term as far as the request carries it. */
  ghost predicate Adopts(c: Cluster, h: Hist, c': Cluster, h': Hist, s: nat, args: AppendEntriesArgs) {
    && Acts2(c, h, c', h', s) && Inv(c, h) && SafetyInv(c, h)
    && h'.tlog == h.tlog && h'.past[s].votes == h.past[s].votes
    && var u, log' := args.term, c'.servers[s].logs;
       && c.servers[s].currentTerm <= u && u in h.tlog && Carries(args, h.tlog[u])
       && Prefix(log', h.tlog[u]) && |log'| == CarriedLength(args)
       && h'.past[s].acc == h.past[s].acc[u := |log'|]
       && (forall t :: t in h.past[s].acc ==> t <= c.servers[s].currentTerm)
       && c'.servers[s].currentTerm == u
       && (forall t :: t in h'.past[s].votes ==> t <= u)
  }

  lemma AdoptAcks(c: Cluster, h: Hist, c': Cluster, h': Hist, s: nat, args: AppendEntriesArgs, v: nat, t: nat, i: nat)
    requires Adopts(c, h, c', h', s, args)
    ensures AckSafe(c', h', v, t, i)
  {
    var u := args.term;
    assert AckSafe(c, h, v, t, i);
    if v != s {
      OtherAck(c, h, c', h', s, v, t, i);
    } else if Acked(h', s, t, i) && EntryOf(h, t, i) && t < u {
      ActsAdvances(c, h, c', h', s);
      assert LeaderSafe(c, h, t, u, i);
      SafeStays(c, h, c', h', t, i, h.tlog[u], h.tlog[u]);
    }
  }

  lemma AdoptVotes(c: Cluster, h: Hist, c': Cluster, h': Hist, s: nat, args: AppendEntriesArgs,
                   v: nat, w: nat, b: nat, t: nat, i: nat)
    requires Adopts(c, h, c', h', s, args)
    ensures VoteSafe(c', h', v, w, b, t, i)
  {
    assert VoteSafe(c, h, v, w, b, t, i);
    if v == s && t == args.term && t < w {
      assert !VotedFor(h', v, w, b);
    } else {
      OldVoteSafe(c, h, c', h', s, v, w, b, t, i);
    }
  }

  lemma AdoptSafety(c: Cluster, h: Hist, c': Cluster, h': Hist, s: nat, args: AppendEntriesArgs)
    requires Adopts(c, h, c', h', s, args)
    ensures SafetyInv(c', h')
  {
    LeadersFrame(c, h, c', h', s);
    forall v: nat, t: nat, i: nat
      ensures AckSafe(c', h', v, t, i)
    {
      AdoptAcks(c, h, c', h', s, args, v, t, i);
    }
    forall v: nat, w: nat, b: nat, t: nat, i: nat
      ensures VoteSafe(c', h', v, w, b, t, i)
    {
      AdoptVotes(c, h, c', h', s, args, v, w, b, t, i);
    }
  }
}
