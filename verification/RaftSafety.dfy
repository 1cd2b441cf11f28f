/** Raft: what holds in every timely run. */
module RaftSafety {
  // At most one leader per term (section 5.2), the Log Matching Property (section 5.3), and index safety. Requests
  // may be lost, delayed and reordered, and servers may crash.

  import opened RaftLog
  import opened RaftServer
  import opened RaftCluster
  import opened RaftHistory
  import opened RaftInvariant
  import opened RaftLaws
  import opened RaftSteps
  import opened RaftPreserve
  import opened RaftEvents
  import opened Quorum

  /* ---------- The history of a run ---------- */

  lemma GrowsTransitive(a: Hist, b: Hist, c: Hist)
    requires Grows(a, b) && Grows(b, c)
    ensures Grows(a, c)
  {
    forall j | 0 <= j < |a.past|
      ensures PastGrows(a.past[j], c.past[j])
    {
      assert PastGrows(a.past[j], b.past[j]) && PastGrows(b.past[j], c.past[j]);
    }
  }

  lemma TimelyStep(n: nat, states: seq<Cluster>, events: seq<Event>, k: nat)
    requires TimelyRun(n, states, events) && k < |events|
    ensures Step(states[k], events[k], states[k + 1]) && Timely(states[k], events[k])
  {
    assert TimelyAt(states, events, k);
  }

  /** The history recorded along a timely run. */
  ghost function HistoryAt(n: nat, states: seq<Cluster>, events: seq<Event>, k: nat): (h: Hist)
    requires TimelyRun(n, states, events) && k < |states|
    ensures |h.past| == |states[k].servers|
  {
    if k == 0 then
      InitHist(n)
    else
      var h := HistoryAt(n, states, events, k - 1);
      TimelyStep(n, states, events, k - 1);
      ShapeKept(states[k - 1], events[k - 1]);
      NextHist(states[k - 1], events[k - 1], h)
  }

  /** The invariant holds all along. */
  lemma {:induction false} InvHolds(n: nat, states: seq<Cluster>, events: seq<Event>, k: nat)
    requires TimelyRun(n, states, events) && k < |states|
    ensures Inv(states[k], HistoryAt(n, states, events, k))
  {
    if k == 0 {
      InitKeeps(n);
    } else {
      InvHolds(n, states, events, k - 1);
      TimelyStep(n, states, events, k - 1);
      StepKeeps(states[k - 1], events[k - 1], HistoryAt(n, states, events, k - 1));
    }
  }

  lemma HistoryStep(n: nat, states: seq<Cluster>, events: seq<Event>, k: nat)
    requires TimelyRun(n, states, events) && k < |events|
    ensures Ready(states[k], events[k], HistoryAt(n, states, events, k))
    ensures states[k + 1] == Next(states[k], events[k])
    ensures HistoryAt(n, states, events, k + 1) == NextHist(states[k], events[k], HistoryAt(n, states, events, k))
    ensures Grows(HistoryAt(n, states, events, k), HistoryAt(n, states, events, k + 1))
  {
    InvHolds(n, states, events, k);
    TimelyStep(n, states, events, k);
    StepKeeps(states[k], events[k], HistoryAt(n, states, events, k));
  }

  lemma HistoryOneMore(n: nat, states: seq<Cluster>, events: seq<Event>, i: nat, k: nat)
    requires TimelyRun(n, states, events) && i <= k < |events|
    requires Grows(HistoryAt(n, states, events, i), HistoryAt(n, states, events, k))
    ensures Grows(HistoryAt(n, states, events, i), HistoryAt(n, states, events, k + 1))
  {
    var h, h1 := HistoryAt(n, states, events, k), HistoryAt(n, states, events, k + 1);
    assert Grows(h, h1) by {
      HistoryStep(n, states, events, k);
    }
    GrowsTransitive(HistoryAt(n, states, events, i), h, h1);
  }

  lemma {:induction false} HistoryGrows(n: nat, states: seq<Cluster>, events: seq<Event>, i: nat, j: nat)
    requires TimelyRun(n, states, events) && i <= j < |states|
    ensures Grows(HistoryAt(n, states, events, i), HistoryAt(n, states, events, j))
    decreases j
  {
    if i < j {
      HistoryGrows(n, states, events, i, j - 1);
      HistoryOneMore(n, states, events, i, j - 1);
    }
  }

  /** An earlier and a later moment of the run under one history. */
  lemma Earlier(n: nat, states: seq<Cluster>, events: seq<Event>, i: nat, a: nat, j: nat)
    requires TimelyRun(n, states, events) && i <= j < |states| && a < |states[i].servers|
    ensures var h, sv := HistoryAt(n, states, events, j), states[i].servers[a];
            && Inv(states[j], h)
            && Rooted(h, sv.logs)
            && (sv.state == Leader ==> sv.currentTerm in h.leader && h.leader[sv.currentTerm] == a)
  {
    var h := HistoryAt(n, states, events, i);
    var log := states[i].servers[a].logs;
    InvHolds(n, states, events, i);
    InvHolds(n, states, events, j);
    HistoryGrows(n, states, events, i, j);
    assert ServerInv(states[i].servers[a], h);
    RootedAtGrows(h, HistoryAt(n, states, events, j), log, |log| - 1);
  }

  /* ---------- The theorems ---------- */

  ghost predicate IsLeader(c: Cluster, s: nat, term: nat) {
    s < |c.servers| && c.servers[s].state == Leader && c.servers[s].currentTerm == term
  }

  /** Election Safety: over a whole run, at most one server is ever leader of a term. */
  lemma ElectionSafety(n: nat, states: seq<Cluster>, events: seq<Event>, i: nat, j: nat, a: nat, b: nat, term: nat)
    requires TimelyRun(n, states, events) && i < |states| && j < |states|
    requires IsLeader(states[i], a, term) && IsLeader(states[j], b, term)
    ensures a == b
  {
    var m := if i <= j then j else i;
    Earlier(n, states, events, i, a, m);
    Earlier(n, states, events, j, b, m);
  }

  /**
   * Log Matching: if two logs, of any two servers at any two moments of a run, hold entries with the same
   * term at an index, they are identical up to that index.
   */
  lemma LogMatching(n: nat, states: seq<Cluster>, events: seq<Event>, i: nat, j: nat, a: nat, b: nat, k: nat)
    requires TimelyRun(n, states, events) && i < |states| && j < |states|
    requires a < |states[i].servers| && b < |states[j].servers|
    requires k < |states[i].servers[a].logs| && k < |states[j].servers[b].logs|
    requires states[i].servers[a].logs[k].term == states[j].servers[b].logs[k].term
    ensures states[i].servers[a].logs[..k + 1] == states[j].servers[b].logs[..k + 1]
  {
    var m := if i <= j then j else i;
    Earlier(n, states, events, i, a, m);
    Earlier(n, states, events, j, b, m);
    RootedLogsMatch(HistoryAt(n, states, events, m), states[i].servers[a].logs, states[j].servers[b].logs, k);
  }

  /* ---------- Votes ---------- */

  /** Server v had its vote of term t for b on disk. */
  ghost predicate VoteOnDisk(c: Cluster, v: nat, t: nat, b: nat) {
    && v < |c.servers| && c.servers[v].disk.Some?
    && c.servers[v].disk.value.currentTerm == t && c.servers[v].disk.value.votedFor == b
  }

  lemma OwnVoteOnDisk(c: Cluster, h: Hist, s: nat, v: nat, t: nat, b: nat)
    requires s < |c.servers| == |h.past| == |c.threads| && c.servers[s].me == s
    requires VotedFor(HistBegin(c, h, s), v, t, b) && !VotedFor(h, v, t, b)
    ensures VoteOnDisk(DoBeginElection(c, s), v, t, b)
  {
  }

  lemma PeerVoteOnDisk(c: Cluster, h: Hist, k: nat, v: nat, t: nat, b: nat)
    requires k < |c.votes| && c.votes[k].to < |c.servers| == |h.past| && |c.servers[c.votes[k].to].logs| > 0
    requires VotedFor(HistVote(c, h, k), v, t, b) && !VotedFor(h, v, t, b)
    ensures VoteOnDisk(DoDeliverVote(c, k), v, t, b)
  {
  }

  lemma OtherwiseNoVote(c: Cluster, e: Event, h: Hist, v: nat)
    requires Shape(c) && Enabled(c, e) && !Faults(c, e) && v < |h.past| == |c.servers|
    requires !e.BeginElection? && !e.DeliverVote?
    ensures v < |NextHist(c, e, h).past| && NextHist(c, e, h).past[v].votes == h.past[v].votes
  {
  }

  lemma NewVote(c: Cluster, e: Event, h: Hist, v: nat, t: nat, b: nat)
    requires Shape(c) && Enabled(c, e) && !Faults(c, e) && v < |h.past| == |c.servers|
    requires VotedFor(NextHist(c, e, h), v, t, b) && !VotedFor(h, v, t, b)
    ensures VoteOnDisk(Next(c, e), v, t, b)
  {
    match e
    case BeginElection(s) => OwnVoteOnDisk(c, h, s, v, t, b);
    case DeliverVote(k) => PeerVoteOnDisk(c, h, k, v, t, b);
    case _ => OtherwiseNoVote(c, e, h, v);
  }

  lemma VoteIsOldOrNew(n: nat, states: seq<Cluster>, events: seq<Event>, k: nat, v: nat, t: nat, b: nat)
    requires TimelyRun(n, states, events) && k < |events| && VotedFor(HistoryAt(n, states, events, k + 1), v, t, b)
    ensures VotedFor(HistoryAt(n, states, events, k), v, t, b) || VoteOnDisk(states[k + 1], v, t, b)
  {
    var h := HistoryAt(n, states, events, k);
    HistoryStep(n, states, events, k);
    if !VotedFor(h, v, t, b) {
      NewVote(states[k], events[k], h, v, t, b);
    }
  }

  lemma {:induction false} VoteWasCast(n: nat, states: seq<Cluster>, events: seq<Event>, i: nat, v: nat, t: nat, b: nat)
    requires TimelyRun(n, states, events) && i < |states| && VotedFor(HistoryAt(n, states, events, i), v, t, b)
    ensures exists j :: 0 <= j <= i && VoteOnDisk(states[j], v, t, b)
  {
    if i > 0 {
      VoteIsOldOrNew(n, states, events, i - 1, v, t, b);
      if VotedFor(HistoryAt(n, states, events, i - 1), v, t, b) {
        VoteWasCast(n, states, events, i - 1, v, t, b);
      } else {
        assert VoteOnDisk(states[i], v, t, b);
      }
    }
  }

  /** Whoever leads a term had, by then, the votes of a majority for that term, each written to its voter's disk. */
  lemma LeaderWonMajority(n: nat, states: seq<Cluster>, events: seq<Event>, i: nat, s: nat, term: nat) returns (q: set<nat>)
    requires TimelyRun(n, states, events) && i < |states| && IsLeader(states[i], s, term)
    ensures Majority(q, |states[i].servers|)
    ensures forall v :: v in q ==> exists j :: 0 <= j <= i && VoteOnDisk(states[j], v, term, s)
  {
    var c, h := states[i], HistoryAt(n, states, events, i);
    InvHolds(n, states, events, i);
    assert ServerInv(c.servers[s], h) && TermInv(c, h, term);
    q := h.past[s].counted[term];
    CountedIsMajority(c, h, s, term);
    forall v | v in q
      ensures exists j :: 0 <= j <= i && VoteOnDisk(states[j], v, term, s)
    {
      assert VotedFor(h, v, term, s);
      VoteWasCast(n, states, events, i, v, term, s);
    }
  }

  /**
   * The voteCount of a server standing for election in its current term never exceeds the number of distinct
   * servers that voted for it in that term.
   */
  lemma VoteCountIsHonest(n: nat, states: seq<Cluster>, events: seq<Event>, i: nat, s: nat) returns (q: set<nat>)
    requires TimelyRun(n, states, events) && i < |states| && s < |states[i].servers|
    requires states[i].servers[s].votedFor == s
    ensures states[i].servers[s].voteCount <= |q|
    ensures forall v :: v in q ==> exists j :: 0 <= j <= i && VoteOnDisk(states[j], v, states[i].servers[s].currentTerm, s)
  {
    var c, h := states[i], HistoryAt(n, states, events, i);
    var term := c.servers[s].currentTerm;
    InvHolds(n, states, events, i);
    assert ServerInv(c.servers[s], h);
    q := h.past[s].counted[term];
    forall v | v in q
      ensures exists j :: 0 <= j <= i && VoteOnDisk(states[j], v, term, s)
    {
      assert VotedFor(h, v, term, s);
      VoteWasCast(n, states, events, i, v, term, s);
    }
  }

  /* ---------- Requests and what they leave behind ---------- */

  /** The request was made by its sender's broadcast at moment j, from the log the sender had then. */
  ghost predicate SentAt(states: seq<Cluster>, j: nat, m: AppendRpc) {
    && j < |states| && m.from < |states[j].servers|
    && IsLeader(states[j], m.from, m.args.term)
    && Carries(m.args, states[j].servers[m.from].logs)
    && CarriedLength(m.args) == |states[j].servers[m.from].logs|
  }

  lemma OnlyBroadcastsAdd(c: Cluster, e: Event)
    requires Shape(c) && Enabled(c, e) && !Faults(c, e)
    ensures !e.Broadcast? ==> |Next(c, e).appends| == |c.appends|
  {
  }

  lemma NewRequestSent(c: Cluster, e: Event, k: nat)
    requires Shape(c) && Enabled(c, e) && !Faults(c, e) && Timely(c, e)
    requires |c.appends| <= k < |Next(c, e).appends|
    ensures e.Broadcast? && var m := Next(c, e).appends[k]; SentAt([c], 0, m)
  {
    OnlyBroadcastsAdd(c, e);
    assert Next(c, e).appends[k] == HeartBeats(AdvanceCommit(c.servers[e.s]), c.threads[e.s].epoch)[k - |c.appends|];
    AppendArgsCarry(AdvanceCommit(c.servers[e.s]), Next(c, e).appends[k].to);
  }

  lemma OldRequestKept(c: Cluster, e: Event, k: nat)
    requires Shape(c) && Enabled(c, e) && !Faults(c, e) && k < |c.appends|
    ensures k < |Next(c, e).appends| && Next(c, e).appends[k] == c.appends[k].(status := Next(c, e).appends[k].status)
  {
  }

  lemma {:induction false} EveryRequestWasSent(n: nat, states: seq<Cluster>, events: seq<Event>, i: nat, k: nat)
    requires TimelyRun(n, states, events) && i < |states| && k < |states[i].appends|
    ensures exists j :: 0 <= j <= i && SentAt(states, j, states[i].appends[k])
  {
    if i > 0 {
      TimelyStep(n, states, events, i - 1);
      var c, e := states[i - 1], events[i - 1];
      if k < |c.appends| {
        OldRequestKept(c, e, k);
        EveryRequestWasSent(n, states, events, i - 1, k);
        var j :| 0 <= j <= i - 1 && SentAt(states, j, c.appends[k]);
        assert SentAt(states, j, states[i].appends[k]);
      } else {
        NewRequestSent(c, e, k);
        assert SentAt(states, i - 1, states[i].appends[k]);
      }
    }
  }

  /**
   * Snapshot adoption: a request that succeeds leaves the follower with exactly the log its leader had at
   * some earlier moment of its term, when it sent the request.
   */
  lemma SuccessAdoptsSentLog(n: nat, states: seq<Cluster>, events: seq<Event>, i: nat, k: nat)
    requires TimelyRun(n, states, events) && i < |events| && events[i] == DeliverAppend(k)
    requires Step(states[i], events[i], states[i + 1])
    requires states[i + 1].appends[k].status.Answered? && states[i + 1].appends[k].status.reply.success
    ensures exists j :: 0 <= j <= i && SentAt(states, j, states[i].appends[k])
                     && states[i + 1].servers[states[i].appends[k].to].logs == states[j].servers[states[i].appends[k].from].logs
  {
    var c, h := states[i], HistoryAt(n, states, events, i);
    var m := c.appends[k];
    EveryRequestWasSent(n, states, events, i, k);
    var j :| 0 <= j <= i && SentAt(states, j, m);
    InvHolds(n, states, events, i);
    Earlier(n, states, events, j, m.from, i);
    AdoptedSnapshot(c, h, k, states[j].servers[m.from].logs);
  }

  lemma AcceptedLog(h: Hist, sv: Server, args: AppendEntriesArgs)
    requires |sv.logs| > 0 && TlogInv(h) && Rooted(h, sv.logs) && AppendEntries(sv, args).1.success
    requires args.term in h.tlog && Carries(args, h.tlog[args.term])
    ensures var log' := AppendEntries(sv, args).0.logs; Prefix(log', h.tlog[args.term]) && |log'| == CarriedLength(args)
  {
    AppendEntriesCases(sv, args);
    SnapshotAdopted(h, sv.logs, args);
  }

  /** The log a successful delivery leaves is the one the request was made from. */
  lemma AdoptedSnapshot(c: Cluster, h: Hist, k: nat, sent: seq<LogEntry>)
    requires Inv(c, h) && Enabled(c, DeliverAppend(k)) && DoDeliverAppend(c, k).appends[k].status.reply.success
    requires Rooted(h, sent) && Carries(c.appends[k].args, sent) && CarriedLength(c.appends[k].args) == |sent|
    ensures DoDeliverAppend(c, k).servers[c.appends[k].to].logs == sent
  {
    var m := c.appends[k];
    assert AppendInv(c, h, m);
    LogOf(c, h, m.to);
    AcceptedLog(h, c.servers[m.to], m.args);
    SameSnapshot(h, m.args, AppendEntries(c.servers[m.to], m.args).0.logs, sent);
  }

  lemma SameSnapshot(h: Hist, args: AppendEntriesArgs, a: seq<LogEntry>, b: seq<LogEntry>)
    requires TlogInv(h) && args.term in h.tlog && Carries(args, h.tlog[args.term])
    requires Prefix(a, h.tlog[args.term]) && |a| == CarriedLength(args)
    requires Rooted(h, b) && Carries(args, b) && CarriedLength(args) == |b|
    ensures a == b
  {
    var tl := h.tlog[args.term];
    var last := |b| - 1;
    assert tl[last].term == b[last].term by {
      if |args.entries| > 0 {
        assert args.entries[|args.entries| - 1] == b[last] == tl[last];
      }
    }
    LeaderLogRooted(h, args.term);
    RootedLogsMatch(h, tl, b, last);
  }

  /* ---------- Index safety ---------- */

  /**
   * Entry i of every log has index i; terms never fall along a log, are positive after the sentinel and never
   * above the server's term; and a leader's nextIndex for every peer points into its log or right behind it.
   */
  lemma IndexSafety(n: nat, states: seq<Cluster>, events: seq<Event>, i: nat, s: nat)
    requires TimelyRun(n, states, events) && i < |states| && s < |states[i].servers|
    ensures var sv := states[i].servers[s];
            && TermLog(sv.logs, sv.currentTerm)
            && (sv.state == Leader ==> CanBroadcast(sv))
  {
    var c, h := states[i], HistoryAt(n, states, events, i);
    InvHolds(n, states, events, i);
    assert ServerInv(c.servers[s], h);
    RootedIsTermLog(h, c.servers[s].logs);
  }

  /**
   * The back-off search always finds its break above the sentinel: every hint is a real position, the end of a log too
   * short or the start of the run of one term that ends at prevLogIndex.
   */
  lemma BackOffFindsBreak(n: nat, states: seq<Cluster>, events: seq<Event>, i: nat, s: nat, args: AppendEntriesArgs)
    requires TimelyRun(n, states, events) && i < |states| && s < |states[i].servers| && |states[i].servers[s].logs| > 0
    requires var sv := states[i].servers[s];
             args.term >= sv.currentTerm && !AppendEntries(sv, args).1.success
    ensures var logs, next := states[i].servers[s].logs, AppendEntries(states[i].servers[s], args).1.nextIndex;
            && 1 <= next <= args.prevLogIndex
            && (args.prevLogIndex >= |logs| ==> next == |logs|)
            && (args.prevLogIndex < |logs| ==>
                 && (forall j :: next <= j <= args.prevLogIndex ==> logs[j].term == logs[args.prevLogIndex].term)
                 && logs[next - 1].term != logs[args.prevLogIndex].term)
  {
    IndexSafety(n, states, events, i, s);
    RejectionHint(states[i].servers[s], args);
  }
}
