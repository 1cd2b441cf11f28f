/**
 * Raft: runs worth knowing. What an ordered run can do, among it what the comments of the program exclude; and how
 * State Machine Safety fails when requests overtake each other.
 */
module RaftScenarios {
  import opened RaftLog
  import opened RaftServer
  import opened RaftCluster
  import opened RaftDurable
  import opened RaftHistory
  import opened RaftReplication
  import opened RaftTraces
  import opened Quorum

  /* ---------- Servers at rest ---------- */

  /** Nothing was committed or applied yet. */
  ghost predicate Fresh(c: Cluster, s: nat)
    requires s < |c.servers| == |c.threads|
  {
    && c.servers[s].commitIndex == c.servers[s].lastApplied == c.servers[s].chanCommit == 0
    && c.servers[s].chanApply == [] && !c.threads[s].applying
  }

  /** Server s is an idle follower in the given term with the given log. */
  ghost predicate Rests(c: Cluster, s: nat, term: nat, logs: seq<LogEntry>) {
    Idle(c, s) && Fresh(c, s) && c.servers[s].currentTerm == term && c.servers[s].logs == logs
  }

  /** Server s leads with the given term, log and vectors. */
  ghost predicate Leads(c: Cluster, s: nat, term: nat, logs: seq<LogEntry>, next: seq<nat>, match_: seq<nat>) {
    && s < |c.servers| == |c.threads| && Fresh(c, s)
    && c.servers[s].state == Leader && c.threads[s].loop == AtSwitch
    && c.servers[s].currentTerm == term && c.servers[s].logs == logs && c.servers[s].chanBeElected == []
    && c.servers[s].nextIndex == next && c.servers[s].matchIndex == match_
  }

  /** The logs of at most two entries in these scenarios. */
  function Log1(t: nat, x: int): seq<LogEntry> {
    [SENTINEL, LogEntry(1, t, x)]
  }

  function Log2(t: nat, x: int, u: nat, y: int): seq<LogEntry> {
    [SENTINEL, LogEntry(1, t, x), LogEntry(2, u, y)]
  }

  lemma InitRests(n: nat, s: nat)
    requires s < n
    ensures Rests(Init(n), s, 0, [SENTINEL])
  {
  }

  /** A restart leaves term and log, and an idle follower. */
  lemma Reboot(g: Gap, n: nat, c: Cluster, s: nat) returns (c': Cluster)
    requires At(g, n, c) && s < n
    ensures At(g, n, c') && c'.votes == c.votes && c'.appends == c.appends
    ensures Rests(c', s, c.servers[s].currentTerm, c.servers[s].logs)
    ensures forall j :: 0 <= j < n && j != s ==> c'.servers[j] == c.servers[j] && c'.threads[j] == c.threads[j]
  {
    var states, events :| EndsIn(g, n, states, events, c);
    DurableState(n, states, events, |events|);
    assert DiskInv(c.servers[s]);
    c' := ReachStep(g, n, c, Restart(s));
  }

  lemma GetCommand(g: Gap, n: nat, c: Cluster, s: nat, command: int) returns (c': Cluster)
    requires At(g, n, c) && s < n && c.servers[s].state == Leader
    ensures At(g, n, c') && c'.threads == c.threads && c'.votes == c.votes && c'.appends == c.appends
    ensures c'.servers == c.servers[s := Start(c.servers[s], command)]
  {
    c' := ReachStep(g, n, c, ClientStart(s, command));
  }

  /** No entry above commitIndex is counted. */
  lemma NothingToCommit(sv: Server)
    requires |sv.matchIndex| == sv.peers && |sv.logs| > 0
    requires forall idx :: sv.commitIndex < idx < |sv.logs| ==> !Counted(sv, idx)
    ensures AdvanceCommit(sv) == sv
  {
  }

  /** Entries of earlier terms are not counted. */
  lemma OldEntriesWait(sv: Server)
    requires |sv.matchIndex| == sv.peers >= 2 && |sv.logs| > 0
    requires forall idx :: sv.commitIndex < idx < |sv.logs| ==> sv.logs[idx].term != sv.currentTerm
    ensures AdvanceCommit(sv) == sv
  {
    NothingToCommit(sv);
  }

  /** Entries that at most `few` peers hold are not counted if `few` peers and the server are no majority. */
  lemma FewHold(sv: Server, few: set<nat>)
    requires |sv.matchIndex| == sv.peers && |sv.logs| > 0 && 2 * (1 + |few|) <= sv.peers
    requires forall id :: 0 <= id < sv.peers && id != sv.me && sv.matchIndex[id] > sv.commitIndex ==> id in few
    ensures AdvanceCommit(sv) == sv
  {
    forall idx | sv.commitIndex < idx < |sv.logs|
      ensures !Counted(sv, idx)
    {
      SubsetSize(Holders(sv, idx), few);
    }
    NothingToCommit(sv);
  }

  /** The last entry is committed: it is of the current term, and enough peers hold it. */
  lemma LastIsCommitted(sv: Server, enough: set<nat>)
    requires |sv.matchIndex| == sv.peers && |sv.logs| > 0 && sv.me < sv.peers
    requires sv.commitIndex < LastIndex(sv.logs) && LastTerm(sv.logs) == sv.currentTerm && 2 * (1 + |enough|) > sv.peers
    requires forall id :: id in enough ==> id < sv.peers && id != sv.me && sv.matchIndex[id] >= LastIndex(sv.logs)
    ensures AdvanceCommit(sv) == sv.(commitIndex := LastIndex(sv.logs), chanCommit := sv.chanCommit + 1)
  {
    SubsetSize(enough, Holders(sv, LastIndex(sv.logs)));
    assert Counted(sv, LastIndex(sv.logs));
  }

  /* ---------- A command is applied ---------- */

  /** Nothing waits and nothing happens in server s. */
  ghost predicate Resting(c: Cluster, s: nat) {
    Idle(c, s) && Fresh(c, s)
  }

  /** A resting server is elected by resting servers with m elections. */
  lemma TakeLead(g: Gap, n: nat, c: Cluster, s: nat, m: nat, targets: seq<nat>) returns (c': Cluster)
    requires At(g, n, c) && Resting(c, s) && m > 0 && Electorate(c, s, Stood(c.servers[s], m), targets)
    ensures At(g, n, c') && c'.appends == c.appends
    ensures var sv := c.servers[s];
            Leads(c', s, sv.currentTerm + m, sv.logs, seq(n, i => |sv.logs|), seq(n, i => 0))
    ensures forall j :: j in targets && Resting(c, j) ==> Rests(c', j, c.servers[s].currentTerm + m, c.servers[j].logs)
    ensures forall j :: 0 <= j < n && j != s ==> c'.threads[j] == c.threads[j]
    ensures forall j :: 0 <= j < n && j != s && j !in targets ==> c'.servers[j] == c.servers[j]
  {
    c' := Elect(g, n, c, s, m, targets);
    assert c'.servers[s].nextIndex == seq(n, i => |c.servers[s].logs|);
    assert c'.servers[s].matchIndex == seq(n, i => 0);
  }

  /** Server 0 of three leads term 1. */
  lemma FirstLeader(g: Gap) returns (c: Cluster)
    requires !g.Continuing?
    ensures At(g, 3, c) && c.appends == [] && Leads(c, 0, 1, [SENTINEL], [1, 1, 1], [0, 0, 0])
    ensures Rests(c, 1, 1, [SENTINEL]) && Rests(c, 2, 0, [SENTINEL])
  {
    ReachInit(g, 3);
    InitRests(3, 0);
    InitRests(3, 1);
    InitRests(3, 2);
    c := TakeLead(g, 3, Init(3), 0, 1, [1]);
    Triples();
  }

  lemma Triples()
    ensures seq(3, i => 1) == [1, 1, 1] && seq(3, i => 0) == [0, 0, 0]
  {
  }

  /** A fresh leader of three gets a command and gets it to one peer. */
  lemma ReplicateOne(g: Gap, c: Cluster, s: nat, v: nat, t: nat, x: int) returns (c': Cluster)
    requires At(g, 3, c) && s < 3 && v < 3 && s != v
    requires Leads(c, s, t, [SENTINEL], [1, 1, 1], [0, 0, 0]) && Rests(c, v, t, [SENTINEL])
    ensures At(g, 3, c') && KeepsAppends(c, c') && c'.threads == c.threads
    ensures Leads(c', s, t, Log1(t, x), [1, 1, 1][v := 2], [0, 0, 0][v := 1]) && Rests(c', v, t, Log1(t, x))
    ensures forall j :: 0 <= j < 3 && j != s && j != v ==> c'.servers[j] == c.servers[j]
  {
    var c1 := GetCommand(g, 3, c, s, x);
    assert c1.servers[s].logs == Log1(t, x);
    FewHold(c1.servers[s], {});
    c' := AskOn(g, 3, c1, s, v);
  }

  /** It commits and applies the command. */
  lemma CommitOne(g: Gap, c: Cluster, s: nat, v: nat, t: nat, x: int) returns (c': Cluster)
    requires At(g, 3, c) && s < 3 && v < 3 && s != v
    requires Leads(c, s, t, Log1(t, x), [1, 1, 1][v := 2], [0, 0, 0][v := 1])
    ensures At(g, 3, c') && KeepsAppends(c, c') && c'.threads == c.threads
    ensures c'.servers[s].chanApply == [ApplyMsg(1, x)]
    ensures forall j :: 0 <= j < 3 && j != s ==> c'.servers[j] == c.servers[j]
  {
    LastIsCommitted(c.servers[s], {v});
    var c1 := Commit(g, 3, c, s);
    c' := ApplyNow(g, 3, c1, s);
  }

  /** In an ordered run a command can be applied: the theorems about ordered runs are not empty. */
  lemma CommandIsApplied(x: int)
    ensures exists c :: Ordered(3, c) && |c.servers| == 3 && c.servers[0].chanApply == [ApplyMsg(1, x)]
  {
    var c := FirstLeader(NoGap);
    var c1 := ReplicateOne(NoGap, c, 0, 1, 1, x);
    var c' := CommitOne(NoGap, c1, 0, 1, 1, x);
    NoGapIsOrdered(3, c');
  }

  /* ---------- A late reply lowers matchIndex ---------- */

  /** The reply to call k lowers what the leader recorded of the peer. */
  ghost predicate LowersMatch(c: Cluster, k: nat, s: nat, v: nat) {
    && Shape(c) && Enabled(c, TakeAppendReply(k)) && !Faults(c, TakeAppendReply(k))
    && c.appends[k].from == s && c.appends[k].to == v
    && c.servers[s].state == Leader && v < |c.servers[s].matchIndex|
    && var sv' := Next(c, TakeAppendReply(k)).servers[s];
    v < |sv'.matchIndex| && sv'.matchIndex[v] < c.servers[s].matchIndex[v]
  }

  /** The requests for x, and for x and y, in term 1. */
  function First(x: int): AppendEntriesArgs {
    AppendEntriesArgs(1, 0, 0, 0, 0, [LogEntry(1, 1, x)])
  }

  function Second(x: int, y: int): AppendEntriesArgs {
    AppendEntriesArgs(1, 0, 0, 0, 0, [LogEntry(1, 1, x), LogEntry(2, 1, y)])
  }

  /** The leader gets two commands and sends its log after each. */
  lemma SendTwice(x: int, y: int) returns (c: Cluster, k: nat, l: nat)
    ensures At(NoGap, 3, c) && k < l < |c.appends| && c.appends[l].status == Sent
    ensures Leads(c, 0, 1, Log2(1, x, 1, y), [1, 1, 1], [0, 0, 0]) && Rests(c, 1, 1, [SENTINEL])
    ensures InTurn(c, k, 0, 1, c.threads[0].epoch, First(x))
    ensures InTurn(c, l, 0, 1, c.threads[0].epoch, Second(x, y))
  {
    var c1 := FirstLeader(NoGap);
    var c2 := GetCommand(NoGap, 3, c1, 0, x);
    FewHold(c2.servers[0], {});
    var c3, k3 := Send(NoGap, 3, c2, 0, 1);
    var c4 := GetCommand(NoGap, 3, c3, 0, y);
    FewHold(c4.servers[0], {});
    var c5, k5 := Send(NoGap, 3, c4, 0, 1);
    c, k, l := c5, k3, k5;
  }

  /** Both requests are answered in order. */
  lemma AnswerTwice(x: int, y: int) returns (c: Cluster, k: nat, l: nat)
    ensures At(NoGap, 3, c) && k < l < |c.appends|
    ensures Leads(c, 0, 1, Log2(1, x, 1, y), [1, 1, 1], [0, 0, 0])
    ensures c.appends[k] == Rpc(0, 1, c.threads[0].epoch, First(x), Answered(AppendEntriesReply(1, true, 2)))
    ensures c.appends[l] == Rpc(0, 1, c.threads[0].epoch, Second(x, y), Answered(AppendEntriesReply(1, true, 3)))
  {
    c, k, l := SendTwice(x, y);
    c := Deliver(NoGap, 3, c, k, 0, 1, c.threads[0].epoch, First(x));
    c := Deliver(NoGap, 3, c, l, 0, 1, c.threads[0].epoch, Second(x, y));
  }

  /** The later reply is taken first. */
  lemma TakeLater(x: int, y: int) returns (c: Cluster, k: nat)
    ensures At(NoGap, 3, c) && k < |c.appends|
    ensures Leads(c, 0, 1, Log2(1, x, 1, y), [1, 3, 1], [0, 2, 0])
    ensures c.appends[k] == Rpc(0, 1, c.threads[0].epoch, First(x), Answered(AppendEntriesReply(1, true, 2)))
  {
    var c1, k1, l := AnswerTwice(x, y);
    c := ReachStep(NoGap, 3, c1, TakeAppendReply(l));
    k := k1;
  }

  /** When the later reply is taken first, the earlier one lowers matchIndex. */
  lemma MatchIndexCanFall()
    ensures exists c, k :: Ordered(3, c) && LowersMatch(c, k, 0, 1)
  {
    var c, k := TakeLater(1, 2);
    NoGapIsOrdered(3, c);
    MatchIndexFallsIff(c.servers[0], 1, First(1), AppendEntriesReply(1, true, 2));
    assert LowersMatch(c, k, 0, 1);
  }

  /* ---------- A heartbeat that is overtaken ---------- */

  /** Server 0 leads term 1; its heartbeat to server 1 is delayed while it replicates and applies x. */
  lemma ApplyMeanwhile(x: int) returns (c: Cluster, k: nat)
    ensures At(Overtaking, 3, c) && c.servers[0].chanApply == [ApplyMsg(1, x)]
    ensures k < |c.appends| && c.appends[k] == Rpc(0, 1, c.threads[0].epoch, AppendEntriesArgs(1, 0, 0, 0, 0, []), Sent)
    ensures Rests(c, 1, 1, Log1(1, x)) && Rests(c, 2, 0, [SENTINEL])
  {
    var c1 := FirstLeader(Overtaking);
    FewHold(c1.servers[0], {});
    var c2, k2 := Send(Overtaking, 3, c1, 0, 1);
    var c3 := ReplicateOne(Overtaking, c2, 0, 1, 1, x);
    c := CommitOne(Overtaking, c3, 0, 1, 1, x);
    k := k2;
  }

  /** Then the heartbeat arrives and cuts server 1's log back to the sentinel. */
  lemma ApplyThenCut(x: int) returns (c: Cluster)
    ensures At(Overtaking, 3, c) && c.servers[0].chanApply == [ApplyMsg(1, x)]
    ensures Rests(c, 1, 1, [SENTINEL]) && Rests(c, 2, 0, [SENTINEL])
  {
    var c1, k := ApplyMeanwhile(x);
    c := ReachStep(Overtaking, 3, c1, DeliverAppend(k));
  }

  /**
   * If a request may overtake a later one of its stream, two servers can apply different commands at index 1: the
   * server with the cut log wins the next election and commits another command there.
   */
  lemma OvertakingBreaksSafety(x: int, y: int)
    ensures exists c ::
      && Reach(Overtaking, 3, c) && |c.servers| == 3
      && c.servers[0].chanApply == [ApplyMsg(1, x)] && c.servers[1].chanApply == [ApplyMsg(1, y)]
  {
    var c1 := ApplyThenCut(x);
    var c2 := TakeLead(Overtaking, 3, c1, 1, 1, [2]);
    Triples();
    var c3 := ReplicateOne(Overtaking, c2, 1, 2, 2, y);
    var c4 := CommitOne(Overtaking, c3, 1, 2, 2, y);
  }
}
