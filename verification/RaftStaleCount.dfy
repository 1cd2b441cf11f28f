/**
 * Raft: counting after the fall. The commit count runs whenever the broadcast of a server that once led gets the lock.
 * If it runs in a server that has become a follower, stale matchIndex meets the entries of the present term, and State
 * Machine Safety fails, in a cluster of five and with all other assumptions in force.
 */
module RaftStaleCount {
  import opened RaftLog
  import opened RaftServer
  import opened RaftCluster
  import opened RaftTraces
  import opened RaftScenarios

  /** Why a leader cannot commit: its entries are of earlier terms, or too few peers hold any. */
  ghost predicate Stalled(sv: Server, few: set<nat>) {
    && |sv.matchIndex| == sv.peers >= 2 && |sv.logs| > 0
    && (|| (forall idx :: sv.commitIndex < idx < |sv.logs| ==> sv.logs[idx].term != sv.currentTerm)
        || (2 * (1 + |few|) <= sv.peers
            && forall id :: 0 <= id < sv.peers && id != sv.me && sv.matchIndex[id] > sv.commitIndex ==> id in few))
  }

  lemma StalledWaits(sv: Server, few: set<nat>)
    requires Stalled(sv, few)
    ensures AdvanceCommit(sv) == sv
  {
    if forall idx :: sv.commitIndex < idx < |sv.logs| ==> sv.logs[idx].term != sv.currentTerm {
      OldEntriesWait(sv);
    } else {
      FewHold(sv, few);
    }
  }

  lemma StalledOn(sv: Server, few: set<nat>, sv': Server)
    requires Stalled(sv, few) && sv' == sv.(nextIndex := sv'.nextIndex)
    ensures Stalled(sv', few)
  {
  }

  lemma RecordedTwice(sv: Server, v: nat)
    requires v < |sv.nextIndex| == |sv.matchIndex| && |sv.logs| > 0
    ensures Recorded(sv.(nextIndex := sv.nextIndex[v := 1]), v) == Recorded(sv, v)
  {
    assert sv.nextIndex[v := 1][v := |sv.logs|] == sv.nextIndex[v := |sv.logs|];
  }

  /** A peer that refuses is asked again from the start, and takes the whole log over. */
  lemma CatchUp(g: Gap, n: nat, c: Cluster, s: nat, v: nat, few: set<nat>) returns (c': Cluster)
    requires At(g, n, c) && CanSend(c, s) && v < n && v != s && Stalled(c.servers[s], few)
    requires Refuses(c.servers[s], v, c.servers[v]) && c.servers[v].logs[0] == c.servers[s].logs[0] && |c.servers[s].logs| > 1
    requires c.servers[s].commitIndex <= c.servers[v].commitIndex
    ensures At(g, n, c') && c'.threads == c.threads
    ensures var sv, w := c.servers[s], c.servers[v];
            c'.servers == c.servers[v := TakenOver(Informed(w, sv), sv)][s := Recorded(sv, v)]
  {
    StalledWaits(c.servers[s], few);
    var c1 := AskInVain(g, n, c, s, v);
    StalledOn(c.servers[s], few, c1.servers[s]);
    StalledWaits(c1.servers[s], few);
    c' := AskOn(g, n, c1, s, v);
    RecordedTwice(c.servers[s], v);
  }

  /** Two willing peers elect one of five. */
  lemma TwoElect(c: Cluster, s: nat, sv: Server, a: nat, b: nat)
    requires Shape(c) && |c.servers| == 5 && |sv.logs| > 0 && a < 5 && b < 5 && a != b && a != s && b != s
    requires Willing(c.servers[a], sv) && Willing(c.servers[b], sv)
    ensures Electorate(c, s, sv, [a, b])
  {
  }

  /** At the start all servers rest. */
  lemma AllRest() returns (c: Cluster)
    ensures At(CountsAsFollower, 5, c)
    ensures Rests(c, 0, 0, [SENTINEL]) && Rests(c, 1, 0, [SENTINEL]) && Rests(c, 2, 0, [SENTINEL])
    ensures Rests(c, 3, 0, [SENTINEL]) && Rests(c, 4, 0, [SENTINEL])
  {
    c := Init(5);
    ReachInit(CountsAsFollower, 5);
  }

  /** In term 1 server 0 leads. */
  lemma FirstTerm() returns (c: Cluster)
    ensures At(CountsAsFollower, 5, c) && c.servers[0].state == Leader
    ensures c.servers[0].currentTerm == 1 && c.servers[0].logs == [SENTINEL]
    ensures Rests(c, 1, 0, [SENTINEL]) && Rests(c, 2, 0, [SENTINEL])
    ensures Rests(c, 3, 1, [SENTINEL]) && Rests(c, 4, 1, [SENTINEL])
  {
    var c0 := AllRest();
    TwoElect(c0, 0, Stood(c0.servers[0], 1), 3, 4);
    c := TakeLead(CountsAsFollower, 5, c0, 0, 1, [3, 4]);
  }

  /** It gets x and another command, and rests again. */
  lemma FirstEntries(x: int) returns (c: Cluster)
    ensures At(CountsAsFollower, 5, c)
    ensures Rests(c, 0, 1, Log2(1, x, 1, 0)) && Rests(c, 1, 0, [SENTINEL]) && Rests(c, 2, 0, [SENTINEL])
    ensures Rests(c, 3, 1, [SENTINEL]) && Rests(c, 4, 1, [SENTINEL])
  {
    var c1 := FirstTerm();
    var c2 := GetCommand(CountsAsFollower, 5, c1, 0, x);
    var c3 := GetCommand(CountsAsFollower, 5, c2, 0, 0);
    assert c3.servers[0].logs == Log2(1, x, 1, 0);
    c := Reboot(CountsAsFollower, 5, c3, 0);
  }

  /** In term 2 server 3 leads. */
  lemma SecondTerm(x: int) returns (c: Cluster)
    ensures At(CountsAsFollower, 5, c) && c.servers[3].state == Leader
    ensures c.servers[3].currentTerm == 2 && c.servers[3].logs == [SENTINEL]
    ensures Rests(c, 0, 1, Log2(1, x, 1, 0)) && Rests(c, 1, 0, [SENTINEL]) && Rests(c, 2, 2, [SENTINEL])
    ensures Rests(c, 4, 2, [SENTINEL])
  {
    var c0 := FirstEntries(x);
    TwoElect(c0, 3, Stood(c0.servers[3], 1), 4, 2);
    c := TakeLead(CountsAsFollower, 5, c0, 3, 1, [4, 2]);
  }

  /** It gets y, and rests again. */
  lemma SecondEntry(x: int, y: int) returns (c: Cluster)
    ensures At(CountsAsFollower, 5, c)
    ensures Rests(c, 0, 1, Log2(1, x, 1, 0)) && Rests(c, 1, 0, [SENTINEL]) && Rests(c, 2, 2, [SENTINEL])
    ensures Rests(c, 3, 2, Log1(2, y)) && Rests(c, 4, 2, [SENTINEL])
  {
    var c1 := SecondTerm(x);
    var c2 := GetCommand(CountsAsFollower, 5, c1, 3, y);
    assert c2.servers[3].logs == Log1(2, y);
    c := Reboot(CountsAsFollower, 5, c2, 3);
  }

  lemma Fives(k: nat)
    ensures seq(5, i => k) == [k, k, k, k, k]
  {
  }

  /** In term 3 server 0 leads again. */
  lemma ThirdTerm(x: int, y: int) returns (c: Cluster)
    ensures At(CountsAsFollower, 5, c)
    ensures Leads(c, 0, 3, Log2(1, x, 1, 0), [3, 3, 3, 3, 3], [0, 0, 0, 0, 0])
    ensures Rests(c, 1, 3, [SENTINEL]) && Rests(c, 2, 3, [SENTINEL])
    ensures Rests(c, 3, 2, Log1(2, y)) && Rests(c, 4, 2, [SENTINEL])
  {
    var c0 := SecondEntry(x, y);
    TwoElect(c0, 0, Stood(c0.servers[0], 2), 1, 2);
    c := TakeLead(CountsAsFollower, 5, c0, 0, 2, [1, 2]);
    Fives(3);
    Fives(0);
  }

  /** Its old entries reach server 1. */
  lemma OldEntriesReachOne(x: int, y: int) returns (c: Cluster)
    ensures At(CountsAsFollower, 5, c)
    ensures Leads(c, 0, 3, Log2(1, x, 1, 0), [3, 3, 3, 3, 3], [0, 2, 0, 0, 0])
    ensures Rests(c, 1, 3, Log2(1, x, 1, 0)) && Rests(c, 2, 3, [SENTINEL])
    ensures Rests(c, 3, 2, Log1(2, y)) && Rests(c, 4, 2, [SENTINEL])
  {
    var c0 := ThirdTerm(x, y);
    c := CatchUp(CountsAsFollower, 5, c0, 0, 1, {});
  }

  /** And server 2; none of them is committed. */
  lemma OldEntriesReachTwo(x: int, y: int) returns (c: Cluster)
    ensures At(CountsAsFollower, 5, c)
    ensures Leads(c, 0, 3, Log2(1, x, 1, 0), [3, 3, 3, 3, 3], [0, 2, 2, 0, 0])
    ensures Rests(c, 1, 3, Log2(1, x, 1, 0)) && Rests(c, 2, 3, Log2(1, x, 1, 0))
    ensures Rests(c, 3, 2, Log1(2, y)) && Rests(c, 4, 2, [SENTINEL])
  {
    var c0 := OldEntriesReachOne(x, y);
    c := CatchUp(CountsAsFollower, 5, c0, 0, 2, {});
  }

  /** The next broadcast of server 0 is about to begin, with what it knows of its peers. */
  ghost predicate Poised(c: Cluster) {
    && |c.servers| == |c.threads| == 5 && Fresh(c, 0) && c.threads[0].loop == BeforeBroadcast
    && c.servers[0].matchIndex == [0, 2, 2, 0, 0] && |c.servers[0].nextIndex| == 5
  }

  /** While it is, server 3 leads term 4. */
  lemma FourthTerm(x: int, y: int) returns (c: Cluster)
    ensures At(CountsAsFollower, 5, c) && Poised(c)
    ensures c.servers[0].currentTerm == 3 && c.servers[0].logs == Log2(1, x, 1, 0)
    ensures Leads(c, 3, 4, Log1(2, y), [2, 2, 2, 2, 2], [0, 0, 0, 0, 0])
    ensures Rests(c, 1, 3, Log2(1, x, 1, 0)) && Rests(c, 2, 4, Log2(1, x, 1, 0)) && Rests(c, 4, 4, [SENTINEL])
  {
    var c0 := OldEntriesReachTwo(x, y);
    var c1 := ReachStep(CountsAsFollower, 5, c0, EnterBroadcast(0));
    TwoElect(c1, 3, Stood(c1.servers[3], 2), 4, 2);
    c := TakeLead(CountsAsFollower, 5, c1, 3, 2, [4, 2]);
    Fives(2);
    Fives(0);
  }

  /** Server 3 gets another command and overwrites the log of server 0. */
  lemma LogOverwritten(x: int, y: int) returns (c: Cluster)
    ensures At(CountsAsFollower, 5, c) && Poised(c)
    ensures c.servers[0].currentTerm == 4 && c.servers[0].logs == Log2(2, y, 4, 0) && c.servers[0].state == Follower
    ensures Rests(c, 1, 3, Log2(1, x, 1, 0)) && Rests(c, 2, 4, Log2(1, x, 1, 0)) && Rests(c, 4, 4, [SENTINEL])
  {
    var c0 := FourthTerm(x, y);
    var c1 := GetCommand(CountsAsFollower, 5, c0, 3, 0);
    assert c1.servers[3].logs == Log2(2, y, 4, 0);
    c := CatchUp(CountsAsFollower, 5, c1, 3, 0, {});
  }

  /** The broadcast that began in term 3 counts in term 4: server 0 commits and applies y. */
  lemma FollowerCounts(x: int, y: int) returns (c: Cluster)
    ensures At(CountsAsFollower, 5, c)
    ensures Applied(c, 0, y)
    ensures Rests(c, 1, 3, Log2(1, x, 1, 0)) && Rests(c, 2, 4, Log2(1, x, 1, 0)) && Rests(c, 4, 4, [SENTINEL])
  {
    var c0 := LogOverwritten(x, y);
    LastIsCommitted(c0.servers[0], {1, 2});
    var c1 := ReachStep(CountsAsFollower, 5, c0, Broadcast(0));
    c := ApplyNow(CountsAsFollower, 5, c1, 0);
  }

  /** Server s has applied y at index 1. */
  ghost predicate Applied(c: Cluster, s: nat, y: int) {
    s < |c.servers| && |c.servers[s].chanApply| > 0 && c.servers[s].chanApply[0] == ApplyMsg(1, y)
  }

  /** In term 5 server 1 leads with x. */
  lemma FifthTerm(x: int, y: int) returns (c: Cluster)
    ensures At(CountsAsFollower, 5, c) && Applied(c, 0, y)
    ensures Leads(c, 1, 5, Log2(1, x, 1, 0), [3, 3, 3, 3, 3], [0, 0, 0, 0, 0])
    ensures Rests(c, 2, 5, Log2(1, x, 1, 0)) && Rests(c, 4, 5, [SENTINEL])
  {
    var c0 := FollowerCounts(x, y);
    TwoElect(c0, 1, Stood(c0.servers[1], 2), 2, 4);
    c := TakeLead(CountsAsFollower, 5, c0, 1, 2, [2, 4]);
    Fives(3);
    Fives(0);
  }

  function Log3(x: int): seq<LogEntry> {
    [SENTINEL, LogEntry(1, 1, x), LogEntry(2, 1, 0), LogEntry(3, 5, 0)]
  }

  /** It gets an entry of its own to server 2. */
  lemma OwnEntryReachesTwo(x: int, y: int) returns (c: Cluster)
    ensures At(CountsAsFollower, 5, c) && Applied(c, 0, y)
    ensures Leads(c, 1, 5, Log3(x), [3, 3, 4, 3, 3], [0, 0, 3, 0, 0]) && Rests(c, 4, 5, [SENTINEL])
  {
    var c0 := FifthTerm(x, y);
    var c1 := GetCommand(CountsAsFollower, 5, c0, 1, 0);
    assert c1.servers[1].logs == Log3(x);
    FewHold(c1.servers[1], {});
    c := AskOn(CountsAsFollower, 5, c1, 1, 2);
  }

  /** And to server 4. */
  lemma OwnEntryReachesFour(x: int, y: int) returns (c: Cluster)
    ensures At(CountsAsFollower, 5, c) && Applied(c, 0, y)
    ensures Leads(c, 1, 5, Log3(x), [3, 3, 4, 3, 4], [0, 0, 3, 0, 3])
  {
    var c0 := OwnEntryReachesTwo(x, y);
    c := CatchUp(CountsAsFollower, 5, c0, 1, 4, {2});
  }

  /**
   * If the commit count may run in a server that no longer leads, two servers of five can apply different commands
   * at index 1.
   */
  lemma FollowerCountBreaksSafety(x: int, y: int)
    ensures exists c :: Reach(CountsAsFollower, 5, c) && Applied(c, 0, y) && Applied(c, 1, x)
  {
    var c0 := OwnEntryReachesFour(x, y);
    LastIsCommitted(c0.servers[1], {2, 4});
    var c1 := Commit(CountsAsFollower, 5, c0, 1);
    var c := ApplyNow(CountsAsFollower, 5, c1, 1);
    assert Applied(c, 0, y) && Applied(c, 1, x);
  }
}
