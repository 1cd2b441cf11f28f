/** Raft: the objects. */
module RaftNode {
  // One Raft server as the object it is in the program: mutable fields behind a lock, one method per critical
  // section. Each method is proved to do to the abstract server `View()` exactly what the function of the same
  // purpose in `RaftServer` says, which is the step that `RaftCluster` takes.

  import opened Options
  import opened RaftLog
  import opened RaftServer
  import opened RaftCluster

  /** The stable storage a server keeps across restarts. */
  class Persister {
    var raftState: Option<Durable>

    constructor ()
      ensures raftState == None
    {
      raftState := None;
    }

    method SaveRaftState(data: Durable)
      modifies this
      ensures raftState == Some(data)
    {
      raftState := Some(data);
    }

    function ReadRaftState(): (data: Option<Durable>)
      reads this
    {
      raftState
    }
  }

  /** The peers below `bound` that the inner commit loop has counted for idx. */
  ghost function CountedBelow(s: Server, idx: nat, bound: nat): (ids: set<nat>)
    requires |s.matchIndex| == s.peers && idx < |s.logs| && bound <= s.peers
  {
    set id | 0 <= id < bound && id != s.me && s.matchIndex[id] >= idx && s.logs[idx].term == s.currentTerm
  }

  lemma CountedOneMore(s: Server, idx: nat, id: nat)
    requires |s.matchIndex| == s.peers && idx < |s.logs| && id < s.peers
    ensures |CountedBelow(s, idx, id + 1)| == |CountedBelow(s, idx, id)|
      + (if id != s.me && s.matchIndex[id] >= idx && s.logs[idx].term == s.currentTerm then 1 else 0)
  {
    if id != s.me && s.matchIndex[id] >= idx && s.logs[idx].term == s.currentTerm {
      assert CountedBelow(s, idx, id + 1) == CountedBelow(s, idx, id) + {id};
    } else {
      assert CountedBelow(s, idx, id + 1) == CountedBelow(s, idx, id);
    }
  }

  lemma CountedAll(s: Server, idx: nat)
    requires |s.matchIndex| == s.peers && idx < |s.logs|
    ensures Counted(s, idx) <==> 2 * (1 + |CountedBelow(s, idx, s.peers)|) > s.peers
  {
    if s.logs[idx].term == s.currentTerm {
      assert CountedBelow(s, idx, s.peers) == Holders(s, idx);
    } else {
      assert CountedBelow(s, idx, s.peers) == {};
    }
  }

  /** The vectors of a new leader, entry by entry. */
  lemma VectorsOfPower(s: Server, next: seq<nat>, match_: seq<nat>)
    requires |s.chanBeElected| > 0 && |s.logs| > 0 && |next| == |match_| == s.peers
    requires forall j :: 0 <= j < s.peers ==> next[j] == LastIndex(s.logs) + 1 && match_[j] == 0
    ensures RaftServer.ComeToPower(s)
         == s.(state := Leader, nextIndex := next, matchIndex := match_, chanBeElected := s.chanBeElected[1..])
  {
    var s' := RaftServer.ComeToPower(s);
    assert s'.nextIndex == next;
    assert s'.matchIndex == match_;
  }

  /** A server in the term of a request, after it has answered and before it persists. */
  function AnswerTo(s: Server, args: AppendEntriesArgs): (Server, AppendEntriesReply)
    requires |s.logs| > 0
  {
    if args.prevLogIndex > LastIndex(s.logs) then
      (s, AppendEntriesReply(s.currentTerm, false, LastIndex(s.logs) + 1))
    else if Conflicts(s, args) then
      var term := s.logs[args.prevLogIndex].term;
      (s, AppendEntriesReply(s.currentTerm, false, RunStart(s.logs, args.prevLogIndex - 1, term)))
    else
      var s' := s.(logs := s.logs[..args.prevLogIndex + 1] + args.entries);
      (FollowCommit(s', args.leaderCommit), AppendEntriesReply(s.currentTerm, true, LastIndex(s'.logs) + 1))
  }

  lemma AnswerInTerm(s: Server, s1: Server, args: AppendEntriesArgs)
    requires |s.logs| > 0 && args.term >= s.currentTerm
    requires s1 == if args.term > s.currentTerm then RaftServer.StepDown(s, args.term) else s
    ensures RaftServer.AppendEntries(s, args) == (RaftServer.Persist(AnswerTo(s1, args).0), AnswerTo(s1, args).1)
  {
  }

  class Raft {
    const me: nat
    const peers: nat
    const persister: Persister
    var currentTerm: nat
    var votedFor: int
    var logs: seq<LogEntry>
    var commitIndex: nat
    var lastApplied: nat
    var nextIndex: seq<nat>
    var matchIndex: seq<nat>
    var state: Role
    var voteCount: nat
    var chanCommit: nat
    var chanBeElected: seq<nat>
    var chanApply: seq<ApplyMsg>

    ghost predicate Valid()
      reads this
    {
      Indexed(logs)
    }

    ghost function View(): Server
      reads this, persister
    {
      Server(me, peers, currentTerm, votedFor, logs, commitIndex, lastApplied, nextIndex, matchIndex, state,
             voteCount, chanCommit, chanBeElected, chanApply, persister.raftState)
    }

    constructor (me: nat, peers: nat, persister: Persister)
      requires persister.raftState.Some? ==> Indexed(persister.raftState.value.logs)
      ensures Valid() && this.persister == persister
      ensures View() == Make(me, peers, persister.raftState)
    {
      this.me := me;
      this.peers := peers;
      this.persister := persister;
      currentTerm := 0;
      votedFor := NOBODY;
      logs := [LogEntry(0, 0, 0)];
      state := Follower;
      commitIndex, lastApplied, voteCount := 0, 0, 0;
      nextIndex, matchIndex := [], [];
      chanCommit, chanBeElected, chanApply := 0, [], [];
      new;
      ReadPersist(persister.ReadRaftState());
    }

    method Persist()
      modifies persister
      ensures View() == RaftServer.Persist(old(View()))
    {
      persister.SaveRaftState(Durable(currentTerm, votedFor, logs));
    }

    method ReadPersist(data: Option<Durable>)
      requires Valid() && (data.Some? ==> Indexed(data.value.logs))
      modifies this
      ensures Valid()
      ensures data.None? ==> View() == old(View())
      ensures data.Some? ==>
        View() == old(View()).(currentTerm := data.value.currentTerm, votedFor := data.value.votedFor, logs := data.value.logs)
    {
      if data.None? {
        return;
      }
      currentTerm := data.value.currentTerm;
      votedFor := data.value.votedFor;
      logs := data.value.logs;
    }

    method StepDown(term: nat)
      modifies this
      ensures View() == RaftServer.StepDown(old(View()), term)
    {
      currentTerm := term;
      state := Follower;
      votedFor := NOBODY;
    }

    /** Indices are read from the entries, as the program does; they coincide with positions. */
    function GetLastIndex(): (i: nat)
      requires Valid()
      reads this
      ensures i == LastIndex(logs)
    {
      logs[|logs| - 1].index
    }

    function GetBaseIndex(): (i: nat)
      requires Valid()
      reads this
      ensures i == 0
    {
      logs[0].index
    }

    function GetLastTerm(): (t: nat)
      requires Valid()
      reads this
      ensures t == LastTerm(logs)
    {
      logs[|logs| - 1].term
    }

    /* ---------- Elections ---------- */

    method NewElection()
      requires Valid()
      modifies this, persister
      ensures Valid() && View() == RaftServer.NewElection(old(View()))
    {
      currentTerm := currentTerm + 1;
      votedFor := me;
      voteCount := 1;
      Persist();
    }

    method NewVoteArgs() returns (args: RequestVoteArgs)
      requires Valid()
      ensures args == VoteArgs(View())
    {
      args := RequestVoteArgs(currentTerm, me, GetLastIndex(), GetLastTerm());
    }

    method RequestVote(args: RequestVoteArgs) returns (reply: RequestVoteReply)
      requires Valid()
      modifies this, persister
      ensures Valid() && (View(), reply) == RaftServer.RequestVote(old(View()), args)
    {
      if args.term < currentTerm {
        return RequestVoteReply(currentTerm, false);
      }
      if args.term > currentTerm {
        StepDown(args.term);
      }
      reply := RequestVoteReply(currentTerm, false);
      if (votedFor == NOBODY || votedFor == args.candidateId) &&
         (args.lastLogTerm > GetLastTerm() || (args.lastLogTerm == GetLastTerm() && args.lastLogIndex >= GetLastIndex())) {
        reply := reply.(voteGranted := true);
        votedFor := args.candidateId;
      }
      Persist();
    }

    /** `answer` is what the remote call brought back, if anything. */
    method SendRequestVoteAndDealReply(args: RequestVoteArgs, answer: Option<RequestVoteReply>)
      requires Valid()
      modifies this, persister
      ensures Valid()
      ensures View() == if answer.None? then old(View()) else DealVoteReply(old(View()), args, answer.value)
    {
      if answer.None? {
        return;
      }
      var reply := answer.value;
      if reply.term > currentTerm {
        StepDown(reply.term);
        Persist();
        return;
      }
      if currentTerm != args.term || !reply.voteGranted {
        return;
      }
      voteCount := voteCount + 1;
      if 2 * voteCount > peers && state == Candidate {
        chanBeElected := chanBeElected + [currentTerm];
      }
    }

    method ComeToPower()
      requires Valid() && |chanBeElected| > 0
      modifies this
      ensures Valid() && View() == RaftServer.ComeToPower(old(View()))
    {
      chanBeElected := chanBeElected[1..];
      state := Leader;
      ResetVectors();
      VectorsOfPower(old(View()), nextIndex, matchIndex);
    }

    /** The loop over the peers. */
    method ResetVectors()
      requires Valid()
      modifies `nextIndex, `matchIndex
      ensures |nextIndex| == |matchIndex| == peers
      ensures forall j :: 0 <= j < peers ==> nextIndex[j] == LastIndex(logs) + 1 && matchIndex[j] == 0
    {
      nextIndex := seq(peers, i => 0);
      matchIndex := seq(peers, i => 0);
      for i := 0 to peers
        invariant |nextIndex| == |matchIndex| == peers
        invariant forall j :: 0 <= j < i ==> nextIndex[j] == LastIndex(logs) + 1
        invariant forall j :: 0 <= j < peers ==> matchIndex[j] == 0
      {
        nextIndex := nextIndex[i := GetLastIndex() + 1];
        matchIndex := matchIndex[i := 0];
      }
    }

    /* ---------- Log replication ---------- */

    method Start(command: int) returns (index: int, term: int, isLeader: bool)
      requires Valid()
      modifies this, persister
      ensures Valid() && View() == RaftServer.Start(old(View()), command)
      ensures isLeader == (old(state) == Leader)
      ensures isLeader ==> index == LastIndex(logs) && term == currentTerm && logs[index] == LogEntry(index, term, command)
      ensures !isLeader ==> index == term == -1
    {
      if state != Leader {
        return -1, -1, false;
      }
      var logIndex := GetLastIndex() + 1;
      index, term, isLeader := logIndex, currentTerm, true;
      logs := logs + [LogEntry(logIndex, currentTerm, command)];
      Persist();
    }

    /** The number of servers counted for idx, the server itself included. */
    method CountVotes(idx: nat) returns (count: nat)
      requires Valid() && |matchIndex| == peers && idx < |logs|
      ensures 2 * count > peers <==> Counted(View(), idx)
    {
      count := 1;
      for id := 0 to peers
        invariant count == 1 + |CountedBelow(View(), idx, id)|
      {
        CountedOneMore(View(), idx, id);
        if id != me && matchIndex[id] >= idx && logs[idx - GetBaseIndex()].term == currentTerm {
          count := count + 1;
        }
      }
      CountedAll(View(), idx);
    }

    method AdvanceCommit()
      requires Valid() && |matchIndex| == peers
      modifies this
      ensures Valid() && View() == RaftServer.AdvanceCommit(old(View()))
    {
      var newCommitIndex := 0;
      var idx := commitIndex + 1;
      while idx <= GetLastIndex()
        invariant Valid() && View() == old(View()) && commitIndex < idx
        invariant commitIndex < |logs| ==> idx <= |logs|
        invariant idx <= |logs| ==>
          newCommitIndex == if NewCommitIndex(View(), idx - 1) > commitIndex then NewCommitIndex(View(), idx - 1) else 0
        invariant commitIndex >= |logs| ==> newCommitIndex == 0
        decreases |logs| - idx
      {
        var count := CountVotes(idx);
        if 2 * count > peers {
          newCommitIndex := idx;
        }
        idx := idx + 1;
      }
      if newCommitIndex > commitIndex {
        commitIndex := newCommitIndex;
        chanCommit := chanCommit + 1;
      }
    }

    method NewAppendEntriesArgs(id: nat) returns (args: AppendEntriesArgs)
      requires Valid() && id < |nextIndex| && 1 <= nextIndex[id] <= |logs|
      ensures args == AppendArgs(View(), id)
    {
      var prevLogIndex := nextIndex[id] - 1;
      var baseIndex := GetBaseIndex();
      args := AppendEntriesArgs(currentTerm, me, prevLogIndex, logs[prevLogIndex - baseIndex].term,
                                commitIndex, logs[prevLogIndex + 1 - baseIndex..]);
    }

    /** The requests are those that the cluster step puts on the network. */
    method BroadcastAppendEntries() returns (requests: seq<(nat, AppendEntriesArgs)>)
      requires Valid() && me < peers && CanBroadcast(View())
      modifies this
      ensures Valid() && View() == RaftServer.AdvanceCommit(old(View()))
      ensures state != Leader ==> requests == []
      ensures state == Leader ==>
        var sent := HeartBeats(View(), 0);
        |requests| == |sent| && forall i :: 0 <= i < |sent| ==> requests[i] == (sent[i].to, sent[i].args)
    {
      AdvanceCommit();
      requests := [];
      for id := 0 to peers
        invariant Valid() && View() == RaftServer.AdvanceCommit(old(View())) && CanBroadcast(View())
        invariant state != Leader ==> requests == []
        invariant state == Leader ==> |requests| == if id <= me then id else id - 1
        invariant state == Leader ==> forall i :: 0 <= i < |requests| ==>
          var to := Others(peers, me)[i]; requests[i] == (to, AppendArgs(View(), to))
      {
        if id != me && state == Leader {
          var args := NewAppendEntriesArgs(id);
          requests := requests + [(id, args)];
        }
      }
    }

    method SendAppendEntriesAndDealReply(id: nat, args: AppendEntriesArgs, answer: Option<AppendEntriesReply>)
      requires Valid()
      requires answer.Some? && UpdatesPeer(View(), args, answer.value) ==> id < |nextIndex| && id < |matchIndex|
      modifies this, persister
      ensures Valid()
      ensures View() == if answer.None? then old(View()) else DealAppendReply(old(View()), id, args, answer.value)
    {
      if answer.None? {
        return;
      }
      var reply := answer.value;
      if reply.term > currentTerm {
        StepDown(reply.term);
        Persist();
        return;
      }
      if currentTerm != args.term {
        return;
      }
      if !reply.success {
        nextIndex := nextIndex[id := reply.nextIndex];
        return;
      }
      if |args.entries| == 0 {
        return;
      }
      var lastArgsLogIndex := args.entries[|args.entries| - 1].index;
      matchIndex := matchIndex[id := lastArgsLogIndex];
      nextIndex := nextIndex[id := lastArgsLogIndex + 1];
    }

    /** Walks back over the entries below `from` that have the given term; 0 when there are no others. */
    method BackOff(from: nat, term: nat) returns (next: nat)
      requires Valid() && 0 < from <= |logs|
      ensures next == RunStart(logs, from - 1, term)
    {
      next := 0;
      var i: int := from - 1;
      while i >= GetBaseIndex()
        invariant -1 <= i < from
        invariant RunStart(logs, from - 1, term) == RunStart(logs, i, term)
        invariant next == 0
      {
        if logs[i - GetBaseIndex()].term != term {
          next := i + 1;
          break;
        }
        i := i - 1;
      }
    }

    /** The entries of a request continue its prevLogIndex, as `RaftCluster.Shape` proves of all requests. */
    method AppendEntries(args: AppendEntriesArgs) returns (reply: AppendEntriesReply)
      requires Valid() && Continues(args)
      modifies this, persister
      ensures Valid() && (View(), reply) == RaftServer.AppendEntries(old(View()), args)
    {
      reply := AppendEntriesReply(currentTerm, false, 0);
      if args.term < currentTerm {
        return;
      }
      ghost var s := View();
      if args.term > currentTerm {
        StepDown(args.term);
      }
      AnswerInTerm(s, View(), args);
      reply := Answer(args, reply.(term := currentTerm));
      Persist();
    }

    /** The part of the handler between the term test and `persist`. */
    method Answer(args: AppendEntriesArgs, rejection: AppendEntriesReply) returns (reply: AppendEntriesReply)
      requires Valid() && Continues(args) && rejection.term == currentTerm && !rejection.success
      modifies this
      ensures Valid() && (View(), reply) == AnswerTo(old(View()), args)
    {
      var consistent, next := CheckPrevious(args);
      if consistent {
        TakeEntries(args);
        reply := rejection.(success := true, nextIndex := GetLastIndex() + 1);
      } else {
        reply := rejection.(nextIndex := next);
      }
    }

    /** The consistency check: whether the request fits the log, and otherwise from where to send again. */
    method CheckPrevious(args: AppendEntriesArgs) returns (consistent: bool, next: nat)
      requires Valid()
      ensures consistent <==> args.prevLogIndex <= LastIndex(logs) && !Conflicts(View(), args)
      ensures args.prevLogIndex > LastIndex(logs) ==> next == LastIndex(logs) + 1
      ensures args.prevLogIndex <= LastIndex(logs) && Conflicts(View(), args) ==>
        next == RunStart(logs, args.prevLogIndex - 1, logs[args.prevLogIndex].term)
    {
      if args.prevLogIndex > GetLastIndex() {
        return false, GetLastIndex() + 1;
      }
      var baseIndex := GetBaseIndex();
      if args.prevLogIndex > baseIndex {
        var term := logs[args.prevLogIndex - baseIndex].term;
        if args.prevLogTerm != term {
          next := BackOff(args.prevLogIndex, term);
          return false, next;
        }
      }
      return true, 0;
    }

    /**
     * The part of the handler that replaces the log after prevLogIndex and follows the leader's commit. The
     * program guards the replacement by prevLogIndex >= baseIndex, which always holds as the base index is 0.
     */
    method TakeEntries(args: AppendEntriesArgs)
      requires Valid() && Continues(args) && args.prevLogIndex < |logs|
      modifies this
      ensures Valid()
      ensures var s := old(View());
              View() == FollowCommit(s.(logs := s.logs[..args.prevLogIndex + 1] + args.entries), args.leaderCommit)
    {
      logs := logs[..args.prevLogIndex + 1 - GetBaseIndex()];
      logs := logs + args.entries;
      if args.leaderCommit > commitIndex {
        commitIndex := Min(args.leaderCommit, GetLastIndex());
        chanCommit := chanCommit + 1;
      }
    }

    /* ---------- Applying ---------- */

    /** What `applyLoop` does under the lock after it took a token. */
    method ApplyCommitted()
      requires Valid() && commitIndex < |logs|
      modifies this
      ensures Valid() && View() == Apply(old(View()))
    {
      var last := commitIndex;
      var baseIndex := GetBaseIndex();
      var i := lastApplied + 1;
      while i <= last
        invariant Valid() && logs == old(logs) && last == commitIndex == old(commitIndex) && baseIndex == 0
        invariant old(lastApplied) < i && (i <= last + 1 || i == old(lastApplied) + 1)
        invariant i <= last + 1 ==> View() == old(View()).(
          lastApplied := i - 1, chanApply := old(chanApply) + Messages(logs, old(lastApplied) + 1, i - 1))
        invariant i > last + 1 ==> View() == old(View())
        decreases last + 1 - i
      {
        chanApply := chanApply + [ApplyMsg(i, logs[i - baseIndex].command)];
        lastApplied := i;
        i := i + 1;
      }
    }
  }
}
