/**
 * How each critical section keeps the invariant of the server it runs on, one lemma per function of `RaftServer`.
 * Nothing here looks at the cluster: the lemmas speak of one server, the history before and the history after, and
 * of what the call in question promises.
 */
module RaftSteps {
  import opened RaftLog
  import opened RaftServer
  import opened RaftHistory
  import opened RaftInvariant

  /** The two histories agree on everything the server invariant reads of server `me`. */
  ghost predicate SameFor(h: Hist, h': Hist, me: nat) {
    && me < |h.past| && Grows(h, h')
    && h'.leader == h.leader && h'.tlog == h.tlog
    && h'.past[me].votes == h.past[me].votes
    && h'.past[me].counted == h.past[me].counted
    && h'.past[me].cand == h.past[me].cand
  }

  lemma SameServer(sv: Server, h: Hist, h': Hist)
    requires SameFor(h, h', sv.me) && ServerInv(sv, h)
    ensures ServerInv(sv, h')
  {
    VotersStay(sv, h, h');
  }

  /** Fields no invariant reads may change freely, except that a leader stays a leader only by staying. */
  lemma QuietServer(sv: Server, h: Hist, sv': Server)
    requires sv.me < |h.past| && ServerInv(sv, h)
    requires sv' == sv.(state := sv'.state, commitIndex := sv'.commitIndex, lastApplied := sv'.lastApplied,
                        chanCommit := sv'.chanCommit, chanApply := sv'.chanApply, matchIndex := sv'.matchIndex)
    requires sv'.state == Leader ==> sv.state == Leader
    ensures ServerInv(sv', h)
  {
  }

  /** Moving to a higher term as a follower without a vote. */
  lemma StepDownServer(sv: Server, h: Hist, term: nat)
    requires sv.me < |h.past| && ServerInv(sv, h) && term > sv.currentTerm
    ensures ServerInv(Persist(StepDown(sv, term)), h)
  {
  }

  /** The server after the term test of a handler, before the request itself is looked at. */
  function JoinTerm(sv: Server, term: nat): Server {
    Persist(if term > sv.currentTerm then StepDown(sv, term) else sv)
  }

  lemma JoinServer(sv: Server, h: Hist, term: nat)
    requires sv.me < |h.past| && ServerInv(sv, h) && term >= sv.currentTerm
    ensures ServerInv(JoinTerm(sv, term), h)
  {
    if term > sv.currentTerm {
      StepDownServer(sv, h, term);
    }
  }

  lemma MakeServer(sv: Server, h: Hist)
    requires sv.me < |h.past| && ServerInv(sv, h)
    ensures ServerInv(Make(sv.me, sv.peers, sv.disk), h)
    ensures Make(sv.me, sv.peers, sv.disk).currentTerm == sv.currentTerm
  {
  }

  /* ---------- Elections ---------- */

  lemma NewElectionServer(sv: Server, h: Hist, h': Hist)
    requires sv.me < |h.past| && ServerInv(sv, h) && sv.state != Leader
    requires Grows(h, h') && h'.leader == h.leader && h'.tlog == h.tlog
    requires h'.past[sv.me].votes == h.past[sv.me].votes[sv.currentTerm + 1 := sv.me]
    requires h'.past[sv.me].counted == h.past[sv.me].counted[sv.currentTerm + 1 := {sv.me}]
    requires h'.past[sv.me].cand == h.past[sv.me].cand[sv.currentTerm + 1 := sv.logs]
    ensures ServerInv(NewElection(sv), h')
  {
    VotersStay(sv, h, h');
    var t := sv.currentTerm + 1;
    var counted, counted' := h.past[sv.me].counted, h'.past[sv.me].counted;
    assert VotedFor(h', sv.me, t, sv.me);
    forall u, v | u in counted' && v in counted'[u]
      ensures VotedFor(h', v, u, sv.me)
    {
      if u != t {
        assert u in counted && v in counted[u];
      }
    }
  }

  /** A vote of the present term for another server. */
  lemma GrantServer(sv: Server, h: Hist, candidate: nat, h': Hist)
    requires sv.me < |h.past| && ServerInv(sv, h) && candidate != sv.me
    requires sv.votedFor == NOBODY || sv.votedFor == candidate
    requires Grows(h, h') && h'.leader == h.leader && h'.tlog == h.tlog
    requires h'.past[sv.me].counted == h.past[sv.me].counted && h'.past[sv.me].cand == h.past[sv.me].cand
    requires h'.past[sv.me].votes == h.past[sv.me].votes[sv.currentTerm := candidate]
    ensures ServerInv(Persist(sv.(votedFor := candidate)), h')
  {
    VotersStay(sv, h, h');
  }

  lemma RequestVoteServer(sv: Server, h: Hist, args: RequestVoteArgs, h': Hist)
    requires sv.me < |h.past| && ServerInv(sv, h) && args.candidateId != sv.me
    requires Grows(h, h') && h'.leader == h.leader && h'.tlog == h.tlog
    requires h'.past[sv.me].counted == h.past[sv.me].counted && h'.past[sv.me].cand == h.past[sv.me].cand
    requires h'.past[sv.me].votes == if RequestVote(sv, args).1.voteGranted
             then h.past[sv.me].votes[args.term := args.candidateId] else h.past[sv.me].votes
    ensures ServerInv(RequestVote(sv, args).0, h')
  {
    if args.term < sv.currentTerm {
      SameServer(sv, h, h');
    } else {
      var sv1 := JoinTerm(sv, args.term);
      JoinServer(sv, h, args.term);
      if RequestVote(sv, args).1.voteGranted {
        GrantServer(sv1, h, args.candidateId, h');
      } else {
        SameServer(sv1, h, h');
      }
    }
  }

  /** A vote goes to at most one candidate of a term. */
  lemma VoteIsFinal(sv: Server, p: Past, args: RequestVoteArgs)
    requires |sv.logs| > 0 && VotesInv(sv, p) && RequestVote(sv, args).1.voteGranted
    ensures args.term in p.votes ==> p.votes[args.term] == args.candidateId
  {
  }

  lemma DealVoteReplyServer(sv: Server, h: Hist, args: RequestVoteArgs, reply: RequestVoteReply, from: nat, h': Hist)
    requires sv.me < |h.past| && ServerInv(sv, h)
    requires args.term in h.past[sv.me].counted
    requires from !in h.past[sv.me].counted[args.term]
    requires reply.voteGranted ==> VotedFor(h, from, args.term, sv.me)
    requires Grows(h, h') && h'.leader == h.leader && h'.tlog == h.tlog
    requires h'.past[sv.me].votes == h.past[sv.me].votes && h'.past[sv.me].cand == h.past[sv.me].cand
    requires h'.past[sv.me].counted == if CountsVote(sv, args, reply)
             then h.past[sv.me].counted[args.term := h.past[sv.me].counted[args.term] + {from}]
             else h.past[sv.me].counted
    ensures ServerInv(DealVoteReply(sv, args, reply), h')
  {
    if !CountsVote(sv, args, reply) {
      SameServer(sv, h, h');
      if reply.term > sv.currentTerm {
        StepDownServer(sv, h', reply.term);
      }
    } else {
      VotersStay(sv, h, h');
      assert PastGrows(h.past[from], h'.past[from]);
      CountOneMore(sv, h, args, reply, from, h');
    }
  }

  lemma CountOneMore(sv: Server, h: Hist, args: RequestVoteArgs, reply: RequestVoteReply, from: nat, h': Hist)
    requires sv.me < |h.past| == |h'.past| && CountInv(sv, h) && CountsVote(sv, args, reply)
    requires args.term in h.past[sv.me].counted
    requires from !in h.past[sv.me].counted[args.term]
    requires VotedFor(h', from, args.term, sv.me)
    requires forall t, v :: t in h.past[sv.me].counted && v in h.past[sv.me].counted[t] ==> VotedFor(h', v, t, sv.me)
    requires h'.past[sv.me].counted == h.past[sv.me].counted[args.term := h.past[sv.me].counted[args.term] + {from}]
    requires h'.past[sv.me].cand == h.past[sv.me].cand
    ensures CountInv(DealVoteReply(sv, args, reply), h')
  {
    var t := args.term;
    var counted, counted' := h.past[sv.me].counted, h'.past[sv.me].counted;
    assert |counted'[t]| == |counted[t]| + 1;
    var sv' := DealVoteReply(sv, args, reply);
    forall i | 0 <= i < |sv'.chanBeElected|
      ensures sv'.chanBeElected[i] in counted' && 2 * |counted'[sv'.chanBeElected[i]]| > sv.peers
    {
      if i < |sv.chanBeElected| {
        assert sv'.chanBeElected[i] == sv.chanBeElected[i];
      }
    }
  }

  /* ---------- Log replication ---------- */

  lemma CutAndAppend(logs: seq<LogEntry>, tl: seq<LogEntry>, args: AppendEntriesArgs)
    requires Carries(args, tl) && Same(logs, tl, args.prevLogIndex + 1)
    ensures var log' := logs[..args.prevLogIndex + 1] + args.entries;
            Prefix(log', tl) && |log'| == CarriedLength(args)
  {
    var p := args.prevLogIndex + 1;
    var log' := logs[..p] + args.entries;
    forall i | 0 <= i < |log'|
      ensures log'[i] == tl[i]
    {
      if i < p {
        assert log'[i] == logs[i];
      } else {
        assert log'[i] == args.entries[i - p];
      }
    }
  }

  /** Section 5.3: a request that passes the consistency check leaves the follower with the leader's log as sent. */
  lemma SnapshotAdopted(h: Hist, logs: seq<LogEntry>, args: AppendEntriesArgs)
    requires TlogInv(h) && Rooted(h, logs) && args.term in h.tlog && Carries(args, h.tlog[args.term])
    requires args.prevLogIndex < |logs|
    requires args.prevLogIndex == 0 || logs[args.prevLogIndex].term == args.prevLogTerm
    ensures var log' := logs[..args.prevLogIndex + 1] + args.entries;
            Prefix(log', h.tlog[args.term]) && |log'| == CarriedLength(args)
  {
    var tl := h.tlog[args.term];
    if args.prevLogIndex == 0 {
      RootedIsTermLog(h, logs);
      assert TermLog(tl, args.term);
    } else {
      LeaderLogRooted(h, args.term);
      RootedLogsMatch(h, logs, tl, args.prevLogIndex);
    }
    CutAndAppend(logs, tl, args);
  }

  predicate Accepts(sv: Server, args: AppendEntriesArgs) {
    && args.term >= sv.currentTerm
    && args.prevLogIndex < |sv.logs|
    && (args.prevLogIndex == 0 || sv.logs[args.prevLogIndex].term == args.prevLogTerm)
  }

  lemma AppendEntriesCases(sv: Server, args: AppendEntriesArgs)
    requires |sv.logs| > 0
    ensures AppendEntries(sv, args).1.success <==> Accepts(sv, args)
    ensures args.term < sv.currentTerm ==> AppendEntries(sv, args).0 == sv
    ensures args.term >= sv.currentTerm && !Accepts(sv, args) ==> AppendEntries(sv, args).0 == JoinTerm(sv, args.term)
    ensures Accepts(sv, args) ==>
      AppendEntries(sv, args).0 == Persist(FollowCommit(
        JoinTerm(sv, args.term).(logs := sv.logs[..args.prevLogIndex + 1] + args.entries), args.leaderCommit))
  {
  }

  /** A non-leader after it took over a request of the leader of its term. */
  lemma AdoptServer(sv: Server, h: Hist, log': seq<LogEntry>, leaderCommit: nat)
    requires sv.me < |h.past| && ServerInv(sv, h) && TlogInv(h)
    requires sv.state != Leader && sv.currentTerm in h.tlog
    requires |log'| > 0 && Prefix(log', h.tlog[sv.currentTerm])
    ensures ServerInv(Persist(FollowCommit(sv.(logs := log'), leaderCommit)), h)
  {
    LeaderLogRooted(h, sv.currentTerm);
    RootedPrefix(h, h.tlog[sv.currentTerm], log');
    assert TermLog(h.tlog[sv.currentTerm], sv.currentTerm);
  }

  lemma JoinTermServer(sv: Server, h: Hist, term: nat)
    requires sv.me < |h.past| && ServerInv(sv, h) && term >= sv.currentTerm
    requires term in h.leader && h.leader[term] != sv.me
    ensures ServerInv(JoinTerm(sv, term), h) && JoinTerm(sv, term).state != Leader && JoinTerm(sv, term).currentTerm == term
  {
    JoinServer(sv, h, term);
  }

  lemma AppendEntriesServer(sv: Server, h: Hist, args: AppendEntriesArgs)
    requires sv.me < |h.past| && ServerInv(sv, h) && TlogInv(h)
    requires args.term in h.leader && h.leader[args.term] != sv.me
    requires args.term in h.tlog && Carries(args, h.tlog[args.term])
    ensures ServerInv(AppendEntries(sv, args).0, h)
  {
    AppendEntriesCases(sv, args);
    if args.term >= sv.currentTerm {
      JoinTermServer(sv, h, args.term);
      if Accepts(sv, args) {
        SnapshotAdopted(h, sv.logs, args);
        AdoptServer(JoinTerm(sv, args.term), h, sv.logs[..args.prevLogIndex + 1] + args.entries, args.leaderCommit);
      }
    }
  }

  lemma AppendEntriesReplyInv(sv: Server, h: Hist, args: AppendEntriesArgs)
    requires TlogInv(h) && Rooted(h, sv.logs)
    ensures ReplyInv(args, AppendEntries(sv, args).1)
  {
    RootedIsTermLog(h, sv.logs);
  }

  lemma DealAppendReplyServer(sv: Server, h: Hist, id: nat, args: AppendEntriesArgs, reply: AppendEntriesReply)
    requires sv.me < |h.past| && ServerInv(sv, h) && TlogInv(h)
    requires UpdatesPeer(sv, args, reply) ==> id < |sv.nextIndex| && id < |sv.matchIndex|
    requires ReplyInv(args, reply)
    requires args.term in h.tlog && Carries(args, h.tlog[args.term])
    ensures ServerInv(DealAppendReply(sv, id, args, reply), h)
  {
    if reply.term > sv.currentTerm {
      StepDownServer(sv, h, reply.term);
    } else if sv.currentTerm == args.term && reply.success && |args.entries| > 0 {
      assert TermLog(h.tlog[args.term], args.term);
    }
  }
}
