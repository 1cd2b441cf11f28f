/** Raft: every ordered run can go on. */
module RaftRecovery {
  // From the end of every ordered run of two or more servers, whatever was lost, delayed or crashed in it, some further
  // events, which meet all assumptions, bring a new command to every server, applied. The way there: all servers
  // restart, one with a log that no other is ahead of is elected, gets the command, probes each peer back to where the
  // logs agree, commits, tells everybody, and all apply.

  import opened RaftLog
  import opened RaftServer
  import opened RaftCluster
  import opened RaftDurable
  import opened RaftHistory
  import opened RaftSteps
  import opened RaftSafety
  import opened RaftReplication
  import opened RaftLaws
  import opened RaftTraces
  import opened RaftScenarios
  import opened Quorum

  /* ---------- Everybody restarts ---------- */

  /** The first k servers rest, with the terms and logs they had in c0; the others are as in c0. */
  ghost predicate Rebooted(c0: Cluster, c: Cluster, k: nat) {
    && |c.servers| == |c0.servers| == |c.threads| == |c0.threads| && k <= |c.servers|
    && (forall s :: 0 <= s < k ==> Rests(c, s, c0.servers[s].currentTerm, c0.servers[s].logs))
    && (forall s :: k <= s < |c.servers| ==> c.servers[s] == c0.servers[s])
  }

  lemma {:induction false} RebootAll(g: Gap, n: nat, c: Cluster, k: nat) returns (c': Cluster)
    requires At(g, n, c) && k <= n
    ensures At(g, n, c') && Rebooted(c, c', k)
    decreases k
  {
    if k == 0 {
      c' := c;
    } else {
      var c1 := RebootAll(g, n, c, k - 1);
      c' := Reboot(g, n, c1, k - 1);
    }
  }

  /* ---------- The server to be elected ---------- */

  /** Of the first k servers one has a log that passes the voter's test for all of them; and their terms are bounded. */
  lemma {:induction false} FurthestLog(servers: seq<Server>, k: nat) returns (s: nat, t: nat)
    requires 0 < k <= |servers| && forall j :: 0 <= j < |servers| ==> |servers[j].logs| > 0
    ensures s < k
    ensures forall j :: 0 <= j < k ==> AtLeast(servers[s].logs, servers[j].logs) && servers[j].currentTerm <= t
    decreases k
  {
    if k == 1 {
      s, t := 0, servers[0].currentTerm;
    } else {
      var s1, t1 := FurthestLog(servers, k - 1);
      var last := servers[k - 1];
      s := if AtLeast(last.logs, servers[s1].logs) then k - 1 else s1;
      t := if last.currentTerm > t1 then last.currentTerm else t1;
      LogsAreOrdered(last.logs, servers[s1].logs, last.logs);
      forall j | 0 <= j < k
        ensures AtLeast(servers[s].logs, servers[j].logs)
      {
        LogsAreOrdered(last.logs, servers[s1].logs, servers[j].logs);
      }
    }
  }

  /** Half of the peers of s. */
  function Half(n: nat, s: nat): seq<nat> {
    seq(n / 2, i => if i < s then i else i + 1)
  }

  lemma HalfElects(c: Cluster, s: nat, sv: Server)
    requires Shape(c) && |c.servers| >= 2 && s < |c.servers| && |sv.logs| > 0
    requires forall j :: 0 <= j < |c.servers| && j != s ==> Willing(c.servers[j], sv)
    ensures Electorate(c, s, sv, Half(|c.servers|, s))
  {
  }

  /* ---------- Leader and peers ---------- */

  /** Nothing was applied yet, and what is committed is announced. */
  ghost predicate Tidy(sv: Server, th: Threads) {
    && !th.applying && sv.lastApplied == 0 && sv.chanApply == []
    && sv.commitIndex < |sv.logs| && (sv.commitIndex > 0 ==> sv.chanCommit > 0)
  }

  /** Server s leads term t with the given log and can broadcast. */
  ghost predicate Heads(c: Cluster, s: nat, t: nat, log: seq<LogEntry>) {
    && s < |c.servers| == |c.threads| && Tidy(c.servers[s], c.threads[s])
    && c.servers[s].state == Leader && c.threads[s].loop == AtSwitch
    && c.servers[s].currentTerm == t && c.servers[s].logs == log && CanBroadcast(c.servers[s])
  }

  /** Entries of one term at one position have the same entries before them. */
  ghost predicate Agree(a: seq<LogEntry>, b: seq<LogEntry>) {
    forall k {:trigger a[k].term} :: 0 <= k < |a| && k < |b| && a[k].term == b[k].term ==> Same(a, b, k + 1)
  }

  /** The peer's log agrees with the leader's where they meet; the leader has not yet sent it its last entry. */
  ghost predicate Lags(sv: Server, v: nat, w: Server) {
    && v < |sv.nextIndex| == |sv.matchIndex| && 1 <= sv.nextIndex[v] < |sv.logs| && sv.logs[0] == SENTINEL
    && w.currentTerm <= sv.currentTerm && TermLog(w.logs, w.currentTerm) && Agree(w.logs, sv.logs)
  }

  /** The peer has the leader's log, and the leader knows it. */
  ghost predicate Follows(sv: Server, v: nat, w: Server) {
    && v < |sv.nextIndex| == |sv.matchIndex| && |sv.logs| > 0
    && sv.nextIndex[v] == |sv.logs| && sv.matchIndex[v] == LastIndex(sv.logs)
    && w.currentTerm == sv.currentTerm && w.logs == sv.logs
  }

  /** A broadcast advances at most commitIndex, and announces it. */
  lemma AdvanceIsTidy(sv: Server, th: Threads)
    requires |sv.matchIndex| == sv.peers && |sv.logs| > 0 && Tidy(sv, th)
    ensures var sv' := AdvanceCommit(sv);
            && Tidy(sv', th) && sv.commitIndex <= sv'.commitIndex
            && sv' == sv.(commitIndex := sv'.commitIndex, chanCommit := sv'.chanCommit)
  {
  }

  /** The probe that fits: the peer's log is the leader's up to the entry before nextIndex. */
  lemma FitsSoFar(sv: Server, v: nat, w: Server)
    requires Lags(sv, v, w) && Accepts(w, AppendArgs(sv, v))
    ensures Same(w.logs, sv.logs, sv.nextIndex[v])
  {
    var prev := sv.nextIndex[v] - 1;
    assert w.logs[prev].term == sv.logs[prev].term;
  }

  lemma CutAndJoin(a: seq<LogEntry>, b: seq<LogEntry>, n: nat)
    requires Same(a, b, n)
    ensures a[..n] + b[n..] == b
  {
  }

  /** So the peer ends with the leader's log. */
  lemma TakesLogOver(sv: Server, v: nat, w: Server)
    requires v < |sv.nextIndex| && 1 <= sv.nextIndex[v] <= |sv.logs| && Same(w.logs, sv.logs, sv.nextIndex[v])
    requires |w.logs| > 0 && Accepts(w, AppendArgs(sv, v))
    ensures AppendEntries(w, AppendArgs(sv, v)).0.logs == sv.logs
  {
    AppendEntriesCases(w, AppendArgs(sv, v));
    CutAndJoin(w.logs, sv.logs, sv.nextIndex[v]);
  }

  /** What it applied stays, and what it commits it announces. */
  lemma AcceptanceIsTidy(w: Server, args: AppendEntriesArgs, th: Threads)
    requires |w.logs| > 0 && AppendEntries(w, args).1.success && Tidy(w, th)
    requires w.commitIndex < args.prevLogIndex + 1 + |args.entries|
    ensures Tidy(AppendEntries(w, args).0, th)
    ensures AppendEntries(w, args).0.commitIndex ==
      if args.leaderCommit > w.commitIndex then Min(args.leaderCommit, args.prevLogIndex + |args.entries|) else w.commitIndex
  {
    AcceptanceReplaces(w, args);
  }

  /** And the leader notes it. */
  lemma AcceptanceIsNoted(sv: Server, v: nat, w: Server)
    requires Indexed(sv.logs) && v < |sv.nextIndex| == |sv.matchIndex| && 1 <= sv.nextIndex[v] < |sv.logs|
    requires |w.logs| > 0 && w.currentTerm <= sv.currentTerm && AppendEntries(w, AppendArgs(sv, v)).1.success
    ensures DealAppendReply(sv, v, AppendArgs(sv, v), AppendEntries(w, AppendArgs(sv, v)).1) == Recorded(sv, v)
  {
    RequestYields(w, AppendArgs(sv, v));
  }

  lemma FittingProbe(sv: Server, v: nat, w: Server, th: Threads)
    requires Indexed(sv.logs) && Lags(sv, v, w) && Tidy(w, th) && w.commitIndex == 0
    requires Accepts(w, AppendArgs(sv, v))
    ensures var args := AppendArgs(sv, v);
            var (w', reply) := AppendEntries(w, args);
            && DealAppendReply(sv, v, args, reply) == Recorded(sv, v)
            && Tidy(w', th) && w'.logs == sv.logs && w'.currentTerm == sv.currentTerm
  {
    var args := AppendArgs(sv, v);
    RequestAcceptedIff(w, args);
    FitsSoFar(sv, v, w);
    TakesLogOver(sv, v, w);
    AcceptanceIsTidy(w, args, th);
    AcceptanceIsNoted(sv, v, w);
    RequestYields(w, args);
  }

  /** The probe that does not fit: the peer keeps its log, and the leader goes back. */
  lemma FailingProbe(sv: Server, v: nat, w: Server, th: Threads)
    requires Lags(sv, v, w) && Tidy(w, th) && !Accepts(w, AppendArgs(sv, v))
    ensures var args := AppendArgs(sv, v);
            var (w', reply) := AppendEntries(w, args);
            var sv' := DealAppendReply(sv, v, args, reply);
            && 1 <= reply.nextIndex < sv.nextIndex[v] && sv' == sv.(nextIndex := sv.nextIndex[v := reply.nextIndex])
            && Lags(sv', v, w') && Tidy(w', th) && w'.commitIndex == w.commitIndex
  {
    ProbeRejected(sv, v, w);
    RequestAcceptedIff(w, AppendArgs(sv, v));
    RejectionKeeps(w, AppendArgs(sv, v));
  }

  /* ---------- One peer catches up ---------- */

  /** Everybody but s and v is as before, and so is what s has recorded of them. */
  ghost predicate OnlyPeer(c: Cluster, s: nat, v: nat, c': Cluster) {
    && s < |c.servers| == |c'.servers| && c'.threads == c.threads
    && (forall j :: 0 <= j < |c.servers| && j != s && j != v ==> c'.servers[j] == c.servers[j])
    && |c'.servers[s].nextIndex| == |c.servers[s].nextIndex| && |c'.servers[s].matchIndex| == |c.servers[s].matchIndex|
    && (forall j :: 0 <= j < |c.servers[s].nextIndex| && j != v ==> c'.servers[s].nextIndex[j] == c.servers[s].nextIndex[j])
    && (forall j :: 0 <= j < |c.servers[s].matchIndex| && j != v ==> c'.servers[s].matchIndex[j] == c.servers[s].matchIndex[j])
  }

  /** Leader and peer before and after a probe: the peer follows, or the leader has gone back. */
  ghost predicate Probed(sv: Server, v: nat, sv': Server, w': Server) {
    && v < |sv.nextIndex| == |sv'.nextIndex| && |sv'.matchIndex| == |sv.matchIndex| == |sv.nextIndex|
    && sv'.logs == sv.logs && sv'.currentTerm == sv.currentTerm
    && sv'.state == sv.state && sv'.peers == sv.peers && sv'.me == sv.me
    && sv'.nextIndex == sv.nextIndex[v := sv'.nextIndex[v]] && sv'.matchIndex == sv.matchIndex[v := sv'.matchIndex[v]]
    && (Follows(sv', v, w') || (Lags(sv', v, w') && sv'.nextIndex[v] < sv.nextIndex[v] && w'.commitIndex == 0))
  }

  lemma Probe(sv0: Server, th0: Threads, v: nat, w: Server, th: Threads)
    requires |sv0.matchIndex| == sv0.peers && Indexed(sv0.logs) && Tidy(sv0, th0)
    requires Lags(sv0, v, w) && Tidy(w, th) && w.commitIndex == 0
    ensures var sv := AdvanceCommit(sv0);
            var args := AppendArgs(sv, v);
            var (w', reply) := AppendEntries(w, args);
            && (UpdatesPeer(sv, args, reply) ==> v < |sv.nextIndex| && v < |sv.matchIndex|)
            && var sv' := DealAppendReply(sv, v, args, reply);
               Tidy(sv', th0) && Tidy(w', th) && Probed(sv0, v, sv', w')
  {
    var sv := AdvanceCommit(sv0);
    AdvanceIsTidy(sv0, th0);
    if Accepts(w, AppendArgs(sv, v)) {
      FittingProbe(sv, v, w, th);
    } else {
      FailingProbe(sv, v, w, th);
    }
  }

  lemma StillHeads(c: Cluster, s: nat, v: nat, t: nat, log: seq<LogEntry>, c': Cluster, sv': Server, w': Server)
    requires Heads(c, s, t, log) && v < |c.servers| && v != s && |c.servers[s].nextIndex| == |c.servers|
    requires Probed(c.servers[s], v, sv', w') && Tidy(sv', c.threads[s])
    requires c'.threads == c.threads && c'.servers == c.servers[v := w'][s := sv']
    ensures Heads(c', s, t, log) && OnlyPeer(c, s, v, c')
  {
  }

  /** One probe of one peer. */
  lemma ProbePeer(g: Gap, n: nat, c: Cluster, s: nat, v: nat, t: nat, log: seq<LogEntry>) returns (c': Cluster)
    requires At(g, n, c) && Heads(c, s, t, log) && v < n && v != s
    requires Lags(c.servers[s], v, c.servers[v]) && Tidy(c.servers[v], c.threads[v]) && c.servers[v].commitIndex == 0
    ensures At(g, n, c') && Heads(c', s, t, log) && OnlyPeer(c, s, v, c') && Tidy(c'.servers[v], c'.threads[v])
    ensures Probed(c.servers[s], v, c'.servers[s], c'.servers[v])
  {
    Probe(c.servers[s], c.threads[s], v, c.servers[v], c.threads[v]);
    c' := Exchange(g, n, c, s, v);
    StillHeads(c, s, v, t, log, c', c'.servers[s], c'.servers[v]);
  }

  lemma {:induction false} CatchUpPeer(g: Gap, n: nat, c: Cluster, s: nat, v: nat, t: nat, log: seq<LogEntry>) returns (c': Cluster)
    requires At(g, n, c) && Heads(c, s, t, log) && v < n && v != s
    requires Lags(c.servers[s], v, c.servers[v]) && Tidy(c.servers[v], c.threads[v]) && c.servers[v].commitIndex == 0
    ensures At(g, n, c') && Heads(c', s, t, log) && OnlyPeer(c, s, v, c')
    ensures Follows(c'.servers[s], v, c'.servers[v]) && Tidy(c'.servers[v], c'.threads[v])
    decreases c.servers[s].nextIndex[v]
  {
    c' := ProbePeer(g, n, c, s, v, t, log);
    if !Follows(c'.servers[s], v, c'.servers[v]) {
      c' := CatchUpPeer(g, n, c', s, v, t, log);
    }
  }

  /* ---------- All catch up ---------- */

  /** The first k servers but s follow s; the others lag behind and have committed nothing. */
  ghost predicate CaughtUp(c: Cluster, s: nat, k: nat) {
    && s < |c.servers| == |c.threads|
    && (forall v {:trigger c.servers[v]} :: 0 <= v < |c.servers| && v != s ==>
      && Tidy(c.servers[v], c.threads[v])
      && (if v < k then Follows(c.servers[s], v, c.servers[v])
          else Lags(c.servers[s], v, c.servers[v]) && c.servers[v].commitIndex == 0))
  }

  lemma StillCaughtUp(c: Cluster, s: nat, k: nat, c': Cluster, t: nat, log: seq<LogEntry>)
    requires CaughtUp(c, s, k) && k < |c.servers| && k != s && OnlyPeer(c, s, k, c')
    requires Heads(c, s, t, log) && Heads(c', s, t, log)
    requires Follows(c'.servers[s], k, c'.servers[k]) && Tidy(c'.servers[k], c'.threads[k])
    ensures CaughtUp(c', s, k + 1)
  {
  }

  lemma {:induction false} CatchUpAll(g: Gap, n: nat, c: Cluster, s: nat, t: nat, log: seq<LogEntry>, k: nat) returns (c': Cluster)
    requires At(g, n, c) && Heads(c, s, t, log) && CaughtUp(c, s, 0) && k <= n
    ensures At(g, n, c') && Heads(c', s, t, log) && CaughtUp(c', s, k)
    decreases k
  {
    if k == 0 {
      c' := c;
    } else {
      var c1 := CatchUpAll(g, n, c, s, t, log, k - 1);
      if k - 1 == s {
        c' := c1;
      } else {
        c' := CatchUpPeer(g, n, c1, s, k - 1, t, log);
        StillCaughtUp(c1, s, k - 1, c', t, log);
      }
    }
  }

  /* ---------- All hear of the commit ---------- */

  /** The whole log is committed in server v. */
  ghost predicate AllCommitted(sv: Server, th: Threads, log: seq<LogEntry>) {
    Tidy(sv, th) && sv.logs == log && |log| > 0 && sv.commitIndex == LastIndex(log)
  }

  /** With everybody following, the next broadcast commits the whole log, if that has an entry of the term at its end. */
  lemma EverythingCommits(c: Cluster, s: nat, t: nat, log: seq<LogEntry>)
    requires Shape(c) && Heads(c, s, t, log) && CaughtUp(c, s, |c.servers|) && |c.servers| >= 2 && LastTerm(log) == t
    ensures AdvanceCommit(c.servers[s]).commitIndex == LastIndex(log)
  {
    var sv, n := c.servers[s], |c.servers|;
    if sv.commitIndex < LastIndex(log) {
      var peers := Ids(n) - {s};
      assert Ids(n) == peers + {s};
      forall v | v in peers
        ensures v < n && v != s && sv.matchIndex[v] >= LastIndex(log)
      {
        assert Follows(sv, v, c.servers[v]);
      }
      LastIsCommitted(sv, peers);
    }
  }

  /** A request that carries nothing but the commit of a log the peer already has. */
  lemma Announcement(sv: Server, v: nat, w: Server, th: Threads)
    requires |sv.logs| > 1 && Indexed(sv.logs) && Follows(sv, v, w) && Tidy(w, th) && sv.commitIndex == LastIndex(sv.logs)
    ensures var args := AppendArgs(sv, v);
            var (w', reply) := AppendEntries(w, args);
            DealAppendReply(sv, v, args, reply) == sv && AllCommitted(w', th, sv.logs) && w'.currentTerm == w.currentTerm
  {
    var args := AppendArgs(sv, v);
    RequestAcceptedIff(w, args);
    RequestYields(w, args);
    TakesLogOver(sv, v, w);
    AcceptanceIsTidy(w, args, th);
  }

  /** The first k servers but s have committed everything; all follow s. */
  ghost predicate Told(c: Cluster, s: nat, k: nat, log: seq<LogEntry>) {
    && CaughtUp(c, s, |c.servers|)
    && forall v :: 0 <= v < k && v < |c.servers| && v != s ==> AllCommitted(c.servers[v], c.threads[v], log)
  }

  lemma TellPeer(g: Gap, n: nat, c: Cluster, s: nat, t: nat, log: seq<LogEntry>, v: nat) returns (c': Cluster)
    requires At(g, n, c) && Heads(c, s, t, log) && n >= 2 && LastTerm(log) == t && |log| > 1 && v < n && v != s
    requires Told(c, s, v, log)
    ensures At(g, n, c') && Heads(c', s, t, log) && Told(c', s, v + 1, log)
    ensures c'.servers[s].commitIndex == LastIndex(log)
  {
    EverythingCommits(c, s, t, log);
    AdvanceIsTidy(c.servers[s], c.threads[s]);
    Announcement(AdvanceCommit(c.servers[s]), v, c.servers[v], c.threads[v]);
    c' := Exchange(g, n, c, s, v);
  }

  lemma {:induction false} TellAll(g: Gap, n: nat, c: Cluster, s: nat, t: nat, log: seq<LogEntry>, k: nat) returns (c': Cluster)
    requires At(g, n, c) && Heads(c, s, t, log) && n >= 2 && LastTerm(log) == t && |log| > 1 && k <= n
    requires Told(c, s, 0, log)
    ensures At(g, n, c') && Heads(c', s, t, log) && Told(c', s, k, log)
    ensures k > 1 || (k == 1 && s != 0) ==> c'.servers[s].commitIndex == LastIndex(log)
    decreases k
  {
    if k == 0 {
      c' := c;
    } else {
      var c1 := TellAll(g, n, c, s, t, log, k - 1);
      if k - 1 == s {
        c' := c1;
      } else {
        c' := TellPeer(g, n, c1, s, t, log, k - 1);
      }
    }
  }

  /* ---------- All apply ---------- */

  /** The server has applied the entries 1, 2, ... of the log to its end. */
  ghost predicate HasApplied(sv: Server, log: seq<LogEntry>) {
    && sv.logs == log && |sv.chanApply| + 1 == |log|
    && forall i :: 0 <= i < |sv.chanApply| ==> sv.chanApply[i] == ApplyMsg(i + 1, log[i + 1].command)
  }

  ghost predicate Applying(c: Cluster, k: nat, log: seq<LogEntry>) {
    && |c.servers| == |c.threads|
    && (forall v :: 0 <= v < k && v < |c.servers| ==> HasApplied(c.servers[v], log))
    && (forall v :: k <= v < |c.servers| ==> AllCommitted(c.servers[v], c.threads[v], log))
  }

  lemma ApplyBrings(sv: Server, th: Threads, log: seq<LogEntry>)
    requires AllCommitted(sv, th, log) && |log| > 1
    ensures HasApplied(Apply(sv.(chanCommit := sv.chanCommit - 1)), log)
  {
    EverythingIsApplied(sv.(chanCommit := sv.chanCommit - 1));
  }

  lemma {:induction false} ApplyEverywhere(g: Gap, n: nat, c: Cluster, log: seq<LogEntry>, k: nat) returns (c': Cluster)
    requires At(g, n, c) && Applying(c, 0, log) && |log| > 1 && k <= n
    ensures At(g, n, c') && Applying(c', k, log)
    decreases k
  {
    if k == 0 {
      c' := c;
    } else {
      var c1 := ApplyEverywhere(g, n, c, log, k - 1);
      ApplyBrings(c1.servers[k - 1], c1.threads[k - 1], log);
      c' := ApplyNow(g, n, c1, k - 1);
    }
  }

  /* ---------- A leader with the command ---------- */

  /** The logs of a cluster are logs of their terms and agree where they meet. */
  ghost predicate Consistent(c: Cluster) {
    && (forall s :: 0 <= s < |c.servers| ==> TermLog(c.servers[s].logs, c.servers[s].currentTerm))
    && (forall a, b {:trigger c.servers[a], c.servers[b]} :: 0 <= a < |c.servers| && 0 <= b < |c.servers| ==>
      Agree(c.servers[a].logs, c.servers[b].logs))
  }

  lemma EqualSlices(a: seq<LogEntry>, b: seq<LogEntry>, n: nat)
    requires n <= |a| && n <= |b| && a[..n] == b[..n]
    ensures Same(a, b, n)
  {
    forall i | 0 <= i < n
      ensures a[i] == b[i]
    {
      assert a[..n][i] == b[..n][i];
    }
  }

  /** Log Matching and index safety, at the end of a run. */
  lemma EndIsConsistent(n: nat, states: seq<Cluster>, events: seq<Event>)
    requires TimelyRun(n, states, events)
    ensures Consistent(states[|events|])
  {
    var i, c := |events|, states[|events|];
    forall s | 0 <= s < |c.servers|
      ensures TermLog(c.servers[s].logs, c.servers[s].currentTerm)
    {
      IndexSafety(n, states, events, i, s);
    }
    forall a, b, k | 0 <= a < |c.servers| && 0 <= b < |c.servers| && 0 <= k < |c.servers[a].logs| && k < |c.servers[b].logs|
        && c.servers[a].logs[k].term == c.servers[b].logs[k].term
      ensures Same(c.servers[a].logs, c.servers[b].logs, k + 1)
    {
      LogMatching(n, states, events, i, i, a, b, k);
      EqualSlices(c.servers[a].logs, c.servers[b].logs, k + 1);
    }
  }

  /** A log that agrees with the leader's old log agrees with its new one: it has no entry of the new term. */
  lemma AgreesStill(a: seq<LogEntry>, term: nat, b: seq<LogEntry>, e: LogEntry)
    requires TermLog(a, term) && Agree(a, b) && e.term > term
    ensures Agree(a, b + [e])
  {
    forall k | 0 <= k < |a| && k < |b + [e]| && a[k].term == (b + [e])[k].term
      ensures Same(a, b + [e], k + 1)
    {
      assert k < |b|;
    }
  }

  /** The servers after the election: the winner leads, the others rest and are not beyond its term. */
  ghost predicate Elected(c0: Cluster, c: Cluster, s: nat, t: nat) {
    && s < |c0.servers| == |c.servers| == |c.threads|
    && Leads(c, s, t, c0.servers[s].logs, seq(|c.servers|, i => |c0.servers[s].logs|), seq(|c.servers|, i => 0))
    && (forall j :: 0 <= j < |c.servers| ==> c0.servers[j].currentTerm < t)
    && (forall j :: 0 <= j < |c.servers| && j != s ==>
      && Fresh(c, j) && c0.servers[j].currentTerm <= c.servers[j].currentTerm <= t
      && c.servers[j].logs == c0.servers[j].logs)
  }

  lemma ElectFurthest(g: Gap, n: nat, c0: Cluster, c: Cluster) returns (c': Cluster, s: nat, t: nat)
    requires At(g, n, c) && n >= 2 && Rebooted(c0, c, n) && Consistent(c0)
    ensures At(g, n, c') && Elected(c0, c', s, t)
  {
    var term: nat;
    s, term := FurthestLog(c.servers, n);
    var m := term + 1 - c.servers[s].currentTerm;
    var sv := Stood(c.servers[s], m);
    forall j | 0 <= j < n && j != s
      ensures Willing(c.servers[j], sv)
    {
      LogsAreOrdered(sv.logs, c.servers[j].logs, sv.logs);
    }
    HalfElects(c, s, sv);
    assert Rests(c, s, c0.servers[s].currentTerm, c0.servers[s].logs);
    c' := TakeLead(g, n, c, s, m, Half(n, s));
    t := term + 1;
    forall j | 0 <= j < n && j != s
      ensures Fresh(c', j) && c0.servers[j].currentTerm <= c'.servers[j].currentTerm <= t
      ensures c'.servers[j].logs == c0.servers[j].logs
    {
      assert Rests(c, j, c0.servers[j].currentTerm, c0.servers[j].logs);
    }
  }

  /** The leader gets the command, which no peer has yet. */
  lemma BeginWith(g: Gap, n: nat, c0: Cluster, c: Cluster, s: nat, t: nat, x: int) returns (c': Cluster, log: seq<LogEntry>)
    requires At(g, n, c) && n >= 2 && Elected(c0, c, s, t) && Consistent(c0)
    ensures At(g, n, c') && Heads(c', s, t, log) && CaughtUp(c', s, 0)
    ensures |log| > 1 && LastTerm(log) == t && log[|log| - 1].command == x
  {
    c' := GetCommand(g, n, c, s, x);
    log := c'.servers[s].logs;
    CommandIsTaken(c.servers[s], x);
    var e := log[|log| - 1];
    assert log == c0.servers[s].logs + [e];
    forall v | 0 <= v < n && v != s
      ensures Tidy(c'.servers[v], c'.threads[v]) && Lags(c'.servers[s], v, c'.servers[v])
    {
      assert Agree(c0.servers[v].logs, c0.servers[s].logs) && TermLog(c0.servers[v].logs, c0.servers[v].currentTerm);
      AgreesStill(c0.servers[v].logs, c0.servers[v].currentTerm, c0.servers[s].logs, e);
    }
  }

  /* ---------- The theorem ---------- */

  /** Every server has applied the same messages, and x as the last of them. */
  ghost predicate AllApplied(c: Cluster, x: int) {
    forall s :: 0 <= s < |c.servers| ==>
      && |c.servers[s].chanApply| > 0 && c.servers[s].chanApply == c.servers[0].chanApply
      && c.servers[s].chanApply[|c.servers[s].chanApply| - 1].command == x
  }

  lemma SameLogSameMessages(c: Cluster, log: seq<LogEntry>, x: int)
    requires Applying(c, |c.servers|, log) && |log| > 1 && log[|log| - 1].command == x
    ensures AllApplied(c, x)
  {
    forall s | 0 <= s < |c.servers|
      ensures c.servers[s].chanApply == c.servers[0].chanApply
    {
      assert HasApplied(c.servers[s], log) && HasApplied(c.servers[0], log);
    }
  }

  lemma FromHereOn(g: Gap, n: nat, c: Cluster, x: int) returns (c': Cluster)
    requires At(g, n, c) && n >= 2 && Consistent(c)
    ensures At(g, n, c') && AllApplied(c', x)
  {
    var c1 := RebootAll(g, n, c, n);
    var c2, s, t := ElectFurthest(g, n, c, c1);
    var c3, log := BeginWith(g, n, c, c2, s, t, x);
    var c4 := CatchUpAll(g, n, c3, s, t, log, n);
    var c5 := TellAll(g, n, c4, s, t, log, n);
    var c6 := ApplyEverywhere(g, n, c5, log, n);
    SameLogSameMessages(c6, log, x);
    c' := c6;
  }

  /** The run can be continued, as an ordered run, until every server has applied the same messages and x as the last. */
  ghost predicate Recovers(n: nat, states: seq<Cluster>, events: seq<Event>, x: int) {
    exists states': seq<Cluster>, events': seq<Event> ::
      && OrderedRun(n, states', events') && states <= states' && events <= events'
      && |states'[|events'|].servers| == n && AllApplied(states'[|events'|], x)
  }

  /**
   * Every ordered run of two or more servers can be continued, as an ordered run, to a state in which every server has
   * applied the same messages and a given new command as the last of them. No loss, delay or crash is for good.
   */
  lemma EveryRunRecovers(n: nat, states: seq<Cluster>, events: seq<Event>, x: int)
    requires OrderedRun(n, states, events) && n >= 2
    ensures Recovers(n, states, events, x)
  {
    var g, c := Continuing(states, events), states[|events|];
    OrderedIsTrace(g, n, states, events);
    assert EndsIn(g, n, states, events, c);
    DurableState(n, states, events, |events|);
    EndIsConsistent(n, states, events);
    var c' := FromHereOn(g, n, c, x);
    var states', events' :| EndsIn(g, n, states', events', c');
    OrderedIsTrace(g, n, states', events');
  }

  /* ---------- One server alone ---------- */

  /** Nothing is sent, about to be sent, committed or applied. */
  ghost predicate Inert(c: Cluster) {
    && |c.servers| == |c.threads| == 1 && c.appends == [] && c.threads[0].loop != BeforeBroadcast
    && c.servers[0].commitIndex == 0 && c.servers[0].chanApply == []
  }

  lemma InertCall(c: Cluster, e: Event)
    requires Shape(c) && Enabled(c, e) && !Faults(c, e) && Leaderless(c) && Inert(c) && (e.ClientStart? || e.ApplyAll? || e.TakeCommit?)
    ensures Inert(Next(c, e))
  {
  }

  lemma InertStep(c: Cluster, e: Event)
    requires Shape(c) && Enabled(c, e) && !Faults(c, e) && Leaderless(c) && Inert(c)
    ensures Inert(Next(c, e))
  {
    if e.ClientStart? || e.ApplyAll? || e.TakeCommit? {
      InertCall(c, e);
    }
  }

  lemma {:induction false} LoneServerAppliesNothing(states: seq<Cluster>, events: seq<Event>, i: nat)
    requires Run(1, states, events) && i < |states|
    ensures Inert(states[i])
  {
    if i > 0 {
      LoneServerAppliesNothing(states, events, i - 1);
      LoneServerNeverLeads(states, events, i - 1);
      assert StepAt(states, events, i - 1);
      InertStep(states[i - 1], events[i - 1]);
    }
  }

  /** Two servers are enough, and necessary. */
  lemma RecoveryIff(n: nat)
    requires n > 0
    ensures (forall states, events, x :: OrderedRun(n, states, events) ==> Recovers(n, states, events, x)) <==> n >= 2
  {
    if n >= 2 {
      forall states, events, x | OrderedRun(n, states, events)
        ensures Recovers(n, states, events, x)
      {
        EveryRunRecovers(n, states, events, x);
      }
    } else {
      assert OrderedRun(1, [Init(1)], []);
      if Recovers(1, [Init(1)], [], 0) {
        var states: seq<Cluster>, events: seq<Event> :|
          OrderedRun(1, states, events) && |states[|events|].servers| == 1 && AllApplied(states[|events|], 0);
        LoneServerAppliesNothing(states, events, |events|);
      }
    }
  }
}
