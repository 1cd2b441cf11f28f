/**
 * A cluster of Raft servers and the network between them. One event is one critical section under a
 * server's lock, one turn of its `statesLoop`, or a crash with restart.
 */
module RaftCluster {
  import opened Options
  import opened RaftLog
  import opened RaftServer

  /**
   * A remote call. It is delivered at most once and its reply is used at most once; a call that stays in
   * a state for ever was lost there. Delivery may happen in any order and after any delay.
   */
  datatype Status<R> = Sent | Answered(reply: R) | Closed

  datatype Rpc<A, R> = Rpc(from: nat, to: nat, epoch: nat, args: A, status: Status<R>)

  type VoteRpc = Rpc<RequestVoteArgs, RequestVoteReply>
  type AppendRpc = Rpc<AppendEntriesArgs, AppendEntriesReply>

  /** Where the `statesLoop` goroutine of a server stands. */
  datatype Loop = AtSwitch | BeforeElection | AwaitingVotes | BeforeBroadcast

  /**
   * The goroutines of one incarnation of a server: its `statesLoop`, its `applyLoop` (applying means a
   * chanCommit token was taken), and the `broadcastRequestVote` goroutines that have not yet read the
   * server, each labelled with the term of the election that started it.
   */
  datatype Threads = Threads(loop: Loop, applying: bool, ballots: set<nat>, epoch: nat)

  datatype Cluster = Cluster(
    servers: seq<Server>,
    threads: seq<Threads>,
    votes: seq<VoteRpc>,
    appends: seq<AppendRpc>)

  datatype Event =
    | Timeout(s: nat)
    | EnterElection(s: nat)
    | BeginElection(s: nat)
    | SendBallots(s: nat, term: nat, targets: seq<nat>)
    | GiveUp(s: nat)
    | HearHeartBeat(s: nat)
    | BeElected(s: nat)
    | EnterBroadcast(s: nat)
    | Broadcast(s: nat)
    | DeliverVote(k: nat)
    | TakeVoteReply(k: nat)
    | DeliverAppend(k: nat)
    | TakeAppendReply(k: nat)
    | ClientStart(s: nat, command: int)
    | TakeCommit(s: nat)
    | ApplyAll(s: nat)
    | Restart(s: nat)

  /** What a server does as a candidate, as a voter, as a leader and as a follower; and the rest. */
  predicate Campaigning(e: Event) {
    e.BeginElection? || e.SendBallots? || e.BeElected?
  }

  predicate Voting(e: Event) {
    e.DeliverVote? || e.TakeVoteReply?
  }

  predicate Leading(e: Event) {
    e.Broadcast? || e.TakeAppendReply? || e.ClientStart?
  }

  predicate Following(e: Event) {
    e.DeliverAppend? || e.Restart?
  }

  predicate Quiet(e: Event) {
    e.Timeout? || e.EnterElection? || e.GiveUp? || e.HearHeartBeat? || e.EnterBroadcast? || e.TakeCommit? || e.ApplyAll?
  }

  function Init(n: nat): Cluster {
    Cluster(
      seq(n, i requires 0 <= i < n => Make(i, n, None)),
      seq(n, i => Threads(AtSwitch, false, {}, 0)),
      [], [])
  }

  /** The entries of a request continue the log right after prevLogIndex. */
  ghost predicate Continues(args: AppendEntriesArgs) {
    forall i :: 0 <= i < |args.entries| ==> args.entries[i].index == args.prevLogIndex + 1 + i
  }

  ghost predicate ServerShape(sv: Server, s: nat, n: nat) {
    && sv.me == s && sv.peers == n && Indexed(sv.logs)
    && (sv.disk.Some? ==> Indexed(sv.disk.value.logs))
    && |sv.nextIndex| == |sv.matchIndex| && (|sv.nextIndex| == 0 || |sv.nextIndex| == n)
  }

  /** Logs are indexed, requests continue them, and the ids are ids of servers. Every step keeps this. */
  ghost predicate Shape(c: Cluster) {
    && |c.threads| == |c.servers|
    && (forall s :: 0 <= s < |c.servers| ==> ServerShape(c.servers[s], s, |c.servers|))
    && (forall k :: 0 <= k < |c.votes| ==>
      c.votes[k].from < |c.servers| && c.votes[k].to < |c.servers| && c.votes[k].from != c.votes[k].to)
    && (forall k :: 0 <= k < |c.appends| ==>
      && c.appends[k].from < |c.servers| && c.appends[k].to < |c.servers| && c.appends[k].from != c.appends[k].to
      && Continues(c.appends[k].args))
  }

  ghost predicate Enabled(c: Cluster, e: Event)
    requires Shape(c)
  {
    match e
    case Timeout(s) => s < |c.servers| && c.threads[s].loop == AtSwitch && c.servers[s].state == Follower
    case EnterElection(s) => s < |c.servers| && c.threads[s].loop == AtSwitch && c.servers[s].state == Candidate
    case BeginElection(s) => s < |c.servers| && c.threads[s].loop == BeforeElection
    case SendBallots(s, term, targets) =>
      && s < |c.servers| && term in c.threads[s].ballots
      && (forall i :: 0 <= i < |targets| ==> targets[i] < |c.servers| && targets[i] != s)
      && (forall i, j :: 0 <= i < j < |targets| ==> targets[i] != targets[j])
    case GiveUp(s) => s < |c.servers| && c.threads[s].loop == AwaitingVotes
    case HearHeartBeat(s) => s < |c.servers| && c.threads[s].loop == AwaitingVotes
    case BeElected(s) =>
      s < |c.servers| && c.threads[s].loop == AwaitingVotes && |c.servers[s].chanBeElected| > 0
    case EnterBroadcast(s) => s < |c.servers| && c.threads[s].loop == AtSwitch && c.servers[s].state == Leader
    case Broadcast(s) => s < |c.servers| && c.threads[s].loop == BeforeBroadcast
    case DeliverVote(k) => k < |c.votes| && c.votes[k].status == Sent
    case TakeVoteReply(k) =>
      && k < |c.votes| && c.votes[k].status.Answered?
      && c.votes[k].epoch == c.threads[c.votes[k].from].epoch
    case DeliverAppend(k) => k < |c.appends| && c.appends[k].status == Sent
    case TakeAppendReply(k) =>
      && k < |c.appends| && c.appends[k].status.Answered?
      && c.appends[k].epoch == c.threads[c.appends[k].from].epoch
    case ClientStart(s, _) => s < |c.servers|
    case TakeCommit(s) => s < |c.servers| && !c.threads[s].applying && c.servers[s].chanCommit > 0
    case ApplyAll(s) => s < |c.servers| && c.threads[s].applying
    case Restart(s) => s < |c.servers|
  }

  /** The vectors of a leader exist and every nextIndex points into the log or right behind it. */
  ghost predicate CanBroadcast(sv: Server) {
    && |sv.matchIndex| == sv.peers
    && |sv.nextIndex| == sv.peers
    && (sv.state == Leader ==>
      forall id :: 0 <= id < sv.peers && id != sv.me ==> 1 <= sv.nextIndex[id] <= |sv.logs|)
  }

  /** The leader has a record of the peer if the reply makes it write there. */
  predicate CanTakeAppendReply(sv: Server, m: AppendRpc)
    requires m.status.Answered?
  {
    UpdatesPeer(sv, m.args, m.status.reply) ==> m.to < |sv.nextIndex| && m.to < |sv.matchIndex|
  }

  /** The event makes the program index a slice out of range. */
  ghost predicate Faults(c: Cluster, e: Event)
    requires Shape(c) && Enabled(c, e)
  {
    match e
    case Broadcast(s) => !CanBroadcast(c.servers[s])
    case TakeAppendReply(k) => !CanTakeAppendReply(c.servers[c.appends[k].from], c.appends[k])
    case ApplyAll(s) => c.servers[s].commitIndex >= |c.servers[s].logs|
    case _ => false
  }

  /** The ids of the peers of `me`, in order. */
  function Others(n: nat, me: nat): seq<nat>
    requires me < n
  {
    seq(n - 1, i requires 0 <= i < n - 1 => if i < me then i else i + 1)
  }

  /** The position of v in the broadcast of s. */
  function Slot(s: nat, v: nat): nat
    requires s != v
  {
    if v < s then v else v - 1
  }

  function Ballots(s: nat, epoch: nat, args: RequestVoteArgs, targets: seq<nat>): seq<VoteRpc> {
    seq(|targets|, i requires 0 <= i < |targets| => Rpc(s, targets[i], epoch, args, Sent))
  }

  function HeartBeats(sv: Server, epoch: nat): seq<AppendRpc>
    requires sv.me < sv.peers == |sv.nextIndex|
    requires forall id :: 0 <= id < sv.peers && id != sv.me ==> 1 <= sv.nextIndex[id] <= |sv.logs|
  {
    var ids := Others(sv.peers, sv.me);
    seq(|ids|, i requires 0 <= i < |ids| => Rpc(sv.me, ids[i], epoch, AppendArgs(sv, ids[i]), Sent))
  }

  function SetServer(c: Cluster, s: nat, sv: Server): Cluster
    requires s < |c.servers|
  {
    c.(servers := c.servers[s := sv])
  }

  function SetLoop(c: Cluster, s: nat, loop: Loop): Cluster
    requires s < |c.threads|
  {
    c.(threads := c.threads[s := c.threads[s].(loop := loop)])
  }

  /* ---------- The steps ---------- */

  function DoBeginElection(c: Cluster, s: nat): Cluster
    requires s < |c.servers| == |c.threads|
  {
    var sv := NewElection(c.servers[s]);
    var th := c.threads[s];
    c.(servers := c.servers[s := sv],
       threads := c.threads[s := th.(loop := AwaitingVotes, ballots := th.ballots + {sv.currentTerm})])
  }

  function DoSendBallots(c: Cluster, s: nat, term: nat, targets: seq<nat>): Cluster
    requires s < |c.servers| == |c.threads| && |c.servers[s].logs| > 0
  {
    var th := c.threads[s];
    c.(threads := c.threads[s := th.(ballots := th.ballots - {term})],
       votes := c.votes + Ballots(s, th.epoch, VoteArgs(c.servers[s]), targets))
  }

  function DoBeElected(c: Cluster, s: nat): Cluster
    requires s < |c.servers| == |c.threads| && |c.servers[s].chanBeElected| > 0 && |c.servers[s].logs| > 0
  {
    SetLoop(SetServer(c, s, ComeToPower(c.servers[s])), s, AtSwitch)
  }

  ghost function DoBroadcast(c: Cluster, s: nat): Cluster
    requires Shape(c) && s < |c.servers| && CanBroadcast(c.servers[s])
  {
    var sv := AdvanceCommit(c.servers[s]);
    SetLoop(SetServer(c, s, sv), s, AtSwitch).(
      appends := c.appends + if sv.state == Leader then HeartBeats(sv, c.threads[s].epoch) else [])
  }

  function DoDeliverVote(c: Cluster, k: nat): Cluster
    requires k < |c.votes| && c.votes[k].to < |c.servers| && |c.servers[c.votes[k].to].logs| > 0
  {
    var m := c.votes[k];
    var (sv, reply) := RequestVote(c.servers[m.to], m.args);
    SetServer(c, m.to, sv).(votes := c.votes[k := m.(status := Answered(reply))])
  }

  function DoTakeVoteReply(c: Cluster, k: nat): Cluster
    requires k < |c.votes| && c.votes[k].from < |c.servers| && c.votes[k].status.Answered?
  {
    var m := c.votes[k];
    SetServer(c, m.from, DealVoteReply(c.servers[m.from], m.args, m.status.reply))
      .(votes := c.votes[k := m.(status := Closed)])
  }

  function DoDeliverAppend(c: Cluster, k: nat): Cluster
    requires k < |c.appends| && c.appends[k].to < |c.servers| && |c.servers[c.appends[k].to].logs| > 0
  {
    var m := c.appends[k];
    var (sv, reply) := AppendEntries(c.servers[m.to], m.args);
    SetServer(c, m.to, sv).(appends := c.appends[k := m.(status := Answered(reply))])
  }

  function DoTakeAppendReply(c: Cluster, k: nat): Cluster
    requires k < |c.appends| && c.appends[k].from < |c.servers| && c.appends[k].status.Answered?
    requires CanTakeAppendReply(c.servers[c.appends[k].from], c.appends[k])
  {
    var m := c.appends[k];
    SetServer(c, m.from, DealAppendReply(c.servers[m.from], m.to, m.args, m.status.reply))
      .(appends := c.appends[k := m.(status := Closed)])
  }

  function DoTakeCommit(c: Cluster, s: nat): Cluster
    requires s < |c.servers| == |c.threads| && c.servers[s].chanCommit > 0
  {
    c.(servers := c.servers[s := c.servers[s].(chanCommit := c.servers[s].chanCommit - 1)],
       threads := c.threads[s := c.threads[s].(applying := true)])
  }

  function DoApplyAll(c: Cluster, s: nat): Cluster
    requires s < |c.servers| == |c.threads| && c.servers[s].commitIndex < |c.servers[s].logs|
  {
    c.(servers := c.servers[s := Apply(c.servers[s])],
       threads := c.threads[s := c.threads[s].(applying := false)])
  }

  function DoRestart(c: Cluster, s: nat): Cluster
    requires s < |c.servers| == |c.threads|
  {
    c.(servers := c.servers[s := Make(s, |c.servers|, c.servers[s].disk)],
       threads := c.threads[s := Threads(AtSwitch, false, {}, c.threads[s].epoch + 1)])
  }

  ghost function Next(c: Cluster, e: Event): Cluster
    requires Shape(c) && Enabled(c, e) && !Faults(c, e)
  {
    match e
    case Timeout(s) => SetServer(c, s, c.servers[s].(state := Candidate))
    case EnterElection(s) => SetLoop(c, s, BeforeElection)
    case BeginElection(s) => DoBeginElection(c, s)
    case SendBallots(s, term, targets) => DoSendBallots(c, s, term, targets)
    case GiveUp(s) => SetLoop(c, s, AtSwitch)
    case HearHeartBeat(s) => SetLoop(SetServer(c, s, c.servers[s].(state := Follower)), s, AtSwitch)
    case BeElected(s) => DoBeElected(c, s)
    case EnterBroadcast(s) => SetLoop(c, s, BeforeBroadcast)
    case Broadcast(s) => DoBroadcast(c, s)
    case DeliverVote(k) => DoDeliverVote(c, k)
    case TakeVoteReply(k) => DoTakeVoteReply(c, k)
    case DeliverAppend(k) => DoDeliverAppend(c, k)
    case TakeAppendReply(k) => DoTakeAppendReply(c, k)
    case ClientStart(s, command) => SetServer(c, s, Start(c.servers[s], command))
    case TakeCommit(s) => DoTakeCommit(c, s)
    case ApplyAll(s) => DoApplyAll(c, s)
    case Restart(s) => DoRestart(c, s)
  }

  /* ---------- The scheduling assumptions the program leaves unchecked ---------- */

  /** A server takes power only with a token of the term it is in. */
  ghost predicate TokenIsCurrent(c: Cluster, e: Event)
    requires Shape(c) && Enabled(c, e)
  {
    e.BeElected? ==> c.servers[e.s].chanBeElected[0] == c.servers[e.s].currentTerm
  }

  /** The request for votes is read while the server is still in the term of that election. */
  ghost predicate BallotIsCurrent(c: Cluster, e: Event)
    requires Shape(c) && Enabled(c, e)
  {
    e.SendBallots? ==> e.term == c.servers[e.s].currentTerm
  }

  /** The commit count runs only while the server is leader. */
  ghost predicate BroadcastsAsLeader(c: Cluster, e: Event)
    requires Shape(c) && Enabled(c, e)
  {
    e.Broadcast? ==> c.servers[e.s].state == Leader
  }

  /** No AppendEntries request overtakes a later one of the same leader, follower and term. */
  ghost predicate InOrder(c: Cluster, e: Event)
    requires Shape(c) && Enabled(c, e)
  {
    e.DeliverAppend? ==>
      (forall j :: e.k < j < |c.appends| && SameStream(c.appends[e.k], c.appends[j]) ==> c.appends[j].status == Sent)
  }

  predicate SameStream(a: AppendRpc, b: AppendRpc) {
    a.from == b.from && a.to == b.to && a.args.term == b.args.term
  }

  ghost predicate Timely(c: Cluster, e: Event)
    requires Shape(c) && Enabled(c, e)
  {
    TokenIsCurrent(c, e) && BallotIsCurrent(c, e)
  }

  ghost predicate Orderly(c: Cluster, e: Event)
    requires Shape(c) && Enabled(c, e)
  {
    BroadcastsAsLeader(c, e) && InOrder(c, e)
  }

  /* ---------- Runs ---------- */

  ghost predicate Step(c: Cluster, e: Event, c': Cluster) {
    Shape(c) && Enabled(c, e) && !Faults(c, e) && c' == Next(c, e)
  }

  ghost predicate StepAt(states: seq<Cluster>, events: seq<Event>, i: nat)
    requires i < |events| == |states| - 1
  {
    Step(states[i], events[i], states[i + 1])
  }

  ghost predicate TimelyAt(states: seq<Cluster>, events: seq<Event>, i: nat)
    requires i < |events| == |states| - 1
  {
    StepAt(states, events, i) && Timely(states[i], events[i])
  }

  ghost predicate OrderlyAt(states: seq<Cluster>, events: seq<Event>, i: nat)
    requires i < |events| == |states| - 1
  {
    StepAt(states, events, i) && Orderly(states[i], events[i])
  }

  /** The states a cluster of n servers passes through under the given events. */
  ghost predicate Run(n: nat, states: seq<Cluster>, events: seq<Event>) {
    && |events| == |states| - 1
    && states[0] == Init(n)
    && forall i {:trigger StepAt(states, events, i)} :: 0 <= i < |events| ==> StepAt(states, events, i)
  }

  /** A run in which no token and no ballot outlives its term. */
  ghost predicate TimelyRun(n: nat, states: seq<Cluster>, events: seq<Event>) {
    && Run(n, states, events)
    && forall i {:trigger TimelyAt(states, events, i)} :: 0 <= i < |events| ==> TimelyAt(states, events, i)
  }

  /** A timely run in which only leaders broadcast and AppendEntries requests do not overtake each other. */
  ghost predicate OrderedRun(n: nat, states: seq<Cluster>, events: seq<Event>) {
    && TimelyRun(n, states, events)
    && forall i {:trigger OrderlyAt(states, events, i)} :: 0 <= i < |events| ==> OrderlyAt(states, events, i)
  }

  /* ---------- The shape is kept by every step, timely or not ---------- */

  lemma AppendEntriesShape(sv: Server, args: AppendEntriesArgs, s: nat, n: nat)
    requires ServerShape(sv, s, n) && Continues(args)
    ensures ServerShape(AppendEntries(sv, args).0, s, n)
  {
  }

  lemma MakeShape(sv: Server, s: nat, n: nat)
    requires ServerShape(sv, s, n)
    ensures ServerShape(Make(s, n, sv.disk), s, n)
  {
  }

  lemma HeartBeatsShape(sv: Server, epoch: nat, s: nat, n: nat)
    requires ServerShape(sv, s, n) && s < n == |sv.nextIndex|
    requires forall id :: 0 <= id < n && id != s ==> 1 <= sv.nextIndex[id] <= |sv.logs|
    ensures forall i :: 0 <= i < |HeartBeats(sv, epoch)| ==>
      var m := HeartBeats(sv, epoch)[i];
      m.from == s && m.to < n && m.from != m.to && Continues(m.args)
  {
  }

  /** The server an event acts on. */
  function Actor(c: Cluster, e: Event): nat {
    match e
    case DeliverVote(k) => if k < |c.votes| then c.votes[k].to else 0
    case TakeVoteReply(k) => if k < |c.votes| then c.votes[k].from else 0
    case DeliverAppend(k) => if k < |c.appends| then c.appends[k].to else 0
    case TakeAppendReply(k) => if k < |c.appends| then c.appends[k].from else 0
    case _ => e.s
  }

  /** The server an event acts on keeps its shape. */
  ghost predicate ActorShaped(c: Cluster, e: Event)
    requires Shape(c) && Enabled(c, e) && !Faults(c, e)
  {
    && Actor(c, e) < |c.servers| == |Next(c, e).servers|
    && ServerShape(Next(c, e).servers[Actor(c, e)], Actor(c, e), |c.servers|)
  }

  lemma CampaigningActorShape(c: Cluster, e: Event)
    requires Shape(c) && Enabled(c, e) && !Faults(c, e) && Campaigning(e)
    ensures ActorShaped(c, e)
  {
  }

  lemma VotingActorShape(c: Cluster, e: Event)
    requires Shape(c) && Enabled(c, e) && !Faults(c, e) && Voting(e)
    ensures ActorShaped(c, e)
  {
  }

  lemma LeadingActorShape(c: Cluster, e: Event)
    requires Shape(c) && Enabled(c, e) && !Faults(c, e) && Leading(e)
    ensures ActorShaped(c, e)
  {
  }

  lemma FollowingActorShape(c: Cluster, e: Event)
    requires Shape(c) && Enabled(c, e) && !Faults(c, e) && Following(e)
    ensures ActorShaped(c, e)
  {
    var s := Actor(c, e);
    match e
    case DeliverAppend(k) => AppendEntriesShape(c.servers[s], c.appends[k].args, s, |c.servers|);
    case Restart(_) => MakeShape(c.servers[s], s, |c.servers|);
  }

  lemma QuietActorShape(c: Cluster, e: Event)
    requires Shape(c) && Enabled(c, e) && !Faults(c, e) && Quiet(e)
    ensures ActorShaped(c, e)
  {
  }

  lemma ActorShape(c: Cluster, e: Event)
    requires Shape(c) && Enabled(c, e) && !Faults(c, e)
    ensures ActorShaped(c, e)
  {
    if Campaigning(e) {
      CampaigningActorShape(c, e);
    } else if Voting(e) {
      VotingActorShape(c, e);
    } else if Leading(e) {
      LeadingActorShape(c, e);
    } else if Following(e) {
      FollowingActorShape(c, e);
    } else {
      QuietActorShape(c, e);
    }
  }

  /** After a step the cluster keeps its shape, and only the actor and its goroutines have changed. */
  ghost predicate Reshaped(c: Cluster, e: Event, c': Cluster) {
    && Shape(c') && |c'.servers| == |c.servers| == |c'.threads| == |c.threads|
    && forall j :: 0 <= j < |c.servers| && j != Actor(c, e) ==> c'.servers[j] == c.servers[j] && c'.threads[j] == c.threads[j]
  }

  lemma CampaigningShapeKept(c: Cluster, e: Event)
    requires Shape(c) && Enabled(c, e) && !Faults(c, e) && Campaigning(e) && ActorShaped(c, e)
    ensures Reshaped(c, e, Next(c, e))
  {
  }

  lemma VotingShapeKept(c: Cluster, e: Event)
    requires Shape(c) && Enabled(c, e) && !Faults(c, e) && Voting(e) && ActorShaped(c, e)
    ensures Reshaped(c, e, Next(c, e))
  {
  }

  lemma BroadcastShapeKept(c: Cluster, s: nat)
    requires Shape(c) && Enabled(c, Broadcast(s)) && !Faults(c, Broadcast(s)) && ActorShaped(c, Broadcast(s))
    ensures Reshaped(c, Broadcast(s), DoBroadcast(c, s))
  {
    var sv := AdvanceCommit(c.servers[s]);
    if sv.state == Leader {
      HeartBeatsShape(sv, c.threads[s].epoch, s, |c.servers|);
    }
  }

  lemma LeadingShapeKept(c: Cluster, e: Event)
    requires Shape(c) && Enabled(c, e) && !Faults(c, e) && Leading(e) && ActorShaped(c, e)
    ensures Reshaped(c, e, Next(c, e))
  {
    match e
    case Broadcast(s) => BroadcastShapeKept(c, s);
    case _ =>
  }

  lemma FollowingShapeKept(c: Cluster, e: Event)
    requires Shape(c) && Enabled(c, e) && !Faults(c, e) && Following(e) && ActorShaped(c, e)
    ensures Reshaped(c, e, Next(c, e))
  {
  }

  lemma QuietShapeKept(c: Cluster, e: Event)
    requires Shape(c) && Enabled(c, e) && !Faults(c, e) && Quiet(e) && ActorShaped(c, e)
    ensures Reshaped(c, e, Next(c, e))
  {
  }

  lemma ShapeKept(c: Cluster, e: Event)
    requires Shape(c) && Enabled(c, e) && !Faults(c, e)
    ensures Reshaped(c, e, Next(c, e))
  {
    ActorShape(c, e);
    if Campaigning(e) {
      CampaigningShapeKept(c, e);
    } else if Voting(e) {
      VotingShapeKept(c, e);
    } else if Leading(e) {
      LeadingShapeKept(c, e);
    } else if Following(e) {
      FollowingShapeKept(c, e);
    } else {
      QuietShapeKept(c, e);
    }
  }
}
