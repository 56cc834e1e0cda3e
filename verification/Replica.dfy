/** The snapshot and diff protocol between the daemon and its clients, over every run. */
module Replica {
  import opened Wrappers
  import opened Config
  import opened Ascend
  import opened Tables

  type ClientId = nat

  /** What travels to a client: the greeting, snapshots, differences, and prompts and warnings, which do not touch the
      process table. */
  datatype Msg = Hello | Snapshot(infos: seq<Info>) | Changes(d: Diff) | Other

  // ----- the server's client map -----

  /** One queue per client, and the next id to give out. */
  datatype Server = Server(clients: map<ClientId, seq<Msg>>, nextId: ClientId)

  datatype Op =
    | Register
    | Greeting(id: ClientId)
    | Unregister(id: ClientId)
    | Take(id: ClientId)
    | Broadcast(msg: Msg, dead: set<ClientId>)

  /** A broadcast reaches every client; those whose channel is closed (`dead`) are dropped. */
  function Handled(s: Server, op: Op): Server {
    match op
    case Register => Server(s.clients[s.nextId := []], s.nextId + 1)
    case Greeting(id) => if id in s.clients then s.(clients := s.clients[id := s.clients[id] + [Hello]]) else s
    case Unregister(id) => s.(clients := s.clients - {id})
    case Take(id) =>
      if id in s.clients && s.clients[id] != [] then s.(clients := s.clients[id := s.clients[id][1..]]) else s
    case Broadcast(msg, dead) =>
      s.(clients := map id | id in s.clients && id !in dead :: s.clients[id] + [msg])
  }

  /** `IpcHandle`: one FIFO queue per client. */
  class IpcHandle {
    var clients: map<ClientId, seq<Msg>>
    var nextId: ClientId

    function View(): Server
      reads this
    {
      Server(clients, nextId)
    }

    constructor ()
      ensures View() == Server(map[], 1)
    {
      clients := map[];
      nextId := 1;
    }

    method Register() returns (id: ClientId)
      modifies this
      ensures id == old(nextId) && View() == Handled(old(View()), Op.Register)
    {
      id := nextId;
      nextId := nextId + 1;
      clients := clients[id := []];
    }

    /** The greeting goes straight into the new client's queue, some time after it was registered. */
    method Greet(id: ClientId)
      modifies this`clients
      ensures View() == Handled(old(View()), Greeting(id))
    {
      if id in clients {
        clients := clients[id := clients[id] + [Hello]];
      }
    }

    method Unregister(id: ClientId)
      modifies this`clients
      ensures View() == Handled(old(View()), Op.Unregister(id))
    {
      clients := clients - {id};
    }

    /** The writer of a client fetches its next message, if there is one. */
    method Take(id: ClientId) returns (msg: Option<Msg>)
      modifies this`clients
      ensures View() == Handled(old(View()), Op.Take(id))
      ensures msg == if id in old(clients) && old(clients)[id] != [] then Some(old(clients)[id][0]) else None
    {
      msg := None;
      if id in clients && clients[id] != [] {
        msg := Some(clients[id][0]);
        clients := clients[id := clients[id][1..]];
      }
    }

    /** Queue the message for every client; those whose channel is closed are dropped afterwards. */
    method Broadcast(msg: Msg, dead: set<ClientId>)
      modifies this`clients
      ensures View() == Handled(old(View()), Op.Broadcast(msg, dead))
    {
      var queues, todo := clients, clients.Keys;
      var gone: set<ClientId> := {};
      while todo != {}
        invariant todo <= queues.Keys == old(clients).Keys && gone <= dead
        invariant forall id | id in queues && id !in todo :: id in gone <==> id in dead
        invariant forall id | id in queues && id !in todo && id !in gone :: queues[id] == old(clients)[id] + [msg]
        invariant forall id | id in queues && id in todo :: queues[id] == old(clients)[id]
        decreases |todo|
      {
        var id :| id in todo;
        todo := todo - {id};
        if id in dead {
          gone := gone + {id};
        } else {
          queues := queues[id := queues[id] + [msg]];
        }
      }
      clients := queues - gone;
    }
  }

  // ----- the protocol -----

  /** A client: its unread messages, its list, whether it has already read a snapshot, and, as a ghost, the first message
      it was ever sent. */
  datatype Client = Client(queue: seq<Msg>, list: seq<Info>, read: bool, first: Option<Msg>)

  /** The daemon's table and its clients.  `age` is a ghost: for each pid, how many polls ago it was last shipped. */
  datatype Net = Net(full: Table, sentInitial: bool, clients: map<ClientId, Client>, age: map<Pid, nat>)

  datatype Event =
    | Poll(cur: Table, d: Diff)
    | SendSnapshot
    | SendOther
    | Connect(id: ClientId)
    | Greet(id: ClientId)
    | Disconnect(id: ClientId)
    | Read(id: ClientId)

  ghost predicate Enabled(n: Net, e: Event) {
    match e
    case Poll(cur, d) => Keyed(cur) && IsDiff(d, n.full, cur)
    case Connect(id) => id !in n.clients
    case Greet(id) => id in n.clients
    case Read(id) => id in n.clients && n.clients[id].queue != []
    case _ => true
  }

  function Receive(list: seq<Info>, msg: Msg): seq<Info> {
    match msg
    case Snapshot(infos) => infos
    case Changes(d) => Sorted(ApplyDiff(Index(list), d))
    case Hello | Other => list
  }

  function ReadOne(c: Client): Client
    requires c.queue != []
  {
    Client(c.queue[1..], Receive(c.list, c.queue[0]), c.read || c.queue[0].Snapshot?, c.first)
  }

  function Sent(c: Client, msg: Msg): Client {
    c.(queue := c.queue + [msg], first := if c.first.None? then Some(msg) else c.first)
  }

  function Queued(clients: map<ClientId, Client>, msg: Msg): map<ClientId, Client> {
    map id | id in clients :: Sent(clients[id], msg)
  }

  function Zero(t: Table): map<Pid, nat> { map p | p in t :: 0 }

  /** Polls since last shipped, after a poll that sent the difference: what is new or changed was shipped just now. */
  function Aged(age: map<Pid, nat>, prev: Table, cur: Table): map<Pid, nat> {
    map p | p in cur :: if p in prev && p in age && !ProcessChanged(prev[p], cur[p]) then age[p] + 1 else 0
  }

  /** What a poll sends: a snapshot the first time, afterwards the difference, if it is not empty. */
  function PollMsg(sentInitial: bool, cur: Table, d: Diff): Option<Msg> {
    if !sentInitial then Some(Snapshot(Sorted(cur))) else if d.IsEmpty() then None else Some(Changes(d))
  }

  function Next(n: Net, e: Event): Net
    requires Enabled(n, e)
  {
    match e
    case Poll(cur, d) =>
      if !n.sentInitial then Net(cur, true, Queued(n.clients, Snapshot(Sorted(cur))), Zero(cur))
      else Net(cur, true, if d.IsEmpty() then n.clients else Queued(n.clients, Changes(d)), Aged(n.age, n.full, cur))
    case SendSnapshot => n.(clients := Queued(n.clients, Snapshot(Sorted(n.full))), age := Zero(n.full))
    case SendOther => n.(clients := Queued(n.clients, Other))
    case Connect(id) => n.(clients := n.clients[id := Client([], [], false, None)])
    case Greet(id) => n.(clients := n.clients[id := Sent(n.clients[id], Hello)])
    case Disconnect(id) => n.(clients := n.clients - {id})
    case Read(id) => n.(clients := n.clients[id := ReadOne(n.clients[id])])
  }

  ghost predicate CanRun(n: Net, es: seq<Event>)
    decreases es
  {
    es != [] ==> Enabled(n, es[0]) && CanRun(Next(n, es[0]), es[1..])
  }

  ghost function Run(n: Net, es: seq<Event>): Net
    requires CanRun(n, es)
    decreases es
  {
    if es == [] then n else Run(Next(n, es[0]), es[1..])
  }

  const Start := Net(map[], false, map[], map[])

  // ----- agreement -----

  /** The client's list once everything unread has been read. */
  function Fold(list: seq<Info>, queue: seq<Msg>): seq<Info>
    decreases queue
  {
    if queue == [] then list else Fold(Receive(list, queue[0]), queue[1..])
  }

  /** A snapshot has been queued for the client at some time. */
  predicate Synced(c: Client) {
    c.read || exists i :: 0 <= i < |c.queue| && c.queue[i].Snapshot?
  }

  /** Equal in what is compared exactly, and CPU% off by no more than `polls` steps. */
  predicate Near(a: Info, b: Info, polls: nat) {
    SameButCpu(a, b) && Abs(a.cpu - b.cpu) <= CPU_STEP * polls as real
  }

  /** A copy with exactly the daemon's pids, each entry as near as its age allows. */
  ghost predicate Close(t: Table, full: Table, age: map<Pid, nat>) {
    Keyed(t) && t.Keys == full.Keys == age.Keys && forall p | p in full :: Near(t[p], full[p], age[p])
  }

  /** A client's list that agrees with the daemon's table. */
  ghost predicate Agrees(list: seq<Info>, full: Table, age: map<Pid, nat>) {
    SortedByPid(list) && list == Sorted(Index(list)) && Close(Index(list), full, age)
  }

  ghost predicate Inv(n: Net) {
    && Keyed(n.full) && (!n.sentInitial ==> n.full == map[]) && n.age.Keys == n.full.Keys
    && forall id | id in n.clients && Synced(n.clients[id]) ::
         Agrees(Fold(n.clients[id].list, n.clients[id].queue), n.full, n.age)
  }

  lemma {:induction false} FoldAppend(list: seq<Info>, queue: seq<Msg>, msg: Msg)
    ensures Fold(list, queue + [msg]) == Receive(Fold(list, queue), msg)
    decreases queue
  {
    if queue == [] {
      assert queue + [msg] == [msg];
      assert [msg][1..] == [];
    } else {
      assert (queue + [msg])[0] == queue[0] && (queue + [msg])[1..] == queue[1..] + [msg];
      FoldAppend(Receive(list, queue[0]), queue[1..], msg);
    }
  }

  lemma CloseToItself(t: Table)
    requires Keyed(t)
    ensures Close(t, t, Zero(t))
  {
  }

  lemma SnapshotAgrees(t: Table)
    requires Keyed(t)
    ensures Agrees(Sorted(t), t, Zero(t))
  {
    SortedMeaning(t);
    CloseToItself(t);
  }

  lemma NearStep(a: Info, b: Info, c: Info, polls: nat)
    requires Near(a, b, polls) && !ProcessChanged(b, c)
    ensures Near(a, c, polls + 1)
  {
    assert Abs(a.cpu - c.cpu) <= Abs(a.cpu - b.cpu) + Abs(b.cpu - c.cpu);
  }

  lemma CloseStep(t: Table, d: Diff, prev: Table, cur: Table, age: map<Pid, nat>)
    requires Close(t, prev, age) && IsDiff(d, prev, cur) && Keyed(cur)
    ensures Close(ApplyDiff(t, d), cur, Aged(age, prev, cur))
  {
    DiffMeaning(t, d, prev, cur);
    forall p | p in cur
      ensures Near(ApplyDiff(t, d)[p], cur[p], Aged(age, prev, cur)[p])
    {
      if p in prev && !ProcessChanged(prev[p], cur[p]) {
        NearStep(t[p], prev[p], cur[p], age[p]);
      }
    }
  }

  lemma ReceiveDiffAgrees(list: seq<Info>, d: Diff, prev: Table, cur: Table, age: map<Pid, nat>)
    requires Agrees(list, prev, age) && IsDiff(d, prev, cur) && Keyed(cur)
    ensures Agrees(Receive(list, Changes(d)), cur, Aged(age, prev, cur))
  {
    CloseStep(Index(list), d, prev, cur, age);
    SortedMeaning(ApplyDiff(Index(list), d));
  }

  lemma EmptyDiffIsIdentity(t: Table, d: Diff)
    requires d.IsEmpty()
    ensures ApplyDiff(t, d) == t
  {
    assert t - (set p | p in d.removed) == t;
  }

  lemma EmptyDiffAgrees(list: seq<Info>, d: Diff, prev: Table, cur: Table, age: map<Pid, nat>)
    requires Agrees(list, prev, age) && IsDiff(d, prev, cur) && Keyed(cur) && d.IsEmpty()
    ensures Agrees(list, cur, Aged(age, prev, cur))
  {
    var t := Index(list);
    assert Close(ApplyDiff(t, d), cur, Aged(age, prev, cur)) by { CloseStep(t, d, prev, cur, age); }
    assert ApplyDiff(t, d) == t by { EmptyDiffIsIdentity(t, d); }
  }

  // ----- every event keeps it -----

  lemma QueuedSynced(c: Client, msg: Msg)
    ensures Synced(Sent(c, msg)) <==> Synced(c) || msg.Snapshot?
  {
    var q := c.queue + [msg];
    assert q[|c.queue|] == msg;
    if i :| 0 <= i < |c.queue| && c.queue[i].Snapshot? {
      assert q[i].Snapshot?;
    }
    if i :| 0 <= i < |q| && q[i].Snapshot? {
      assert i == |c.queue| || c.queue[i].Snapshot?;
    }
  }

  lemma PollKeepsInv(n: Net, cur: Table, d: Diff)
    requires Inv(n) && Enabled(n, Poll(cur, d))
    ensures Inv(Next(n, Poll(cur, d)))
  {
    var n' := Next(n, Poll(cur, d));
    forall id | id in n'.clients && Synced(n'.clients[id])
      ensures Agrees(Fold(n'.clients[id].list, n'.clients[id].queue), n'.full, n'.age)
    {
      var c := n.clients[id];
      var view := Fold(c.list, c.queue);
      if !n.sentInitial {
        FoldAppend(c.list, c.queue, Snapshot(Sorted(cur)));
        SnapshotAgrees(cur);
      } else if d.IsEmpty() {
        EmptyDiffAgrees(view, d, n.full, cur, n.age);
      } else {
        FoldAppend(c.list, c.queue, Changes(d));
        QueuedSynced(c, Changes(d));
        ReceiveDiffAgrees(view, d, n.full, cur, n.age);
      }
    }
  }

  lemma SendKeepsInv(n: Net, e: Event)
    requires Inv(n) && (e.SendSnapshot? || e.SendOther?)
    ensures Inv(Next(n, e))
  {
    var n' := Next(n, e);
    forall id | id in n'.clients && Synced(n'.clients[id])
      ensures Agrees(Fold(n'.clients[id].list, n'.clients[id].queue), n'.full, n'.age)
    {
      var c := n.clients[id];
      if e.SendSnapshot? {
        FoldAppend(c.list, c.queue, Snapshot(Sorted(n.full)));
        SnapshotAgrees(n.full);
      } else {
        FoldAppend(c.list, c.queue, Other);
        QueuedSynced(c, Other);
      }
    }
  }

  lemma ReadFolds(c: Client)
    requires c.queue != []
    ensures Fold(ReadOne(c).list, ReadOne(c).queue) == Fold(c.list, c.queue)
    ensures Synced(ReadOne(c)) ==> Synced(c)
  {
    var c' := ReadOne(c);
    if c.queue[0].Snapshot? {
      assert Synced(c);
    } else if !c'.read && Synced(c') {
      var i :| 0 <= i < |c'.queue| && c'.queue[i].Snapshot?;
      assert c.queue[i + 1].Snapshot?;
    }
  }

  lemma ReadKeepsInv(n: Net, id: ClientId)
    requires Inv(n) && Enabled(n, Read(id))
    ensures Inv(Next(n, Read(id)))
  {
    ReadFolds(n.clients[id]);
    var n' := Next(n, Read(id));
    forall k | k in n'.clients && Synced(n'.clients[k])
      ensures Agrees(Fold(n'.clients[k].list, n'.clients[k].queue), n'.full, n'.age)
    {
      assert Synced(n.clients[k]);
      assert Fold(n'.clients[k].list, n'.clients[k].queue) == Fold(n.clients[k].list, n.clients[k].queue);
    }
  }

  lemma GreetKeepsInv(n: Net, id: ClientId)
    requires Inv(n) && Enabled(n, Greet(id))
    ensures Inv(Next(n, Greet(id)))
  {
    var n' := Next(n, Greet(id));
    var c := n.clients[id];
    FoldAppend(c.list, c.queue, Hello);
    QueuedSynced(c, Hello);
    forall k | k in n'.clients && Synced(n'.clients[k])
      ensures Agrees(Fold(n'.clients[k].list, n'.clients[k].queue), n'.full, n'.age)
    {
      assert Synced(n.clients[k]);
    }
  }

  lemma {:induction false} RunKeepsInv(n: Net, es: seq<Event>)
    requires Inv(n) && CanRun(n, es)
    ensures Inv(Run(n, es))
    decreases es
  {
    if es != [] {
      match es[0] {
        case Poll(cur, d) => PollKeepsInv(n, cur, d);
        case SendSnapshot => SendKeepsInv(n, es[0]);
        case SendOther => SendKeepsInv(n, es[0]);
        case Read(id) => ReadKeepsInv(n, id);
        case Greet(id) => GreetKeepsInv(n, id);
        case Connect(_) =>
        case Disconnect(_) =>
      }
      RunKeepsInv(Next(n, es[0]), es[1..]);
    }
  }

  /** The list is sorted by pid without duplicates and has exactly the daemon's pids, every compared field exact, and CPU%
      off by at most a step for each poll since that pid was last shipped. */
  ghost predicate HasTable(list: seq<Info>, n: Net) {
    var t := Index(list);
    && SortedByPid(list) && list == Sorted(t) && t.Keys == n.full.Keys == n.age.Keys
    && forall p | p in n.full :: SameButCpu(t[p], n.full[p]) && Abs(t[p].cpu - n.full[p].cpu) <= CPU_STEP * n.age[p] as real
  }

  /** Replica agreement: over every run, for every client to which a snapshot has been queued, reading everything
      unread gives the daemon's table: a list sorted by pid without duplicates, with exactly the daemon's pids, every
      compared field exact, and CPU% off by at most 0.05 for each poll since that pid was last shipped. */
  lemma ReplicaAgreement(es: seq<Event>, id: ClientId)
    requires CanRun(Start, es) && id in Run(Start, es).clients && Synced(Run(Start, es).clients[id])
    ensures var n := Run(Start, es); HasTable(Fold(n.clients[id].list, n.clients[id].queue), n)
  {
    RunKeepsInv(Start, es);
  }

  // ----- the CPU% bound is reached -----

  function Sample(cpu: real): Info {
    Info(7, 1, "x", "u", cpu, 0, "running", 0, NoClass, 0, None, false, false, None, 0)
  }

  /** After a snapshot and `k` polls in each of which CPU% rose by one step. */
  function Drifted(k: nat): Net {
    Net(map[7 := Sample(CPU_STEP * k as real)], true, map[1 := Client([], [Sample(0.0)], true, Some(Snapshot([Sample(0.0)])))], map[7 := k])
  }

  lemma {:induction false} RunAppend(n: Net, es: seq<Event>, e: Event)
    requires CanRun(n, es) && Enabled(Run(n, es), e)
    ensures CanRun(n, es + [e]) && Run(n, es + [e]) == Next(Run(n, es), e)
    decreases es
  {
    if es == [] {
      assert es + [e] == [e];
      assert [e][1..] == [];
    } else {
      assert (es + [e])[0] == es[0] && (es + [e])[1..] == es[1..] + [e];
      RunAppend(Next(n, es[0]), es[1..], e);
    }
  }

  lemma DriftOnce(k: nat)
    ensures Enabled(Drifted(k), Poll(Drifted(k + 1).full, Diff([], [], [])))
    ensures Next(Drifted(k), Poll(Drifted(k + 1).full, Diff([], [], []))) == Drifted(k + 1)
  {
    var prev, cur := Drifted(k).full, Drifted(k + 1).full;
    assert cur[7].cpu - prev[7].cpu == CPU_STEP;
    assert !ProcessChanged(prev[7], cur[7]);
  }

  lemma SortedOne(i: Info)
    ensures Sorted(map[i.pid := i]) == [i]
  {
    var t: Table := map[i.pid := i];
    var pids := [i.pid];
    assert Ascending({i.pid}) == pids by { assert Least({i.pid}) == i.pid && {i.pid} - {i.pid} == {}; }
    assert pids[1..] == [];
    assert Listed(t, pids) == [t[i.pid]];
    assert t.Keys == {i.pid};
  }

  function Fed(): Net {
    Net(map[7 := Sample(0.0)], true, map[1 := Client([Snapshot([Sample(0.0)])], [], false, Some(Snapshot([Sample(0.0)])))], map[7 := 0])
  }

  const FirstPoll := Poll(map[7 := Sample(0.0)], Diff([Sample(0.0)], [], []))

  lemma FirstPollFeeds()
    ensures Enabled(Next(Start, Connect(1)), FirstPoll)
    ensures Next(Next(Start, Connect(1)), FirstPoll) == Fed()
  {
    var n := Next(Start, Connect(1));
    SortedOne(Sample(0.0));
    assert n.clients == map[1 := Client([], [], false, None)];
    var m := Snapshot([Sample(0.0)]);
    assert [] + [m] == [m];
    assert Queued(n.clients, m)[1] == Client([m], [], false, Some(m));
    assert Queued(n.clients, m) == Fed().clients;
    assert Zero(FirstPoll.cur) == map[7 := 0];
  }

  lemma ReadFed()
    ensures Enabled(Fed(), Read(1)) && Next(Fed(), Read(1)) == Drifted(0)
  {
    assert ReadOne(Fed().clients[1]) == Client([], [Sample(0.0)], true, Some(Snapshot([Sample(0.0)])));
    assert CPU_STEP * 0 as real == 0.0;
  }

  lemma FirstSnapshot() returns (es: seq<Event>)
    ensures CanRun(Start, es) && Run(Start, es) == Drifted(0)
  {
    FirstPollFeeds();
    ReadFed();
    RunAppend(Start, [], Connect(1));
    es := [] + [Connect(1)];
    RunAppend(Start, es, FirstPoll);
    es := es + [FirstPoll];
    RunAppend(Start, es, Read(1));
    es := es + [Read(1)];
  }

  /** The bound cannot be lowered: for every number of polls some run ends with the copy's CPU% off by exactly that
      many steps, nothing unread. */
  lemma {:induction false} DriftIsReached(k: nat) returns (es: seq<Event>)
    ensures CanRun(Start, es)
    ensures var n := Run(Start, es);
      && n.age == map[7 := k] && 1 in n.clients && n.clients[1].queue == [] && 7 in n.full
      && Index(n.clients[1].list).Keys == {7}
      && Abs(Index(n.clients[1].list)[7].cpu - n.full[7].cpu) == CPU_STEP * k as real
  {
    es := Drift(k);
    assert Index([Sample(0.0)]) == map[7 := Sample(0.0)];
  }

  lemma Extend(front: seq<Event>, n: Net, e: Event, n': Net) returns (es: seq<Event>)
    requires CanRun(Start, front) && Run(Start, front) == n && Enabled(n, e) && Next(n, e) == n'
    ensures CanRun(Start, es) && Run(Start, es) == n'
  {
    RunAppend(Start, front, e);
    es := front + [e];
  }

  lemma {:induction false} Drift(k: nat) returns (es: seq<Event>)
    ensures CanRun(Start, es) && Run(Start, es) == Drifted(k)
  {
    if k == 0 {
      es := FirstSnapshot();
    } else {
      var front := Drift(k - 1);
      DriftOnce(k - 1);
      es := Extend(front, Drifted(k - 1), Poll(Drifted(k).full, Diff([], [], [])), Drifted(k));
    }
  }

  // ----- the first frame -----

  /** The event puts a message into every queue. */
  predicate Broadcasts(n: Net, e: Event) {
    e.SendSnapshot? || e.SendOther? || (e.Poll? && (!n.sentInitial || !e.d.IsEmpty()))
  }

  ghost predicate SomeBroadcast(n: Net, es: seq<Event>)
    requires CanRun(n, es)
    decreases es
  {
    es != [] && (Broadcasts(n, es[0]) || SomeBroadcast(Next(n, es[0]), es[1..]))
  }

  /** Events that do not concern the client's connection. */
  predicate LeaveAlone(es: seq<Event>, id: ClientId) {
    forall e | e in es :: e != Connect(id) && e != Disconnect(id) && e != Greet(id)
  }

  lemma WaitsOn(n: Net, e: Event, id: ClientId)
    requires Enabled(n, e) && e != Connect(id) && e != Disconnect(id) && e != Greet(id) && id in n.clients
    ensures var n' := Next(n, e);
      && id in n'.clients && (n'.clients[id].first == Some(Hello) ==> n.clients[id].first == Some(Hello))
      && (n'.clients[id].first.None? <==> n.clients[id].first.None? && !Broadcasts(n, e))
  {
  }

  lemma {:induction false} StillWaiting(n: Net, es: seq<Event>, id: ClientId)
    requires CanRun(n, es) && LeaveAlone(es, id) && id in n.clients
    requires n.clients[id].first.Some? ==> n.clients[id].first != Some(Hello)
    ensures var r := Run(n, es);
      && id in r.clients && r.clients[id].first != Some(Hello)
      && (r.clients[id].first.None? <==> n.clients[id].first.None? && !SomeBroadcast(n, es))
    decreases es
  {
    if es != [] {
      assert es[0] in es && forall e | e in es[1..] :: e in es;
      WaitsOn(n, es[0], id);
      StillWaiting(Next(n, es[0]), es[1..], id);
    }
  }

  /** Registering a client and greeting it are two steps, and anything may happen between them: the first message the
      client ever gets is the greeting exactly if nothing is broadcast in the meantime. */
  lemma GreetingFirstIff(n: Net, id: ClientId, between: seq<Event>)
    requires id !in n.clients && LeaveAlone(between, id) && CanRun(Next(n, Connect(id)), between)
    ensures var n1 := Next(n, Connect(id)); var r := Run(n1, between);
      && Enabled(r, Greet(id))
      && (Next(r, Greet(id)).clients[id].first == Some(Hello) <==> !SomeBroadcast(n1, between))
  {
    StillWaiting(Next(n, Connect(id)), between, id);
  }

  /** A warning that goes out in between comes first. */
  lemma WarningBeforeGreeting()
    ensures var es := [Connect(1), SendOther, Greet(1)];
      CanRun(Start, es) && 1 in Run(Start, es).clients && Run(Start, es).clients[1].queue == [Other, Hello]
  {
    var n1 := Next(Start, Connect(1));
    var n2 := Next(n1, SendOther);
    RunAppend(Start, [], Connect(1));
    RunAppend(Start, [] + [Connect(1)], SendOther);
    RunAppend(Start, [] + [Connect(1)] + [SendOther], Greet(1));
    assert [] + [Connect(1)] + [SendOther] + [Greet(1)] == [Connect(1), SendOther, Greet(1)];
    assert n2.clients[1].queue == [Other];
  }
}
