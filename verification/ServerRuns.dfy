/** The server's queues and the protocol are one thing: every sequence of calls on `IpcHandle` is a run of the
    protocol of module Replica. */
module ServerRuns {
  import opened Wrappers
  import opened Tables
  import opened Replica
  import MainLoop
  import PollLoop

  /** What happens to the handle: a client comes, is greeted, goes, or takes a message; or the main loop has something to
      tell, and `dead` are the clients whose channel is closed by then. */
  datatype Call = ByClient(op: Op) | Tell(e: Event, dead: set<ClientId>)

  ghost predicate Callable(n: Net, c: Call) {
    match c
    case ByClient(op) => !op.Broadcast?
    case Tell(e, _) => (e.Poll? || e.SendSnapshot? || e.SendOther?) && Enabled(n, e)
  }

  /** The message that the main loop broadcasts, if any: an empty difference is not sent. */
  function MsgOf(n: Net, e: Event): Option<Msg> {
    match e
    case Poll(cur, d) => PollMsg(n.sentInitial, cur, d)
    case SendSnapshot => Some(Snapshot(Sorted(n.full)))
    case SendOther => Some(Other)
    case _ => None
  }

  /** The server after a call. */
  function ServerAfter(n: Net, s: Server, c: Call): Server {
    match c
    case ByClient(op) => Handled(s, op)
    case Tell(e, dead) => if MsgOf(n, e).Some? then Handled(s, Broadcast(MsgOf(n, e).value, dead)) else s
  }

  function QueuesOf(clients: map<ClientId, Client>): map<ClientId, seq<Msg>> {
    map id | id in clients :: clients[id].queue
  }

  /** The protocol has the server's queues, and no id will be given out twice. */
  ghost predicate Agree(n: Net, s: Server) {
    QueuesOf(n.clients) == s.clients && forall id | id in s.clients :: id < s.nextId
  }

  lemma {:induction false} RunJoin(n: Net, xs: seq<Event>, ys: seq<Event>)
    requires CanRun(n, xs) && CanRun(Run(n, xs), ys)
    ensures CanRun(n, xs + ys) && Run(n, xs + ys) == Run(Run(n, xs), ys)
    decreases xs
  {
    if xs == [] {
      assert xs + ys == ys;
    } else {
      RunJoin(Next(n, xs[0]), xs[1..], ys);
      assert (xs + ys)[0] == xs[0] && (xs + ys)[1..] == xs[1..] + ys;
    }
  }

  lemma RunOne(n: Net, e: Event)
    requires Enabled(n, e)
    ensures CanRun(n, [e]) && Run(n, [e]) == Next(n, e)
  {
    assert [e][1..] == [];
  }

  lemma {:induction false} DropAll(n: Net, dead: set<ClientId>) returns (es: seq<Event>)
    ensures CanRun(n, es) && Run(n, es) == n.(clients := n.clients - dead)
    decreases |dead|
  {
    if dead == {} {
      es := [];
      assert n.clients - dead == n.clients;
    } else {
      var id :| id in dead;
      var n1 := Next(n, Disconnect(id));
      var rest := DropAll(n1, dead - {id});
      RunOne(n, Disconnect(id));
      RunJoin(n, [Disconnect(id)], rest);
      assert n1.clients - (dead - {id}) == n.clients - dead;
      es := [Disconnect(id)] + rest;
    }
  }

  /** What a client's call is in the protocol. */
  function EventOf(s: Server, op: Op): Event
    requires !op.Broadcast?
  {
    match op
    case Register => Connect(s.nextId)
    case Greeting(id) => Greet(id)
    case Unregister(id) => Disconnect(id)
    case Take(id) => Read(id)
  }

  /** The protocol after a call.  Greeting a client that is gone, or taking from an empty queue, is nothing. */
  ghost function NetAfter(n: Net, s: Server, c: Call): Net
    requires Callable(n, c)
  {
    match c
    case ByClient(op) => if Enabled(n, EventOf(s, op)) then Next(n, EventOf(s, op)) else n
    case Tell(e, dead) =>
      var n' := Next(n, e);
      if MsgOf(n, e).Some? then n'.(clients := n'.clients - dead) else n'
  }

  lemma PutQueue(clients: map<ClientId, Client>, id: ClientId, c: Client)
    ensures QueuesOf(clients[id := c]) == QueuesOf(clients)[id := c.queue]
    ensures QueuesOf(clients - {id}) == QueuesOf(clients) - {id}
  {
  }

  lemma QueueOf(n: Net, s: Server, id: ClientId)
    requires Agree(n, s)
    ensures id in n.clients <==> id in s.clients
    ensures id in n.clients ==> s.clients[id] == n.clients[id].queue
  {
    assert n.clients.Keys == QueuesOf(n.clients).Keys;
  }

  lemma ClientQueues(n: Net, s: Server, op: Op)
    requires Agree(n, s) && !op.Broadcast?
    ensures Agree(NetAfter(n, s, ByClient(op)), Handled(s, op))
  {
    match op
    case Register =>
      QueueOf(n, s, s.nextId);
      PutQueue(n.clients, s.nextId, Client([], [], false, None));
    case Greeting(id) =>
      QueueOf(n, s, id);
      if id in n.clients {
        PutQueue(n.clients, id, Sent(n.clients[id], Hello));
      }
    case Unregister(id) => PutQueue(n.clients, id, Client([], [], false, None));
    case Take(id) =>
      QueueOf(n, s, id);
      if id in n.clients && n.clients[id].queue != [] {
        PutQueue(n.clients, id, ReadOne(n.clients[id]));
      }
  }

  lemma TellQueues(n: Net, s: Server, e: Event, dead: set<ClientId>)
    requires Agree(n, s) && Callable(n, Tell(e, dead))
    ensures var n' := Next(n, e);
      if MsgOf(n, e).Some? then Agree(n'.(clients := n'.clients - dead), Handled(s, Broadcast(MsgOf(n, e).value, dead)))
      else Agree(n', s)
  {
    var n' := Next(n, e);
    assert n.clients.Keys == QueuesOf(n.clients).Keys;
    if MsgOf(n, e).Some? {
      var m := MsgOf(n, e).value;
      assert n'.clients == Queued(n.clients, m);
      assert QueuesOf(n'.clients - dead) == Handled(s, Broadcast(m, dead)).clients;
    }
  }

  /** One call is a run of the protocol, and leaves the two in agreement. */
  lemma CallIsRun(n: Net, s: Server, c: Call) returns (es: seq<Event>)
    requires Agree(n, s) && Callable(n, c)
    ensures CanRun(n, es) && Run(n, es) == NetAfter(n, s, c)
    ensures Agree(NetAfter(n, s, c), ServerAfter(n, s, c))
  {
    match c
    case ByClient(op) =>
      ClientQueues(n, s, op);
      var e := EventOf(s, op);
      es := if Enabled(n, e) then [e] else [];
      if Enabled(n, e) {
        RunOne(n, e);
      }
    case Tell(e, dead) =>
      TellQueues(n, s, e, dead);
      RunOne(n, e);
      es := [e];
      if MsgOf(n, e).Some? {
        var drops := DropAll(Next(n, e), dead);
        RunJoin(n, [e], drops);
        es := [e] + drops;
      }
  }

  // ----- any sequence of calls -----

  ghost predicate CanServe(n: Net, s: Server, calls: seq<Call>)
    decreases calls
  {
    calls != [] ==> Callable(n, calls[0]) && CanServe(NetAfter(n, s, calls[0]), ServerAfter(n, s, calls[0]), calls[1..])
  }

  /** The server after a sequence of calls, and the protocol beside it. */
  ghost function Serve(n: Net, s: Server, calls: seq<Call>): (Net, Server)
    requires CanServe(n, s, calls)
    decreases calls
  {
    if calls == [] then (n, s) else Serve(NetAfter(n, s, calls[0]), ServerAfter(n, s, calls[0]), calls[1..])
  }

  lemma {:induction false} CallsAreRun(n: Net, s: Server, calls: seq<Call>) returns (es: seq<Event>)
    requires Agree(n, s) && CanServe(n, s, calls)
    ensures var (n', s') := Serve(n, s, calls); CanRun(n, es) && Run(n, es) == n' && Agree(n', s')
    decreases calls
  {
    if calls == [] {
      es := [];
    } else {
      var xs := CallIsRun(n, s, calls[0]);
      var ys := CallsAreRun(NetAfter(n, s, calls[0]), ServerAfter(n, s, calls[0]), calls[1..]);
      RunJoin(n, xs, ys);
      es := xs + ys;
    }
  }

  const NewServer := Server(map[], 1)

  lemma QueuedAgreement(es: seq<Event>, s: Server, id: ClientId)
    requires CanRun(Start, es) && Agree(Run(Start, es), s) && id in s.clients
    requires id in Run(Start, es).clients && Synced(Run(Start, es).clients[id])
    ensures var n := Run(Start, es); HasTable(Fold(n.clients[id].list, s.clients[id]), n)
  {
    QueueOf(Run(Start, es), s, id);
    ReplicaAgreement(es, id);
  }

  /** Every sequence of calls on a new server is a run of the protocol from its start, with the same queues; so for every
      client to which a snapshot has been queued, its list with what its queue in the server holds gives the daemon's
      table. */
  lemma ServerAgreement(calls: seq<Call>, id: ClientId) returns (es: seq<Event>)
    requires CanServe(Start, NewServer, calls)
    ensures var (n, s) := Serve(Start, NewServer, calls);
      && CanRun(Start, es) && Run(Start, es) == n && QueuesOf(n.clients) == s.clients
      && (id in s.clients && Synced(n.clients[id]) ==> HasTable(Fold(n.clients[id].list, s.clients[id]), n))
  {
    assert QueuesOf(Start.clients) == map[];
    es := CallsAreRun(Start, NewServer, calls);
    var (n, s) := Serve(Start, NewServer, calls);
    QueueOf(n, s, id);
    if id in s.clients && Synced(n.clients[id]) {
      QueuedAgreement(es, s, id);
    }
  }

  // ----- the main loop at the server -----

  /** What the main loop and the clients do to the server: a client's call, the answer to a message, a look at the config
      files, and a poll. */
  datatype Act =
    | ClientOp(op: Op)
    | Answer(dead: set<ClientId>)
    | Files(reloaded: bool, promoted: bool, gone: nat -> set<ClientId>)
    | EndPoll(asks: seq<PollLoop.Prompt>, cur: Table, diff: Diff, gone: nat -> set<ClientId>)

  /** The table, whether the first snapshot is out, and the server. */
  datatype Front = Front(full: Table, sentInitial: bool, server: Server)

  /** The effect of the loop's methods on them. */
  function Acted(f: Front, a: Act): Front {
    match a
    case ClientOp(op) => f.(server := Handled(f.server, op))
    case Answer(dead) => f.(server := MainLoop.Broadcast(f.server, MainLoop.Snapshot(f.full), dead))
    case Files(reloaded, promoted, gone) => f.(server := MainLoop.FilesTold(f.server, f.full, reloaded, promoted, gone))
    case EndPoll(asks, cur, diff, gone) => Front(cur, true, MainLoop.PollTold(f.server, asks, f.sentInitial, cur, diff, gone))
  }

  ghost predicate CanAct(f: Front, a: Act) {
    match a
    case ClientOp(op) => !op.Broadcast?
    case EndPoll(_, cur, diff, _) => Keyed(cur) && IsDiff(diff, f.full, cur)
    case _ => true
  }

  ghost predicate CanActAll(f: Front, acts: seq<Act>)
    decreases acts
  {
    |acts| > 0 ==> CanAct(f, acts[0]) && CanActAll(Acted(f, acts[0]), acts[1..])
  }

  function ActedAll(f: Front, acts: seq<Act>): Front
    decreases acts
  {
    if |acts| == 0 then f else ActedAll(Acted(f, acts[0]), acts[1..])
  }

  lemma {:induction false} ServeJoin(n: Net, s: Server, xs: seq<Call>, ys: seq<Call>)
    requires CanServe(n, s, xs) && CanServe(Serve(n, s, xs).0, Serve(n, s, xs).1, ys)
    ensures CanServe(n, s, xs + ys) && Serve(n, s, xs + ys) == Serve(Serve(n, s, xs).0, Serve(n, s, xs).1, ys)
    decreases xs
  {
    if xs == [] {
      assert xs + ys == ys;
    } else {
      ServeJoin(NetAfter(n, s, xs[0]), ServerAfter(n, s, xs[0]), xs[1..], ys);
      assert (xs + ys)[0] == xs[0] && (xs + ys)[1..] == xs[1..] + ys;
    }
  }

  /** The protocol's side of the same. */
  ghost predicate Beside(n: Net, f: Front) {
    n.full == f.full && n.sentInitial == f.sentInitial
  }

  /** Calls that lead from one front to another. */
  ghost predicate Leads(n: Net, f: Front, calls: seq<Call>, f': Front) {
    CanServe(n, f.server, calls) && var (n', s') := Serve(n, f.server, calls); Beside(n', f') && s' == f'.server
  }

  lemma ServeOne(n: Net, f: Front, c: Call, f': Front)
    requires Callable(n, c) && Beside(NetAfter(n, f.server, c), f') && ServerAfter(n, f.server, c) == f'.server
    ensures Leads(n, f, [c], f')
  {
    assert [c][1..] == [];
  }

  lemma Compose(n: Net, f: Front, xs: seq<Call>, f1: Front, ys: seq<Call>, f2: Front)
    requires Leads(n, f, xs, f1) && Leads(Serve(n, f.server, xs).0, f1, ys, f2)
    ensures Leads(n, f, xs + ys, f2)
  {
    ServeJoin(n, f.server, xs, ys);
  }

  lemma SnapshotServed(n: Net, f: Front, dead: set<ClientId>)
    requires Beside(n, f)
    ensures Leads(n, f, [Tell(SendSnapshot, dead)], f.(server := MainLoop.Broadcast(f.server, MainLoop.Snapshot(f.full), dead)))
  {
    ServeOne(n, f, Tell(SendSnapshot, dead), f.(server := MainLoop.Broadcast(f.server, MainLoop.Snapshot(f.full), dead)));
  }

  lemma FilesServed(n: Net, f: Front, a: Act) returns (calls: seq<Call>)
    requires Beside(n, f) && a.Files?
    ensures Leads(n, f, calls, Acted(f, a))
  {
    var f1 := Acted(f, a.(promoted := false));
    calls := [];
    if a.reloaded {
      SnapshotServed(n, f, a.gone(0));
      calls := [Tell(SendSnapshot, a.gone(0))];
    }
    if a.promoted {
      SnapshotServed(Serve(n, f.server, calls).0, f1, a.gone(1));
      Compose(n, f, calls, f1, [Tell(SendSnapshot, a.gone(1))], Acted(f, a));
      calls := calls + [Tell(SendSnapshot, a.gone(1))];
    }
  }

  lemma {:induction false} PromptsServed(n: Net, f: Front, asks: seq<PollLoop.Prompt>, gone: nat -> set<ClientId>)
    returns (calls: seq<Call>)
    requires Beside(n, f)
    ensures Leads(n, f, calls, f.(server := MainLoop.PromptsTold(f.server, asks, gone)))
    decreases asks
  {
    calls := [];
    if asks != [] {
      var front := asks[..|asks| - 1];
      var f1 := f.(server := MainLoop.PromptsTold(f.server, front, gone));
      var f2 := f.(server := MainLoop.PromptsTold(f.server, asks, gone));
      var xs := PromptsServed(n, f, front, gone);
      var c := Tell(SendOther, gone(|asks| - 1));
      ServeOne(Serve(n, f.server, xs).0, f1, c, f2);
      Compose(n, f, xs, f1, [c], f2);
      calls := xs + [c];
    }
  }

  lemma PollServed(n: Net, f: Front, a: Act) returns (calls: seq<Call>)
    requires Beside(n, f) && a.EndPoll? && CanAct(f, a)
    ensures Leads(n, f, calls, Acted(f, a))
  {
    var xs := PromptsServed(n, f, a.asks, a.gone);
    var f1 := f.(server := MainLoop.PromptsTold(f.server, a.asks, a.gone));
    var c := Tell(Poll(a.cur, a.diff), a.gone(|a.asks|));
    ServeOne(Serve(n, f.server, xs).0, f1, c, Acted(f, a));
    Compose(n, f, xs, f1, [c], Acted(f, a));
    calls := xs + [c];
  }

  /** Whatever the loop does to the server is a sequence of calls of the protocol. */
  lemma ActIsServed(n: Net, f: Front, a: Act) returns (calls: seq<Call>)
    requires Beside(n, f) && CanAct(f, a)
    ensures Leads(n, f, calls, Acted(f, a))
  {
    match a
    case ClientOp(op) =>
      ServeOne(n, f, ByClient(op), Acted(f, a));
      calls := [ByClient(op)];
    case Answer(dead) =>
      SnapshotServed(n, f, dead);
      calls := [Tell(SendSnapshot, dead)];
    case Files(_, _, _) => calls := FilesServed(n, f, a);
    case EndPoll(_, _, _, _) => calls := PollServed(n, f, a);
  }

  lemma {:induction false} ActsAreServed(n: Net, f: Front, acts: seq<Act>) returns (calls: seq<Call>)
    requires Beside(n, f) && CanActAll(f, acts)
    ensures Leads(n, f, calls, ActedAll(f, acts))
    decreases acts
  {
    calls := [];
    if |acts| > 0 {
      var f1 := Acted(f, acts[0]);
      var xs := ActIsServed(n, f, acts[0]);
      var ys := ActsAreServed(Serve(n, f.server, xs).0, f1, acts[1..]);
      Compose(n, f, xs, f1, ys, ActedAll(f, acts));
      calls := xs + ys;
    }
  }

  const NewFront := Front(map[], false, NewServer)

  /** Replica agreement for the main loop: whatever polls, reloads, promotions and client messages it goes through, and
      whatever clients do meanwhile, the queues in its server are those of a run of the protocol over its own table; so the
      list of every client to which a snapshot has been queued, with what is queued for it, gives the loop's table. */
  lemma LoopAgreement(acts: seq<Act>, id: ClientId) returns (es: seq<Event>)
    requires CanActAll(NewFront, acts)
    ensures var f := ActedAll(NewFront, acts);
      && CanRun(Start, es) && Run(Start, es).full == f.full && QueuesOf(Run(Start, es).clients) == f.server.clients
      && (id in f.server.clients && Synced(Run(Start, es).clients[id]) ==>
            HasTable(Fold(Run(Start, es).clients[id].list, f.server.clients[id]), Run(Start, es)))
  {
    var calls := ActsAreServed(Start, NewFront, acts);
    es := ServerAgreement(calls, id);
  }
}
