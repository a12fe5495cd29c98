/** The WebSocket hub: one goroutine that registers, unregisters and broadcasts, with a bounded send
    channel per client that it closes when the client leaves or falls behind. */
module Hub {

  type Message = string

  const CAPACITY: nat := 256

  datatype Chan = Chan(buf: seq<Message>, closed: bool)

  const FRESH: Chan := Chan([], false)

  predicate Full(ch: Chan) { |ch.buf| >= CAPACITY }

  // select { case send <- m: default: close(send) }
  function Deliver(ch: Chan, m: Message): Chan {
    if Full(ch) then ch.(closed := true) else ch.(buf := ch.buf + [m])
  }

  // ---------- whole runs ----------

  type ClientId = nat

  datatype Event = Register(c: ClientId) | Unregister(c: ClientId) | Broadcast(m: Message) | Take(c: ClientId)

  // What happened to one client: its channel, where in the broadcast log it joined, what was put
  // into the channel so far and what its write pump took out.
  datatype Record = Record(chan: Chan, joined: nat, sent: seq<Message>, taken: seq<Message>)

  // A panic (closing or writing a closed channel) ends the program.
  datatype State = State(clients: set<ClientId>, records: map<ClientId, Record>, log: seq<Message>, panicked: bool)

  function Of(s: State, c: ClientId): Record {
    if c in s.records then s.records[c] else Record(FRESH, 0, [], [])
  }

  function Put(r: Record, m: Message): Record {
    r.(chan := Deliver(r.chan, m), sent := if Full(r.chan) then r.sent else r.sent + [m])
  }

  function AfterBroadcast(s: State, m: Message): State {
    if exists c :: c in s.clients && Of(s, c).chan.closed then s.(panicked := true) else
      State(set c | c in s.clients && !Full(Of(s, c).chan),
            map c | c in s.records.Keys + s.clients :: if c in s.clients then Put(Of(s, c), m) else Of(s, c),
            s.log + [m], false)
  }

  function Next(s: State, e: Event): State {
    if s.panicked then s else
      match e
      case Register(c) =>
        s.(clients := s.clients + {c},
           records := s.records[c := if c in s.clients then Of(s, c) else Of(s, c).(joined := |s.log|)])
      case Unregister(c) =>
        if c !in s.clients then s
        else if Of(s, c).chan.closed then s.(panicked := true)
        else s.(clients := s.clients - {c},
                records := s.records[c := Of(s, c).(chan := Of(s, c).chan.(closed := true))])
      case Broadcast(m) => AfterBroadcast(s, m)
      case Take(c) =>
        var r := Of(s, c);
        if r.chan.buf == [] then s
        else s.(records := s.records[c := r.(chan := r.chan.(buf := r.chan.buf[1..]),
                                             taken := r.taken + [r.chan.buf[0]])])
  }

  function Run(s: State, run: seq<Event>): State {
    if run == [] then s else Next(Run(s, run[..|run| - 1]), run[|run| - 1])
  }

  const EMPTY: State := State({}, map[], [], false)

  // ---------- no panic ----------

  // Nothing has gone wrong and nothing is about to: no registered channel is closed.
  ghost predicate Calm(s: State) {
    !s.panicked && forall c :: c in s.clients ==> !Of(s, c).chan.closed
  }

  /** An event keeps the hub out of danger exactly when it does not register a client whose channel
      the hub has already closed. */
  lemma NextCalm(s: State, e: Event)
    requires Calm(s)
    ensures Calm(Next(s, e)) <==> !(e.Register? && Of(s, e.c).chan.closed)
  {
    if e.Register? && Of(s, e.c).chan.closed {
      assert e.c in Next(s, e).clients && Of(Next(s, e), e.c).chan.closed;
    }
  }

  // ... and a hub in danger does panic at the next broadcast.
  lemma DangerIsReal(s: State, m: Message)
    requires !s.panicked && !Calm(s)
    ensures Next(s, Broadcast(m)).panicked
  {
  }

  predicate RegistersOnce(run: seq<Event>) {
    forall i, k :: 0 <= i < k < |run| && run[i].Register? && run[k].Register? ==> run[i].c != run[k].c
  }

  predicate Registered(run: seq<Event>, c: ClientId) {
    exists i :: 0 <= i < |run| && run[i] == Register(c)
  }

  // ---------- what every client receives ----------

  /** The messages put into a channel are one gap-free stretch of the broadcast log that begins where
      the client joined, complete while it is registered; the pump takes them out in order; the
      buffer keeps its bound; and only a client that registered can be found closed. */
  ghost predicate StreamOk(s: State, run: seq<Event>, c: ClientId) {
    var r := Of(s, c);
    && r.joined + |r.sent| <= |s.log|
    && r.sent == s.log[r.joined..r.joined + |r.sent|]
    && (c in s.clients ==> !r.chan.closed && r.joined + |r.sent| == |s.log|)
    && r.taken + r.chan.buf == r.sent
    && |r.chan.buf| <= CAPACITY
    && (c in s.clients || r.chan.closed || r.sent != [] ==> Registered(run, c))
  }

  ghost predicate StreamsOk(s: State, run: seq<Event>) {
    !s.panicked && forall c :: StreamOk(s, run, c)
  }

  lemma RegisteredEarlier(run: seq<Event>, c: ClientId)
    requires run != []
    ensures Registered(run[..|run| - 1], c) ==> Registered(run, c)
    ensures run[|run| - 1] == Register(c) ==> Registered(run, c)
    ensures RegistersOnce(run) && run[|run| - 1] == Register(c) ==> !Registered(run[..|run| - 1], c)
    ensures RegistersOnce(run) ==> RegistersOnce(run[..|run| - 1])
  {
    var front := run[..|run| - 1];
    if Registered(front, c) {
      var i :| 0 <= i < |front| && front[i] == Register(c);
      assert run[i] == Register(c);
    }
  }

  lemma OfBroadcast(s: State, m: Message, c: ClientId)
    requires Calm(s)
    ensures Of(AfterBroadcast(s, m), c) == if c in s.clients then Put(Of(s, c), m) else Of(s, c)
    ensures c in AfterBroadcast(s, m).clients <==> c in s.clients && !Full(Of(s, c).chan)
    ensures AfterBroadcast(s, m).log == s.log + [m] && !AfterBroadcast(s, m).panicked
  {
  }

  lemma BroadcastStream(s: State, run: seq<Event>, run': seq<Event>, m: Message, c: ClientId)
    requires Calm(s) && StreamOk(s, run, c) && (Registered(run, c) ==> Registered(run', c))
    ensures StreamOk(AfterBroadcast(s, m), run', c)
  {
    OfBroadcast(s, m, c);
    var r := Of(s, c);
    var log := s.log + [m];
    assert log[r.joined..r.joined + |r.sent|] == s.log[r.joined..r.joined + |r.sent|];
    if c in s.clients && !Full(r.chan) {
      assert log[r.joined..|log|] == s.log[r.joined..|s.log|] + [m];
      assert r.taken + (r.chan.buf + [m]) == (r.taken + r.chan.buf) + [m];
    }
  }

  lemma RegisterStream(s: State, run: seq<Event>, run': seq<Event>, c: ClientId)
    requires !s.panicked && StreamOk(s, run, c) && !Registered(run, c) && Registered(run', c)
    ensures StreamOk(Next(s, Register(c)), run', c)
  {
    assert s.log[|s.log|..|s.log|] == [];
  }

  lemma TakeStream(s: State, run: seq<Event>, run': seq<Event>, c: ClientId)
    requires !s.panicked && StreamOk(s, run, c) && (Registered(run, c) ==> Registered(run', c))
    ensures StreamOk(Next(s, Take(c)), run', c)
  {
    var r := Of(s, c);
    if r.chan.buf != [] {
      assert (r.taken + [r.chan.buf[0]]) + r.chan.buf[1..] == r.taken + r.chan.buf;
    }
  }

  // Leaving, or somebody else's event.
  lemma OtherStream(s: State, run: seq<Event>, run': seq<Event>, e: Event, c: ClientId)
    requires !s.panicked && StreamOk(s, run, c) && (Registered(run, c) ==> Registered(run', c))
    requires e == Unregister(c) || (!e.Broadcast? && e.c != c)
    ensures StreamOk(Next(s, e), run', c)
  {
  }

  lemma NextStream(s: State, run: seq<Event>, e: Event, c: ClientId)
    requires StreamsOk(s, run) && RegistersOnce(run + [e])
    ensures StreamOk(Next(s, e), run + [e], c)
  {
    var run' := run + [e];
    assert run'[..|run|] == run;
    RegisteredEarlier(run', c);
    assert StreamOk(s, run, c);
    if e.Broadcast? {
      assert Calm(s) by { forall d | d in s.clients ensures !Of(s, d).chan.closed { assert StreamOk(s, run, d); } }
      BroadcastStream(s, run, run', e.m, c);
    } else if e == Register(c) {
      RegisterStream(s, run, run', c);
    } else if e == Take(c) {
      TakeStream(s, run, run', c);
    } else {
      OtherStream(s, run, run', e, c);
    }
  }

  lemma NextStreams(s: State, run: seq<Event>, e: Event)
    requires StreamsOk(s, run) && RegistersOnce(run + [e])
    ensures StreamsOk(Next(s, e), run + [e])
  {
    forall c ensures StreamOk(Next(s, e), run + [e], c) { NextStream(s, run, e, c); }
    forall c | c in s.clients ensures !Of(s, c).chan.closed { assert StreamOk(s, run, c); }
  }

  /** Under any order of events in which no client registers twice. */
  lemma {:induction false} HubSafety(run: seq<Event>)
    requires RegistersOnce(run)
    ensures StreamsOk(Run(EMPTY, run), run)
  {
    if run != [] {
      var front := run[..|run| - 1];
      RegisteredEarlier(run, 0);
      HubSafety(front);
      NextStreams(Run(EMPTY, front), front, run[|run| - 1]);
      assert run == front + [run[|run| - 1]];
    } else {
      forall c ensures StreamOk(EMPTY, run, c) { assert EMPTY.log[0..0] == []; }
    }
  }

  /** Registering a client again after it was dropped makes the hub write to a closed channel. */
  lemma ReRegisteringPanics(c: ClientId, m: Message)
    ensures Run(EMPTY, [Register(c), Unregister(c), Register(c), Broadcast(m)]).panicked
  {
    var s1 := Next(EMPTY, Register(c));
    var s2 := Next(s1, Unregister(c));
    var s3 := Next(s2, Register(c));
    assert c in s3.clients && Of(s3, c).chan.closed;
    var run := [Register(c), Unregister(c), Register(c), Broadcast(m)];
    assert run[..3] == [Register(c), Unregister(c), Register(c)];
    assert run[..3][..2] == [Register(c), Unregister(c)];
    assert run[..3][..2][..1] == [Register(c)];
    assert run[..3][..2][..1][..0] == [];
    assert Run(EMPTY, run[..3][..2][..1]) == s1;
    assert Run(EMPTY, run[..3][..2]) == s2;
    assert Run(EMPTY, run[..3]) == s3;
  }

  // ---------- slow clients ----------

  function Broadcasts(run: seq<Event>): nat {
    if run == [] then 0 else Broadcasts(run[..|run| - 1]) + if run[|run| - 1].Broadcast? then 1 else 0
  }

  // The client neither reads nor registers again.
  predicate Stalled(run: seq<Event>, c: ClientId) {
    forall i :: 0 <= i < |run| ==> run[i] != Take(c) && run[i] != Register(c)
  }

  lemma {:induction false} StalledFills(s: State, run: seq<Event>, c: ClientId)
    requires Stalled(run, c)
    requires forall k :: 0 <= k <= |run| ==> Calm(Run(s, run[..k]))
    ensures c in Run(s, run).clients ==>
              c in s.clients && |Of(Run(s, run), c).chan.buf| == |Of(s, c).chan.buf| + Broadcasts(run)
  {
    if run == [] {
    } else {
      var front := run[..|run| - 1];
      forall k | 0 <= k <= |front| ensures Calm(Run(s, front[..k])) { assert front[..k] == run[..k]; }
      StalledFills(s, front, c);
      var t := Run(s, front);
      assert Calm(t) by { assert front[..|front|] == front; }
      if run[|run| - 1].Broadcast? { OfBroadcast(t, run[|run| - 1].m, c); }
    }
  }

  /** A registered client that stops reading is gone by the 257th broadcast that follows, whatever
      else happens in between. */
  lemma SlowClientDropped(before: seq<Event>, after: seq<Event>, c: ClientId)
    requires RegistersOnce(before + after) && Stalled(after, c) && Broadcasts(after) > CAPACITY
    ensures c !in Run(Run(EMPTY, before), after).clients
  {
    CalmAfter(before, after);
    StalledFills(Run(EMPTY, before), after, c);
    RunSplit(EMPTY, before, after);
    HubSafety(before + after);
    assert StreamOk(Run(EMPTY, before + after), before + after, c);
  }

  // The client is not told to leave.
  predicate NotSentAway(run: seq<Event>, c: ClientId) {
    forall i :: 0 <= i < |run| ==> run[i] != Unregister(c)
  }

  ghost predicate CalmAll(s: State, run: seq<Event>) { forall k :: 0 <= k <= |run| ==> Calm(Run(s, run[..k])) }

  lemma {:induction false} RoomLeft(s: State, run: seq<Event>, c: ClientId)
    requires c in s.clients && NotSentAway(run, c) && CalmAll(s, run)
    requires |Of(s, c).chan.buf| + Broadcasts(run) <= 256
    ensures c in Run(s, run).clients
    ensures |Of(Run(s, run), c).chan.buf| <= |Of(s, c).chan.buf| + Broadcasts(run)
  {
    if run == [] {
    } else {
      var front := run[..|run| - 1];
      forall k | 0 <= k <= |front| ensures Calm(Run(s, front[..k])) { assert front[..k] == run[..k]; }
      RoomLeft(s, front, c);
      var t := Run(s, front);
      assert Calm(t) by { assert front[..|front|] == front; }
      if run[|run| - 1].Broadcast? { OfBroadcast(t, run[|run| - 1].m, c); }
    }
  }

  lemma CalmAfter(before: seq<Event>, after: seq<Event>)
    requires RegistersOnce(before + after)
    ensures CalmAll(Run(EMPTY, before), after)
  {
    forall k | 0 <= k <= |after| ensures Calm(Run(Run(EMPTY, before), after[..k])) {
      RunSplit(EMPTY, before, after[..k]);
      var run := before + after[..k];
      assert RegistersOnce(run) by {
        forall i, m | 0 <= i < m < |run| && run[i].Register? && run[m].Register? ensures run[i].c != run[m].c {
          assert run[i] == (before + after)[i] && run[m] == (before + after)[m];
        }
      }
      HubSafety(run);
      forall d | d in Run(EMPTY, run).clients ensures !Of(Run(EMPTY, run), d).chan.closed {
        assert StreamOk(Run(EMPTY, run), run, d);
      }
    }
  }

  /** A registered client that does not read and is not told to leave stays registered exactly as long as
      the messages waiting for it and the broadcasts to come are at most 256. */
  lemma DroppedExactly(before: seq<Event>, after: seq<Event>, c: ClientId)
    requires RegistersOnce(before + after) && c in Run(EMPTY, before).clients
    requires Stalled(after, c) && NotSentAway(after, c)
    ensures c in Run(Run(EMPTY, before), after).clients <==>
            |Of(Run(EMPTY, before), c).chan.buf| + Broadcasts(after) <= 256
  {
    var s := Run(EMPTY, before);
    CalmAfter(before, after);
    if |Of(s, c).chan.buf| + Broadcasts(after) <= 256 { RoomLeft(s, after, c); }
    StalledFills(s, after, c);
    RunSplit(EMPTY, before, after);
    HubSafety(before + after);
    assert StreamOk(Run(EMPTY, before + after), before + after, c);
  }

  lemma {:induction false} RunSplit(s: State, first: seq<Event>, second: seq<Event>)
    ensures Run(s, first + second) == Run(Run(s, first), second)
    decreases |second|
  {
    if second == [] {
      assert first + second == first;
    } else {
      var n := |second| - 1;
      RunSplit(s, first, second[..n]);
      assert (first + second)[..|first + second| - 1] == first + second[..n];
    }
  }

  // ---------- the object ----------

  class Client {
    const id: ClientId // its identity, in the account of what happened
    var send: Chan

    constructor (id: ClientId)
      ensures this.id == id && send == FRESH
    {
      this.id, send := id, FRESH;
    }

    // Sending on a closed channel panics.
    method TrySend(m: Message) returns (sent: bool)
      requires !send.closed
      modifies this
      ensures sent <==> |old(send).buf| < 256
      ensures send == if sent then old(send).(buf := old(send).buf + [m]) else old(send)
    {
      sent := |send.buf| < CAPACITY;
      if sent { send := send.(buf := send.buf + [m]); }
    }

    // Closing a closed channel panics.
    method Close()
      requires !send.closed
      modifies this
      ensures send == old(send).(closed := true)
    {
      send := send.(closed := true);
    }
  }

  class HubObject {
    var clients: set<Client>
    ghost var known: set<Client> // every client that ever registered
    ghost var events: seq<Event> // what happened so far

    /** The object is where the events lead: the same clients, the same channels, and no panic. */
    ghost predicate Valid()
      reads this, known
    {
      clients <= known && Distinct(known) && Mirrors(Run(EMPTY, events), clients, known)
    }

    constructor ()
      ensures Valid() && clients == {} && events == []
    {
      clients, known, events := {}, {}, [];
    }

    // A client new to the hub comes with an empty open channel.
    method Register(client: Client)
      requires Valid() && Distinct(known + {client})
      requires if client in known then !client.send.closed else client.send == FRESH
      modifies this
      ensures Valid() && clients == old(clients) + {client} && known == old(known) + {client}
      ensures events == old(events) + [Event.Register(client.id)]
    {
      RunSnoc(EMPTY, events, Event.Register(client.id));
      clients := clients + {client};
      known := known + {client};
      events := events + [Event.Register(client.id)];
    }

    // Each of a client's two pumps sends one of these; the second finds nothing to do.
    method Unregister(client: Client)
      requires Valid() && Distinct(known + {client})
      modifies this, client
      ensures Valid() && clients == old(clients) - {client} && known == old(known)
      ensures client.send == if client in old(clients) then old(client.send).(closed := true) else old(client.send)
      ensures events == old(events) + [Event.Unregister(client.id)]
    {
      RunSnoc(EMPTY, events, Event.Unregister(client.id));
      if client in clients {
        clients := clients - {client};
        client.Close();
      }
      events := events + [Event.Unregister(client.id)];
    }

    /** The map is ranged over in any order; the outcome is the same for every order. */
    method Broadcast(m: Message)
      requires Valid()
      modifies this, clients
      ensures Valid() && known == old(known)
      ensures clients == set c | c in old(clients) && !Full(old(c.send))
      ensures forall c :: c in old(clients) ==> c.send == Deliver(old(c.send), m)
      ensures events == old(events) + [Event.Broadcast(m)]
    {
      ghost var before := Run(EMPTY, events);
      DeliverAll(m);
      RunSnoc(EMPTY, events, Event.Broadcast(m));
      forall c | c in known ensures Of(AfterBroadcast(before, m), c.id).chan == c.send {
        OfBroadcast(before, m, c.id);
      }
      events := events + [Event.Broadcast(m)];
    }

    // The loop over the clients.
    method DeliverAll(m: Message)
      requires forall c :: c in clients ==> !c.send.closed
      modifies this`clients, clients
      ensures clients == set c | c in old(clients) && !Full(old(c.send))
      ensures forall c :: c in old(clients) ==> c.send == Deliver(old(c.send), m)
    {
      var todo := clients;
      ghost var all := clients;
      while todo != {}
        invariant todo <= clients <= all && forall c :: c in clients ==> !c.send.closed
        invariant forall c :: c in todo ==> c.send == old(c.send)
        invariant forall c :: c in all && c !in todo ==> c.send == Deliver(old(c.send), m)
        invariant forall c :: c in all && c !in todo ==> (c in clients <==> !Full(old(c.send)))
        decreases todo
      {
        var c :| c in todo;
        todo := todo - {c};
        var sent := c.TrySend(m);
        if !sent {
          c.Close();
          clients := clients - {c};
        }
      }
    }

    // A client's write pump takes the next message out of its channel, if there is one.
    method Receive(client: Client) returns (got: bool, m: Message)
      requires Valid() && client in known
      modifies this`events, client
      ensures Valid() && got == (old(client.send).buf != [])
      ensures if got then [m] + client.send.buf == old(client.send).buf && client.send.closed == old(client.send).closed
              else client.send == old(client.send)
      ensures events == old(events) + [Event.Take(client.id)]
    {
      RunSnoc(EMPTY, events, Event.Take(client.id));
      got, m := |client.send.buf| > 0, "";
      if got {
        m := client.send.buf[0];
        client.send := client.send.(buf := client.send.buf[1..]);
      }
      events := events + [Event.Take(client.id)];
    }

    // After Run has returned.
    method Shutdown()
      requires Valid()
      modifies this, clients
      ensures Valid() && clients == {}
      ensures forall c :: c in old(clients) ==> c.send == old(c.send).(closed := true)
    {
      ghost var all := clients;
      while clients != {}
        invariant clients <= all && Valid() && known == old(known)
        invariant forall c :: c in clients ==> c.send == old(c.send)
        invariant forall c :: c in all && c !in clients ==> c.send == old(c.send).(closed := true)
        decreases clients
      {
        var c :| c in clients;
        assert known + {c} == known;
        Unregister(c);
      }
    }
  }

  predicate Distinct(known: set<Client>) {
    forall c, d :: c in known && d in known && c.id == d.id ==> c == d
  }

  ghost predicate Mirrors(s: State, clients: set<Client>, known: set<Client>)
    reads known
  {
    && !s.panicked
    && s.clients == (set c | c in clients :: c.id)
    && (forall c :: c in known ==> Of(s, c.id).chan == c.send && (c in clients ==> !c.send.closed))
    && (forall id :: id in s.records ==> exists c :: c in known && c.id == id)
  }

  lemma RunSnoc(s: State, run: seq<Event>, e: Event)
    ensures Run(s, run + [e]) == Next(Run(s, run), e)
  {
    assert (run + [e])[..|run|] == run;
  }

  /** What the object's clients have been sent: taken and waiting together are one gap-free stretch of the
      broadcasts from the client's registration on, and all of them while it is registered. */
  lemma ObjectDelivers(h: HubObject, c: Client)
    requires h.Valid() && RegistersOnce(h.events) && c in h.known
    ensures var s := Run(EMPTY, h.events);
            var r := Of(s, c.id);
            && r.joined + |r.sent| <= |s.log| && r.taken + c.send.buf == s.log[r.joined..r.joined + |r.sent|]
            && (c in h.clients ==> !c.send.closed && r.joined + |r.sent| == |s.log|)
  {
    HubSafety(h.events);
    assert StreamOk(Run(EMPTY, h.events), h.events, c.id);
  }
}
