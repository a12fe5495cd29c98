/** Leader election for any number of instances over one database, with sessions that may die at any
    moment and electors that notice only at their next query. */
module Leader {
  import opened Jobs
  import opened Lifecycle

  // ---------- the database side ----------

  type Session = nat

  // One advisory lock: held by a session, possibly several times, until that session ends.
  datatype Server = Server(live: set<Session>, owner: Option<Session>, depth: nat, next: Session)

  function SessionEnds(d: Server, x: Session): Server {
    if x !in d.live then d
    else if d.owner == Some(x) then d.(live := d.live - {x}, owner := None, depth := 0)
    else d.(live := d.live - {x})
  }

  // pg_try_advisory_lock: re-entrant for the session that already holds it.
  predicate Grants(d: Server, x: Session) { d.owner == None || d.owner == Some(x) }

  function TryLock(d: Server, x: Session): Server {
    if Grants(d, x) then d.(owner := Some(x), depth := d.depth + 1) else d
  }

  // ---------- an instance ----------

  datatype Pc =
    | Top          // head of the election loop
    | Connecting   // tryAcquire without a usable connection
    | Trying       // about to query for the lock
    | Sleeping
    | Won          // tryAcquire returned nil
    | Promoted     // isLeader set, onAcquire not yet called
    | Holding      // holdLock
    | Released     // holdLock returned
    | Demoted      // isLeader cleared, onRelease not yet called
    | Stopping     // in onRelease, waiting for the loops
    | Returned     // Start returned

  datatype Callback = OnAcquire | OnRelease

  // conn is nil or a session; closed is what the client library believes about it.
  datatype Elector = Elector(pc: Pc, conn: Option<Session>, closed: bool, leader: bool, shutdown: bool,
                             calls: seq<Callback>, sched: Scheduler)

  function NewElector(): Elector { Elector(Top, None, false, false, false, [], NewScheduler()) }

  datatype System = System(db: Server, electors: seq<Elector>)

  function NewSystem(n: nat): System { System(Server({}, None, 0, 0), seq(n, _ => NewElector())) }

  // ---------- steps ----------

  // A query is answered, or fails: with or without its effect, and with the library noticing or not.
  datatype Answer = Replied | Broken(effect: bool, noticed: bool)

  datatype Step =
    | SessionDies(x: Session)
    | Shutdown
    | CheckContext
    | Connect(ok: bool)
    | TryQuery(answer: Answer, lingers: bool)
    | WakeUp
    | Promote
    | CallAcquire
    | Heartbeat(answer: Answer, lingers: bool)
    | SeeShutdown(lingers: bool)
    | Demote
    | CallRelease
    | WaitDone
    | LoopRuns(k: nat)
    | LoopExits(k: nat)

  // The client closes its connection; the server may take a while to notice.
  function CloseSession(d: Server, x: Session, lingers: bool): Server {
    if lingers then d else SessionEnds(d, x)
  }

  predicate Open(e: Elector) { e.conn.Some? && !e.closed }

  // tryAcquire's query. A dead session can only answer with an error.
  function AfterTry(d: Server, e: Elector, answer: Answer, lingers: bool): (Server, Elector)
    requires Open(e)
  {
    var x := e.conn.value;
    if answer.Replied? && x in d.live && Grants(d, x) then (TryLock(d, x), e.(pc := Won)) else
      var d1 := if answer.Broken? && answer.effect && x in d.live then TryLock(d, x) else d;
      (CloseSession(d1, x, lingers), e.(pc := Sleeping, conn := None, closed := false))
  }

  // holdLock's tick: stay while the lock is seen held, otherwise close what is still open and leave.
  function AfterBeat(d: Server, e: Elector, answer: Answer, lingers: bool): (Server, Elector)
    requires Open(e)
  {
    var x := e.conn.value;
    if answer.Replied? && x in d.live && d.owner == Some(x) then (d, e)
    else if answer.Broken? && answer.noticed then (d, e.(pc := Released, closed := true))
    else (CloseSession(d, x, lingers), e.(pc := Released, conn := None, closed := false))
  }

  /** One step of one instance; a step that does not fit changes nothing. */
  function Move(d: Server, e: Elector, step: Step): (Server, Elector) {
    match step
    case SessionDies(x) => (SessionEnds(d, x), e)
    case Shutdown => (d, e.(shutdown := true))
    case CheckContext =>
      if e.pc != Top then (d, e)
      else (d, e.(pc := if e.shutdown then Returned else if Open(e) then Trying else Connecting))
    case Connect(ok) =>
      if e.pc != Connecting then (d, e)
      else if !ok then (d, e.(pc := Sleeping))
      else (d.(live := d.live + {d.next}, next := d.next + 1), e.(pc := Trying, conn := Some(d.next), closed := false))
    case TryQuery(answer, lingers) => if e.pc != Trying || !Open(e) then (d, e) else AfterTry(d, e, answer, lingers)
    case WakeUp => if e.pc != Sleeping then (d, e) else (d, e.(pc := Top))
    case Promote => if e.pc != Won then (d, e) else (d, e.(pc := Promoted, leader := true))
    case CallAcquire =>
      if e.pc != Promoted then (d, e)
      else (d, e.(pc := Holding, calls := e.calls + [OnAcquire], sched := Started(e.sched)))
    case Heartbeat(answer, lingers) => if e.pc != Holding || !Open(e) then (d, e) else AfterBeat(d, e, answer, lingers)
    case SeeShutdown(lingers) =>
      if e.pc != Holding || !e.shutdown then (d, e)
      else if Open(e) then (CloseSession(d, e.conn.value, lingers), e.(pc := Released, conn := None, closed := false))
      else (d, e.(pc := Released))
    case Demote => if e.pc != Released then (d, e) else (d, e.(pc := Demoted, leader := false))
    case CallRelease =>
      if e.pc != Demoted then (d, e)
      else if !e.sched.running then (d, e.(pc := Top, calls := e.calls + [OnRelease]))
      else (d, e.(pc := Stopping, calls := e.calls + [OnRelease], sched := Cancelling(e.sched)))
    case WaitDone =>
      if e.pc != Stopping || e.sched.wg != 0 then (d, e) else (d, e.(pc := Top, sched := Stopped(e.sched)))
    case LoopRuns(k) => (d, e.(sched := LoopReads(e.sched, k)))
    case LoopExits(k) => (d, e.(sched := LoopEnds(e.sched, k, e.shutdown)))
  }

  datatype Turn = Turn(who: nat, step: Step)

  function Next(s: System, t: Turn): System {
    if t.who >= |s.electors| then s else
      var (d, e) := Move(s.db, s.electors[t.who], t.step);
      System(d, s.electors[t.who := e])
  }

  function Run(s: System, run: seq<Turn>): (s': System)
    ensures |s'.electors| == |s.electors|
  {
    if run == [] then s else Next(Run(s, run[..|run| - 1]), run[|run| - 1])
  }

  // ---------- the lock ----------

  // Between a successful tryAcquire and the return of holdLock.
  predicate InLeaderSection(e: Elector) { e.pc == Won || e.pc == Promoted || e.pc == Holding }

  predicate ServerOk(d: Server) {
    && (forall x :: x in d.live ==> x < d.next)
    && (d.owner.Some? ==> d.owner.value in d.live && d.depth == 1)
    && (d.owner.None? ==> d.depth == 0)
  }

  /** Outside the leader section no usable connection is left, so tryAcquire always queries on a
      session it has just opened; inside it, a live session is the owner of the lock. */
  predicate ElectorOk(d: Server, e: Elector) {
    && (e.conn.Some? ==> e.conn.value < d.next)
    && match e.pc
       case Trying => Open(e) && d.owner != e.conn
       case Won | Promoted | Holding => Open(e) && (e.conn.value in d.live ==> d.owner == e.conn)
       case _ => !Open(e)
  }

  predicate OwnSession(a: Elector, b: Elector) { a.conn.Some? ==> a.conn != b.conn }

  ghost predicate LockOk(s: System) {
    && ServerOk(s.db)
    && (forall i :: 0 <= i < |s.electors| ==> ElectorOk(s.db, s.electors[i]))
    && (forall i, k :: 0 <= i < k < |s.electors| ==> OwnSession(s.electors[i], s.electors[k]))
  }

  // What a step does to the database, as far as the other instances are concerned.
  predicate Tolerable(d: Server, d': Server, x: Option<Session>) {
    && d.next <= d'.next
    && (forall y :: y in d'.live && y < d.next ==> y in d.live)
    && (d'.owner == d.owner || d'.owner == None || d'.owner == x)
    && (d.owner.Some? && d.owner.value in d'.live ==> d'.owner == d.owner)
  }

  // One step keeps the invariant, and is tolerable to everybody else.
  predicate Keeps(d: Server, e: Elector, d': Server, e': Elector) {
    && ServerOk(d') && ElectorOk(d', e')
    && Tolerable(d, d', e.conn)
    && (e'.conn == None || e'.conn == e.conn || e'.conn == Some(d.next))
  }

  lemma MoveOk(d: Server, e: Elector, step: Step)
    requires ServerOk(d) && ElectorOk(d, e)
    ensures Keeps(d, e, Move(d, e, step).0, Move(d, e, step).1)
  {
    if step.TryQuery? { TryOk(d, e, step); }
    else if step.Heartbeat? { BeatOk(d, e, step); }
    else { QuietOk(d, e, step); }
  }

  lemma TryOk(d: Server, e: Elector, step: Step)
    requires ServerOk(d) && ElectorOk(d, e) && step.TryQuery?
    ensures Keeps(d, e, Move(d, e, step).0, Move(d, e, step).1)
  {
  }

  lemma BeatOk(d: Server, e: Elector, step: Step)
    requires ServerOk(d) && ElectorOk(d, e) && step.Heartbeat?
    ensures Keeps(d, e, Move(d, e, step).0, Move(d, e, step).1)
  {
  }

  lemma QuietOk(d: Server, e: Elector, step: Step)
    requires ServerOk(d) && ElectorOk(d, e) && !step.TryQuery? && !step.Heartbeat?
    ensures Keeps(d, e, Move(d, e, step).0, Move(d, e, step).1)
  {
  }

  lemma OtherOk(d: Server, d': Server, mine: Option<Session>, e: Elector)
    requires ServerOk(d) && ServerOk(d') && ElectorOk(d, e) && Tolerable(d, d', mine)
    requires e.conn.Some? ==> e.conn != mine
    ensures ElectorOk(d', e)
  {
  }

  lemma NextLockOk(s: System, t: Turn)
    requires LockOk(s)
    ensures LockOk(Next(s, t))
  {
    if t.who < |s.electors| {
      MoveOk(s.db, s.electors[t.who], t.step);
      var s' := Next(s, t);
      forall i | 0 <= i < |s'.electors| ensures ElectorOk(s'.db, s'.electors[i]) {
        if i != t.who {
          assert OwnSession(s.electors[if i < t.who then i else t.who], s.electors[if i < t.who then t.who else i]);
          OtherOk(s.db, s'.db, s.electors[t.who].conn, s.electors[i]);
        }
      }
      forall i, k | 0 <= i < k < |s'.electors| ensures OwnSession(s'.electors[i], s'.electors[k]) {
        assert OwnSession(s.electors[i], s.electors[k]);
      }
    }
  }

  lemma {:induction false} RunLockOk(s: System, run: seq<Turn>)
    requires LockOk(s)
    ensures LockOk(Run(s, run))
  {
    if run == [] {
    } else {
      RunLockOk(s, run[..|run| - 1]);
      NextLockOk(Run(s, run[..|run| - 1]), run[|run| - 1]);
    }
  }

  predicate LiveLeader(s: System, i: nat)
    requires i < |s.electors|
  {
    var e := s.electors[i];
    InLeaderSection(e) && e.conn.Some? && e.conn.value in s.db.live
  }

  /** In every run: an instance in the leader section has a connection, and if its session is live it
      owns the lock, so no two instances are there with live sessions; and the re-entrant lock is
      never held more than once. */
  lemma LockSafety(n: nat, run: seq<Turn>, i: nat, k: nat)
    requires i < n && k < n
    ensures var s := Run(NewSystem(n), run);
            && s.db.depth <= 1
            && (InLeaderSection(s.electors[i]) ==> Open(s.electors[i]))
            && (LiveLeader(s, i) ==> s.db.owner == s.electors[i].conn)
            && (LiveLeader(s, i) && LiveLeader(s, k) ==> i == k)
  {
    RunLockOk(NewSystem(n), run);
    var s := Run(NewSystem(n), run);
    if i < k { assert OwnSession(s.electors[i], s.electors[k]); }
    if k < i { assert OwnSession(s.electors[k], s.electors[i]); }
  }

  /** Every lock query of tryAcquire runs on a session that does not hold the lock: at the head of
      the loop no open connection is left over, so each round opens a session of its own. */
  lemma FreshSession(n: nat, run: seq<Turn>, i: nat)
    requires i < n
    ensures var s := Run(NewSystem(n), run);
            var e := s.electors[i];
            && (e.pc == Trying ==> Open(e) && s.db.owner != e.conn)
            && (e.pc == Top ==> !Open(e) && Move(s.db, e, CheckContext).1.pc != Trying)
            && (e.pc == Connecting ==>
                  Move(s.db, e, Connect(true)).1.conn == Some(s.db.next) && s.db.next !in s.db.live)
  {
    RunLockOk(NewSystem(n), run);
  }

  // ---------- callbacks and the scheduler ----------

  predicate Between(e: Elector) { e.pc == Holding || e.pc == Released || e.pc == Demoted }

  // Strict alternation, beginning with OnAcquire.
  predicate Alternates(calls: seq<Callback>) {
    forall k :: 0 <= k < |calls| ==> calls[k] == if k % 2 == 0 then OnAcquire else OnRelease
  }

  ghost predicate LifeOk(e: Elector) {
    && SchedulerOk(e.sched)
    && Alternates(e.calls)
    && (|e.calls| % 2 == 1 <==> Between(e))
    && (e.leader <==> e.pc == Promoted || e.pc == Holding || e.pc == Released)
    && (e.sched.running <==> Between(e) || e.pc == Stopping)
    && (!e.sched.running ==> e.sched.wg == 0)
    && (e.pc == Stopping ==> e.sched.ctx in e.sched.cancelled)
    && (Between(e) ==> e.sched.ctx !in e.sched.cancelled)
    && (Between(e) && !e.shutdown ==> e.sched.wg == 3)
  }

  lemma MoveLifeOk(d: Server, e: Elector, step: Step)
    requires LifeOk(e)
    ensures LifeOk(Move(d, e, step).1)
  {
    match step
    case CallAcquire => AcquireLifeOk(d, e);
    case CallRelease => ReleaseLifeOk(d, e);
    case WaitDone => if e.sched.wg == 0 { StopKeeps(e.sched); }
    case LoopRuns(k) => LoopKeeps(e.sched, k, false);
    case LoopExits(k) => LoopKeeps(e.sched, k, e.shutdown);
    case _ => OwnLifeOk(d, e, step);
  }

  lemma AcquireLifeOk(d: Server, e: Elector)
    requires LifeOk(e)
    ensures LifeOk(Move(d, e, CallAcquire).1)
  {
    StartKeeps(e.sched);
    StartAddsThree(e.sched);
  }

  lemma ReleaseLifeOk(d: Server, e: Elector)
    requires LifeOk(e)
    ensures LifeOk(Move(d, e, CallRelease).1)
  {
    LoopKeeps(e.sched, 0, false);
  }

  // Steps that leave the scheduler and the callbacks alone.
  lemma OwnLifeOk(d: Server, e: Elector, step: Step)
    requires LifeOk(e) && !step.CallAcquire? && !step.CallRelease?
    requires !step.WaitDone? && !step.LoopRuns? && !step.LoopExits?
    ensures LifeOk(Move(d, e, step).1)
  {
  }

  lemma {:induction false} RunLifeOk(n: nat, run: seq<Turn>, i: nat)
    requires i < n
    ensures LifeOk(Run(NewSystem(n), run).electors[i])
  {
    if run == [] {
    } else {
      var front := run[..|run| - 1];
      RunLifeOk(n, front, i);
      var s := Run(NewSystem(n), front);
      MoveLifeOk(s.db, s.electors[i], run[|run| - 1].step);
    }
  }

  /** In every run of any number of instances: the callbacks alternate; whenever an instance stands
      anywhere from the head of the loop to a won lock, or Start has returned, its scheduler is
      stopped with no loop alive and it does not call itself leader before it has won; and every
      loop that runs does so under the context of the Start that spawned it. */
  lemma LifecycleSafety(n: nat, run: seq<Turn>, i: nat, k: nat)
    requires i < n
    ensures var e := Run(NewSystem(n), run).electors[i];
            && Alternates(e.calls)
            && (e.pc in {Top, Connecting, Trying, Sleeping, Won, Returned} ==>
                  !e.leader && !e.sched.running && e.sched.wg == 0 && |e.calls| % 2 == 0
                  && (k < |e.sched.loops| ==> e.sched.loops[k].Ended?))
            && (k < |e.sched.loops| && !e.sched.loops[k].Spawned? ==> e.sched.loops[k].ctx == e.sched.loops[k].start)
  {
    RunLifeOk(n, run, i);
    var e := Run(NewSystem(n), run).electors[i];
    if k < |e.sched.loops| { AliveZero(e.sched.loops, k); }
  }

  /** From onAcquire to onRelease, unless the process shuts down, all three loops of the scheduler are alive
      and their context is not cancelled. */
  lemma LoopsLastTheTerm(n: nat, run: seq<Turn>, i: nat)
    requires i < n
    ensures var e := Run(NewSystem(n), run).electors[i];
            Between(e) && !e.shutdown ==>
              e.sched.running && e.sched.wg == 3 == Alive(e.sched.loops) && e.sched.ctx !in e.sched.cancelled
  {
    RunLifeOk(n, run, i);
  }

  // While a scheduler waits for its loops, each loop alive can take a step, so the wait can end.
  lemma WaitCanEnd(n: nat, run: seq<Turn>, i: nat, k: nat)
    requires i < n
    requires var e := Run(NewSystem(n), run).electors[i];
             e.pc == Stopping && k < |e.sched.loops| && !e.sched.loops[k].Ended?
    ensures var s := Run(NewSystem(n), run);
            var e := s.electors[i];
            var step := if e.sched.loops[k].Spawned? then LoopRuns(k) else LoopExits(k);
            StepsLeft(Move(s.db, e, step).1.sched.loops[k]) < StepsLeft(e.sched.loops[k])
  {
    RunLifeOk(n, run, i);
    AliveZero(Run(NewSystem(n), run).electors[i].sched.loops, k);
  }

  // ---------- belief ----------

  lemma {:induction false} RunConcat(s: System, first: seq<Turn>, second: seq<Turn>)
    ensures Run(s, first + second) == Run(Run(s, first), second)
    decreases |second|
  {
    if second == [] {
      assert first + second == first;
    } else {
      var n := |second| - 1;
      RunConcat(s, first, second[..n]);
      assert (first + second)[..|first + second| - 1] == first + second[..n];
    }
  }

  lemma RunTwo(s: System, a: Turn, b: Turn)
    ensures Run(s, [a, b]) == Next(Next(s, a), b)
  {
    assert [a, b][..1] == [a] && [a][..0] == [];
    assert Run(s, [a]) == Next(s, a);
  }

  // An instance that stands at the head of its loop wins a free lock.
  lemma Rises(s: System, i: nat) returns (run: seq<Turn>)
    requires i < |s.electors| && s.electors[i].pc == Top && !s.electors[i].shutdown && !Open(s.electors[i])
    requires s.db.owner == None
    ensures var s' := Run(s, run);
            var e, e' := s.electors[i], s'.electors[i];
            && s'.electors == s.electors[i := e'] && s'.db.owner == Some(s.db.next)
            && e' == e.(pc := Promoted, leader := true, conn := Some(s.db.next), closed := false)
  {
    var t1, t2 := Turn(i, CheckContext), Turn(i, Connect(true));
    var t3, t4 := Turn(i, TryQuery(Replied, false)), Turn(i, Promote);
    RunTwo(s, t1, t2);
    RunTwo(Next(Next(s, t1), t2), t3, t4);
    RunConcat(s, [t1, t2], [t3, t4]);
    run := [t1, t2] + [t3, t4];
  }

  /** Two instances believe to lead: the session of the first died and it has not looked since. */
  lemma TwoBelieve() returns (run: seq<Turn>)
    ensures var s := Run(NewSystem(2), run); s.electors[0].leader && s.electors[1].leader
  {
    var s := NewSystem(2);
    var first := Rises(s, 0);
    var s1 := Run(s, first);
    RunLockOk(s, first);
    var death := Turn(0, SessionDies(s.db.next));
    var s2 := Next(s1, death);
    assert [death][..0] == [];
    assert Run(s1, [death]) == s2;
    RunConcat(s, first, [death]);
    var second := Rises(s2, 1);
    RunConcat(s, first + [death], second);
    run := first + [death] + second;
  }

  // ---------- exactly when ----------

  // The instance's session is live and owns the lock.
  predicate Owns(d: Server, e: Elector) { e.conn.Some? && e.conn.value in d.live && d.owner == e.conn }

  /** A heartbeat keeps an instance in holdLock exactly when it is answered and the session is live and owns
      the lock; then nothing changes, and otherwise it steps down. */
  lemma HeartbeatExact(n: nat, run: seq<Turn>, i: nat, answer: Answer, lingers: bool)
    requires i < n && Run(NewSystem(n), run).electors[i].pc == Holding
    ensures var s := Run(NewSystem(n), run);
            var e := s.electors[i];
            var (d', e') := Move(s.db, e, Heartbeat(answer, lingers));
            && (e'.pc == Holding <==> answer.Replied? && Owns(s.db, e))
            && (answer.Replied? ==> (e'.pc != Holding <==> e.conn.value !in s.db.live || s.db.owner != e.conn))
            && (e'.pc == Holding ==> d' == s.db && e' == e)
            && (e'.pc != Holding ==> e'.pc == Released && !Open(e'))
  {
    RunLockOk(NewSystem(n), run);
  }

  /** An instance that holds the lock on a live session leaves holdLock in no other way than by a failed
      query of its own or its own shutdown, whatever the other instances do. */
  lemma StaysLeader(n: nat, run: seq<Turn>, i: nat, t: Turn)
    requires i < n && Run(NewSystem(n), run).electors[i].pc == Holding
    requires Owns(Run(NewSystem(n), run).db, Run(NewSystem(n), run).electors[i])
    ensures var s := Run(NewSystem(n), run);
            Next(s, t).electors[i].pc != Holding ==>
              t.who == i && ((t.step.Heartbeat? && t.step.answer.Broken?)
                             || (t.step.SeeShutdown? && s.electors[i].shutdown))
  {
  }

  /** tryAcquire wins exactly when its query is answered on a live session and nobody owns the lock; an
      attempt that was answered and lost leaves the lock as it is. */
  lemma TryExact(n: nat, run: seq<Turn>, i: nat, answer: Answer, lingers: bool)
    requires i < n && Run(NewSystem(n), run).electors[i].pc == Trying
    ensures var s := Run(NewSystem(n), run);
            var e := s.electors[i];
            var (d', e') := Move(s.db, e, TryQuery(answer, lingers));
            && e.conn.Some?
            && (e'.pc == Won <==> answer.Replied? && e.conn.value in s.db.live && s.db.owner == None)
            && (e'.pc == Won ==> d'.owner == e.conn && d'.depth == 1 && e'.conn == e.conn)
            && (e'.pc != Won ==> e'.pc == Sleeping && e'.conn == None)
            && (e'.pc != Won && answer.Replied? ==> d'.owner == s.db.owner)
            && (e'.pc != Won && !lingers ==> d'.owner != e.conn)
  {
    RunLockOk(NewSystem(n), run);
  }

  // Stepping down with a connection that closes at once frees the lock.
  lemma SteppingDownFrees(n: nat, run: seq<Turn>, i: nat, step: Step)
    requires i < n && Run(NewSystem(n), run).electors[i].pc == Holding
    requires step in {SeeShutdown(false), Heartbeat(Replied, false), Heartbeat(Broken(false, false), false)}
    ensures var s := Run(NewSystem(n), run);
            var e := s.electors[i];
            var (d', e') := Move(s.db, e, step);
            e'.pc == Released ==> e.conn.Some? && e.conn.value !in d'.live && d'.owner != e.conn
  {
    RunLockOk(NewSystem(n), run);
  }

  /** In every reachable state in which the lock is free, an instance at the head of its loop that is not
      shutting down can become leader, with its scheduler's three loops running. */
  lemma CanBeElected(n: nat, run: seq<Turn>, i: nat) returns (more: seq<Turn>)
    requires i < n
    requires var s := Run(NewSystem(n), run);
             s.electors[i].pc == Top && !s.electors[i].shutdown && s.db.owner == None
    ensures var s' := Run(NewSystem(n), run + more);
            var e := s'.electors[i];
            && e.pc == Holding && e.leader && Owns(s'.db, e)
            && e.sched.running && Alive(e.sched.loops) == 3
  {
    RunLockOk(NewSystem(n), run);
    more := TakesOffice(Run(NewSystem(n), run), i);
    RunConcat(NewSystem(n), run, more);
    RunLockOk(NewSystem(n), run + more);
    RunLifeOk(n, run + more, i);
  }

  lemma TakesOffice(s: System, i: nat) returns (run: seq<Turn>)
    requires i < |s.electors| && s.electors[i].pc == Top && !s.electors[i].shutdown && !Open(s.electors[i])
    requires s.db.owner == None
    ensures var s' := Run(s, run);
            var e := s'.electors[i];
            e.pc == Holding && e.leader && !e.shutdown && s'.db.owner == e.conn
  {
    var first := Rises(s, i);
    var t := Turn(i, CallAcquire);
    RunConcat(s, first, [t]);
    RunCons(Run(s, first), t, []);
    assert [t] + [] == [t];
    run := first + [t];
  }

  // ---------- no instance is trapped ----------

  lemma RunCons(s: System, t: Turn, run: seq<Turn>)
    ensures Run(s, [t] + run) == Run(Next(s, t), run)
  {
    assert [t][..0] == [];
    assert Run(s, [t]) == Next(s, t);
    RunConcat(s, [t], run);
  }

  // How far an instance is from the head of its loop.
  function Distance(pc: Pc): nat {
    match pc
    case Top | Returned => 0
    case Sleeping | Stopping => 1
    case Connecting | Trying | Demoted => 2
    case Released => 3
    case Holding => 4
    case Promoted => 5
    case Won => 6
  }

  lemma {:induction false} SomeAlive(loops: seq<Loop>) returns (k: nat)
    requires Alive(loops) > 0
    ensures k < |loops| && !loops[k].Ended?
  {
    if loops == [] {
    } else {
      k := |loops| - 1;
      if loops[k].Ended? { k := SomeAlive(loops[..k]); }
    }
  }

  // A step of the instance that brings it closer.
  lemma StepCloser(d: Server, e: Elector) returns (step: Step)
    requires ElectorOk(d, e) && LifeOk(e) && e.pc != Top && e.pc != Returned
    ensures var e' := Move(d, e, step).1;
            && e'.pc != Returned
            && (Distance(e'.pc) < Distance(e.pc)
                || (e'.pc == e.pc && Remaining(e'.sched.loops) < Remaining(e.sched.loops)))
  {
    match e.pc
    case Connecting => step := Connect(false);
    case Trying => step := TryQuery(Broken(false, false), false);
    case Sleeping => step := WakeUp;
    case Won => step := Promote;
    case Promoted => step := CallAcquire;
    case Holding => step := Heartbeat(Broken(false, false), false);
    case Released => step := Demote;
    case Demoted => step := CallRelease;
    case Stopping =>
      if e.sched.wg == 0 { step := WaitDone; } else { step := LoopCloser(d, e); }
  }

  lemma LoopCloser(d: Server, e: Elector) returns (step: Step)
    requires LifeOk(e) && e.pc == Stopping && e.sched.wg > 0
    ensures var e' := Move(d, e, step).1; e'.pc == Stopping && Remaining(e'.sched.loops) < Remaining(e.sched.loops)
  {
    var k := SomeAlive(e.sched.loops);
    var l := e.sched.loops[k];
    assert LoopOk(e.sched, l);
    if l.Spawned? {
      step := LoopRuns(k);
      RemainingUpdate(e.sched.loops, k, Looping(l.start, e.sched.ctx));
    } else {
      step := LoopExits(k);
      RemainingUpdate(e.sched.loops, k, Ended(l.start, l.ctx));
    }
  }

  lemma {:induction false} ReachTop(s: System, i: nat) returns (run: seq<Turn>)
    requires LockOk(s) && i < |s.electors| && LifeOk(s.electors[i]) && s.electors[i].pc != Returned
    ensures Run(s, run).electors[i].pc == Top
    decreases Distance(s.electors[i].pc), Remaining(s.electors[i].sched.loops)
  {
    if s.electors[i].pc == Top {
      run := [];
    } else {
      var step := StepCloser(s.db, s.electors[i]);
      NextLockOk(s, Turn(i, step));
      MoveLifeOk(s.db, s.electors[i], step);
      var rest := ReachTop(Next(s, Turn(i, step)), i);
      RunCons(s, Turn(i, step), rest);
      run := [Turn(i, step)] + rest;
    }
  }

  /** From every reachable state an instance that has not returned can get back to the head of its loop by
      steps of its own and its loops, so a scheduler that is being stopped does stop. */
  lemma NeverTrapped(n: nat, run: seq<Turn>, i: nat) returns (more: seq<Turn>)
    requires i < n && Run(NewSystem(n), run).electors[i].pc != Returned
    ensures Run(NewSystem(n), run + more).electors[i].pc == Top
  {
    RunLockOk(NewSystem(n), run);
    RunLifeOk(n, run, i);
    more := ReachTop(Run(NewSystem(n), run), i);
    RunConcat(NewSystem(n), run, more);
  }

  lemma {:induction false} ShutdownStays(s: System, run: seq<Turn>, i: nat)
    requires i < |s.electors| && s.electors[i].shutdown
    ensures Run(s, run).electors[i].shutdown
  {
    if run == [] {
    } else {
      ShutdownStays(s, run[..|run| - 1], i);
    }
  }

  /** From every reachable state a shutdown can make Start return, with the scheduler stopped by then. */
  lemma CanReturn(n: nat, run: seq<Turn>, i: nat) returns (more: seq<Turn>)
    requires i < n
    ensures var e := Run(NewSystem(n), run + more).electors[i]; e.pc == Returned && !e.sched.running && e.sched.wg == 0
  {
    more := [];
    assert run + [] == run;
    if Run(NewSystem(n), run).electors[i].pc != Returned {
      more := ToReturn(n, run, i);
    }
    RunLifeOk(n, run + more, i);
  }

  lemma ToReturn(n: nat, run: seq<Turn>, i: nat) returns (more: seq<Turn>)
    requires i < n && Run(NewSystem(n), run).electors[i].pc != Returned
    ensures Run(NewSystem(n), run + more).electors[i].pc == Returned
  {
    var stop, look := Turn(i, Shutdown), Turn(i, CheckContext);
    RunSnoc(NewSystem(n), run, stop);
    var back := NeverTrapped(n, run + [stop], i);
    var there := run + [stop] + back;
    RunConcat(NewSystem(n), run + [stop], back);
    ShutdownStays(Run(NewSystem(n), run + [stop]), back, i);
    RunSnoc(NewSystem(n), there, look);
    more := [stop] + back + [look];
    assert run + more == there + [look];
  }

  lemma RunSnoc(s: System, run: seq<Turn>, t: Turn)
    ensures Run(s, run + [t]) == Next(Run(s, run), t)
  {
    assert (run + [t])[..|run|] == run;
  }

  // At the head of its loop an instance returns exactly when it is shutting down, and otherwise connects.
  lemma ReturnsOnShutdown(n: nat, run: seq<Turn>, i: nat)
    requires i < n && Run(NewSystem(n), run).electors[i].pc == Top
    ensures var s := Run(NewSystem(n), run);
            Move(s.db, s.electors[i], CheckContext).1.pc == if s.electors[i].shutdown then Returned else Connecting
  {
    RunLockOk(NewSystem(n), run);
  }
}
