/** What the goroutine of a LoadSnapshot and the requests about nodes come to, in terms of the
    nodes, their processes and what the outside answered (server/network.go:361-545). */
module InfoResults {
  import opened Common
  import opened Flags
  import opened Network
  import opened Runs
  import opened BeaconSet
  import opened InfoCache
  import opened NodeResults

  // ---------- the operation of a request ----------

  /** What the operation of a request does, and what it reports. */
  ghost predicate Operated(s: State, op: Op, o: Outcome)
    requires WellFormed(s) && Legal(s, op)
  {
    match op
    case Add(c, e) => if s.stopped then o == Outcome(s, Some(NetworkStopped)) else exists given :: Added(s, c, e, o, given)
    case Remove(name, code) => if s.stopped then o == Outcome(s, Some(NetworkStopped)) else Removed(s, name, code, o)
    case Pause(name, code) => if s.stopped then o == Outcome(s, Some(NetworkStopped)) else PausedAs(s, name, code, o)
    case Resume(name, e) => Resumed(s, name, e, o)
    case Restart(name, v, code, e) => RestartTried(s, name, v, code, e, o) && (o.err.None? ==> Restarted(s, name, v, e, o.s))
    case _ => false
  }

  lemma OperationMeans(s: State, op: Op)
    requires WellFormed(s) && Identified(s) && NodeOp(op) && Legal(s, op)
    ensures Operated(s, op, Outcome(Do(s, op), Failure(s, op)))
  {
    hide AddNode, RemoveNode, PauseNode, ResumeNode, RestartNode, Added, Removed, PausedAs, Resumed, RestartTried, Restarted;
    match op
    case Add(c, e) => AddNodeMeans(s, c, e);
    case Remove(name, code) => RemoveNodeMeans(s, name, code);
    case Pause(name, code) => PauseNodeMeans(s, name, code);
    case Resume(name, e) => ResumeNodeMeans(s, name, e);
    case Restart(name, v, code, e) =>
      RestartNodeFails(s, name, v, code, e);
      if Failure(s, op).None? { RestartNodeMeans(s, name, v, code, e); }
  }

  /** The same of the network that a server holds. */
  ghost predicate OperatedAs(s: State, op: Op, nw: Option<State>, err: Option<Error>) {
    WellFormed(s) && Identified(s) && Legal(s, op) ==> nw.Some? && Operated(s, op, Outcome(nw.value, err))
  }

  lemma OperationIs(s: State, op: Op)
    requires WellFormed(s) && NodeOp(op) && Legal(s, op)
    ensures OperatedAs(s, op, Some(Do(s, op)), Failure(s, op))
  {
    hide Operated, Do, Failure;
    if Identified(s) { OperationMeans(s, op); }
  }

  /** Listed objects that are still entries are as these are, and the others as they were. */
  ghost predicate Followed(before: map<string, Node>, now: map<string, Node>, nodes: map<string, Node>) {
    && now.Keys == before.Keys
    && (forall n :: n in before && n in now ==>
          now[n] == if n in nodes && nodes[n].pid == before[n].pid then nodes[n] else before[n])
  }

  lemma ListedFollow(r: Race, net: State)
    ensures var r' := Changed(r, net);
            && r' == r.(net := net, phase := r'.phase)
            && (r.phase.Copied? ==> r'.phase.Copied? && Followed(r.phase.todo, r'.phase.todo, net.nodes))
            && (r.phase.Rebuilding? ==> r'.phase.Rebuilding? && Followed(r.phase.todo, r'.phase.todo, net.nodes))
            && (!r.phase.Copied? && !r.phase.Rebuilding? ==> r'.phase == r.phase)
  {
  }

  // ---------- the locks ----------

  /** The goroutine and a request do not hold lc.lock at the same time. */
  ghost predicate Apart(d: Duo) {
    (d.r.phase.Waiting? || d.r.phase.Listing? || d.r.phase.Copied? || d.r.phase.Rebuilding?) ==>
      (d.q.Making? ==> !d.q.locked) && (d.q.Writing? ==> !d.q.locked)
  }

  lemma StepKeepsApart(d: Duo, a: Act)
    requires Apart(d) && Enabled(d, a)
    ensures Apart(Step(d, a))
  {
    hide Do, Failure, TrackedFlag, InfoOf, Healthy, Synced;
  }

  /** lc.lock excludes them, in every run. */
  lemma {:induction false} LocksExclude(d: Duo, run: seq<Act>)
    requires Apart(d) && InfoCache.Possible(d, run)
    ensures Apart(After(d, run))
    decreases |run|
  {
    hide Apart, Step, Enabled;
    if run != [] {
      StepKeepsApart(d, run[0]);
      LocksExclude(Step(d, run[0]), run[1..]);
    }
  }

  /** While the goroutine waits for healthy nodes, with the lock of the network, no operation
      changes an entry or a flag. */
  lemma WaitHoldsNetwork(d: Duo, a: Act)
    requires d.r.phase.Waiting? && Enabled(d, a)
    ensures var net := Step(d, a).r.net; net.nodes == d.r.net.nodes && net.store == d.r.net.store && net.beacons == d.r.net.beacons
  {
    hide Do, Failure, TrackedFlag, InfoOf, Healthy, Synced;
  }

  // ---------- the goroutine by itself ----------

  ghost predicate Alone(run: seq<Act>) {
    forall a :: a in run ==> !a.Requests?
  }

  ghost predicate SomeUnpaused(s: State) {
    exists n :: n in s.nodes && !s.nodes[n].paused
  }

  ghost predicate AllReadable(s: State) {
    forall n :: n in s.nodes ==> !Unreadable(s.store, s.nodes[n])
  }

  /** How the goroutine can end, given what it did and what it was answered. */
  ghost predicate EndsAs(r: Race, done: seq<Act>, err: Option<Error>) {
    match err
    case None =>
      && Right(r, r.field, {}) && r.net.nodes != map[] && AllReadable(r.net)
      && (exists known :: Goes(Update(Some(known))) in done && r.subnets == known)
      && (Goes(WaitEnds(true)) in done || !SomeUnpaused(r.net))
    case Some(e) =>
      || (e == Unhealthy && exists answer :: Goes(WaitEnds(answer)) in done && Ailing(r.net, answer))
      || (e == NoNodes && r.net.nodes == map[])
      || (e == ChainUnavailable && Goes(Update(None)) in done)
      || (e == WrongFlagType && !AllReadable(r.net))
  }

  ghost predicate Waited(r: Race, done: seq<Act>) {
    && (Goes(WaitEnds(true)) in done || !SomeUnpaused(r.net))
    && (Goes(WaitEnds(false)) in done ==> !SomeUnpaused(r.net))
  }

  /** How far the goroutine has come. */
  ghost predicate Underway(r: Race, done: seq<Act>) {
    && WellFormed(r.net)
    && match r.phase
       case Queued => Goes(WaitEnds(false)) !in done
       case Waiting => Goes(WaitEnds(false)) !in done
       case Listing => Waited(r, done)
       case Copied(todo) => Waited(r, done) && todo == r.net.nodes
       case Rebuilding(todo) =>
         && Waited(r, done) && Right(r, r.field, todo.Keys)
         && (forall n :: n in todo ==> n in r.net.nodes && todo[n] == r.net.nodes[n])
         && (forall n :: n in r.net.nodes && n !in todo ==> !Unreadable(r.net.store, r.net.nodes[n]))
       case Finished(err) =>
         EndsAs(r, done, err) && (Goes(WaitEnds(false)) in done && SomeUnpaused(r.net) ==> err == Some(Unhealthy))
  }

  lemma WaitKeepsUnderway(r: Race, done: seq<Act>, answer: bool)
    requires Underway(r, done) && CanGo(r, WaitEnds(answer))
    ensures Underway(Go(r, WaitEnds(answer)), done + [Goes(WaitEnds(answer))])
  {
    hide Right;
    var done' := done + [Goes(WaitEnds(answer))];
    assert Goes(WaitEnds(answer)) in done';
    assert forall a :: a in done' <==> a in done || a == Goes(WaitEnds(answer));
    HealthyMeans(r.net, answer);
  }

  lemma WriteKeepsUnderway(r: Race, done: seq<Act>, n: string)
    requires Underway(r, done) && CanGo(r, Write(n))
    ensures Underway(Go(r, Write(n)), done + [Goes(Write(n))])
  {
    hide TrackedFlag, InfoOf, Unreadable, Right, SomeUnpaused, Ailing, Go;
    var node := r.phase.todo[n];
    InfoDescribes(r.net.store, node);
    if TrackedFlag(r.net.store, node).Ok? {
      WriteStep(r, n);
      OneLessToDo(r, done, n, Go(r, Write(n)));
    } else {
      WriteFails(r, n);
      assert forall a :: a in done + [Goes(Write(n))] <==> a in done || a == Goes(Write(n));
    }
  }

  lemma OneLessToDo(r: Race, done: seq<Act>, n: string, r': Race)
    requires Underway(r, done) && r.phase.Rebuilding? && n in r.phase.todo && !Unreadable(r.net.store, r.phase.todo[n])
    requires r'.net == r.net && r'.phase == Rebuilding(r.phase.todo - {n}) && Right(r', r'.field, r'.phase.todo.Keys)
    ensures Underway(r', done + [Goes(Write(n))])
  {
    hide Unreadable, Right, SomeUnpaused, EndsAs;
    assert forall a :: a in done + [Goes(Write(n))] <==> a in done || a == Goes(Write(n));
  }

  lemma WriteFails(r: Race, n: string)
    requires CanGo(r, Write(n)) && TrackedFlag(r.net.store, r.phase.todo[n]).Err?
    ensures Go(r, Write(n)) == r.(phase := Finished(Some(WrongFlagType)))
  {
  }

  lemma MadeIsRight(r: Race)
    ensures Right(Made(r), Made(r).field, r.net.nodes.Keys) && Made(r).field < |Made(r).maps|
  {
  }

  /** A map that describes all nodes is empty only if there are none. */
  lemma RightIsFull(r: Race, a: nat)
    requires Right(r, a, {})
    ensures r.maps[a] == map[] <==> r.net.nodes == map[]
  {
    assert r.net.nodes.Keys - {} == r.net.nodes.Keys;
    if n :| n in r.net.nodes { assert n in r.net.nodes.Keys && n in r.maps[a].Keys; }
  }

  lemma UpdateKeepsUnderway(r: Race, done: seq<Act>, known: Option<seq<string>>)
    requires Underway(r, done) && CanGo(r, Update(known))
    ensures Underway(Go(r, Update(known)), done + [Goes(Update(known))])
  {
    hide TrackedFlag, InfoOf, Unreadable, Ailing;
    assert r.phase.todo.Keys == {};
    RightIsFull(r, r.field);
    hide Right, SomeUnpaused;
    var a := Goes(Update(known));
    assert a in done + [a];
    assert forall x :: x in done + [a] <==> x in done || x == a;
  }

  lemma GoKeepsUnderway(r: Race, done: seq<Act>, m: Move)
    requires Underway(r, done) && CanGo(r, m)
    ensures Underway(Go(r, m), done + [Goes(m)])
  {
    if m.WaitEnds? {
      WaitKeepsUnderway(r, done, m.answer);
    } else if m.Write? {
      WriteKeepsUnderway(r, done, m.name);
    } else if m.Update? {
      UpdateKeepsUnderway(r, done, m.known);
    } else {
      if m.Make? { MadeIsRight(r); }
      hide TrackedFlag, InfoOf, Unreadable, Ailing, Right, SomeUnpaused, EndsAs;
      assert forall a :: a in done + [Goes(m)] <==> a in done || a == Goes(m);
    }
  }

  lemma ExitKeepsUnderway(r: Race, done: seq<Act>, pid: nat, code: int)
    requires Underway(r, done) && pid < |r.net.procs|
    ensures Underway(r.(net := r.net.(procs := r.net.procs[pid := Halt(r.net.procs[pid], code)])), done + [Exits(pid, code)])
  {
    hide TrackedFlag, InfoOf, Unreadable;
    assert forall a :: a in done + [Exits(pid, code)] <==> a in done || a == Exits(pid, code);
  }

  lemma MoreDone(r: Race, done: seq<Act>, pid: nat, code: int)
    requires Underway(r, done)
    ensures Underway(r, done + [Exits(pid, code)])
  {
    hide TrackedFlag, InfoOf, Unreadable, Ailing, Right;
    assert forall a :: a in done + [Exits(pid, code)] <==> a in done || a == Exits(pid, code);
  }

  lemma {:induction false} RunKeepsUnderway(d: Duo, done: seq<Act>, run: seq<Act>)
    requires Underway(d.r, done) && InfoCache.Possible(d, run) && Alone(run)
    ensures Underway(After(d, run).r, done + run)
    decreases |run|
  {
    hide Underway, Go, CanGo, Halt;
    if run == [] {
      assert done + run == done;
    } else {
      assert run[0] in run;
      match run[0] {
        case Goes(m) => GoKeepsUnderway(d.r, done, m);
        case Exits(pid, code) =>
          if pid < |d.r.net.procs| { ExitKeepsUnderway(d.r, done, pid, code); } else { MoreDone(d.r, done, pid, code); }
      }
      hide Step, Enabled;
      RunKeepsUnderway(Step(d, run[0]), done + [run[0]], run[1..]);
      assert (done + [run[0]]) + run[1..] == done + run;
    }
  }

  /** The goroutine of a LoadSnapshot, while no request comes: it finishes without an error
      only once the nodes have answered as healthy, and then every node is described as it is
      and the subnets are those that were asked for; every error has its cause; and if a node
      is not paused and the answer is no, it ends as unhealthy. */
  lemma GoroutineMeans(d: Duo, run: seq<Act>)
    requires d.r.phase.Queued? && WellFormed(d.r.net) && InfoCache.Possible(d, run) && Alone(run)
    ensures var r := After(d, run).r;
            && (r.phase.Finished? ==> EndsAs(r, run, r.phase.err))
            && (Goes(WaitEnds(false)) in run && SomeUnpaused(r.net) ==> r.phase == Finished(Some(Unhealthy)))
  {
    RunKeepsUnderway(d, [], run);
    assert [] + run == run;
  }

  /** One wait, at any point of a request: it ends the goroutine exactly if a node that is not
      paused does not answer, or its process has exited. */
  lemma WaitMeans(r: Race, answer: bool)
    requires r.phase.Waiting? && WellFormed(r.net)
    ensures CanGo(r, WaitEnds(answer))
    ensures Go(r, WaitEnds(answer)) == r.(phase := if Ailing(r.net, answer) then Finished(Some(Unhealthy)) else Listing)
  {
    HealthyMeans(r.net, answer);
  }

  /** It can finish: with healthy nodes and readable flags, whatever the subnets are. */
  lemma GoroutineFinishes(d: Duo, known: seq<string>) returns (run: seq<Act>)
    requires d.r.phase.Queued? && !RequestHolds(d.q) && WellFormed(d.r.net)
    requires !Ailing(d.r.net, true) && AllReadable(d.r.net) && d.r.net.nodes != map[]
    ensures InfoCache.Possible(d, run) && Alone(run)
    ensures var r := After(d, run).r; r.phase == Finished(None) && r.subnets == known && r.net == d.r.net
  {
    var d1 := StepsOn(d, TakeLock);
    HealthyMeans(d1.r.net, true);
    var d2 := StepsOn(d1, WaitEnds(true));
    var d3 := StepsOn(d2, List);
    var d4 := StepsOn(d3, Make);
    MadeIsRight(d3.r);
    var rest := WritesAll(d4, known);
    hide Step, Enabled;
    run := [Goes(TakeLock)] + ([Goes(WaitEnds(true))] + ([Goes(List)] + ([Goes(Make)] + rest)));
    AfterBoth(d3, [Goes(Make)], rest);
    AfterBoth(d2, [Goes(List)], [Goes(Make)] + rest);
    AfterBoth(d1, [Goes(WaitEnds(true))], [Goes(List)] + ([Goes(Make)] + rest));
    AfterBoth(d, [Goes(TakeLock)], [Goes(WaitEnds(true))] + ([Goes(List)] + ([Goes(Make)] + rest)));
  }

  lemma StepsOn(d: Duo, m: Move) returns (d': Duo)
    requires Enabled(d, Goes(m))
    ensures d' == Step(d, Goes(m)) == d.(r := Go(d.r, m)) && InfoCache.Possible(d, [Goes(m)]) && After(d, [Goes(m)]) == d'
  {
    hide Go, CanGo;
    AfterOne(d, Goes(m));
    d' := Step(d, Goes(m));
  }

  lemma {:induction false} WritesAll(d: Duo, known: seq<string>) returns (run: seq<Act>)
    requires d.r.phase.Rebuilding? && d.r.field < |d.r.maps| && AllReadable(d.r.net) && d.r.net.nodes != map[]
    requires Right(d.r, d.r.field, d.r.phase.todo.Keys)
    requires forall n :: n in d.r.phase.todo ==> n in d.r.net.nodes && d.r.phase.todo[n] == d.r.net.nodes[n]
    ensures InfoCache.Possible(d, run) && Alone(run)
    ensures var r := After(d, run).r; r.phase == Finished(None) && r.subnets == known && r.net == d.r.net
    decreases d.r.phase.todo.Keys
  {
    hide TrackedFlag, InfoOf, Unreadable;
    if d.r.phase.todo == map[] {
      assert d.r.phase.todo.Keys == {};
      RightIsFull(d.r, d.r.field);
      var e := StepsOn(d, Update(Some(known)));
      run := [Goes(Update(Some(known)))];
    } else {
      var n :| n in d.r.phase.todo;
      InfoDescribes(d.r.net.store, d.r.phase.todo[n]);
      var e := StepsOn(d, Write(n));
      WriteStep(d.r, n);
      hide Step, Enabled, Go;
      var more := WritesAll(e, known);
      AfterBoth(d, [Goes(Write(n))], more);
      run := [Goes(Write(n))] + more;
    }
  }

  lemma WriteStep(r: Race, n: string)
    requires CanGo(r, Write(n)) && TrackedFlag(r.net.store, r.phase.todo[n]).Ok? && Right(r, r.field, r.phase.todo.Keys)
    requires n in r.net.nodes && r.phase.todo[n] == r.net.nodes[n]
    ensures var r' := Go(r, Write(n));
            && r'.phase == Rebuilding(r.phase.todo - {n}) && r'.net == r.net && r'.field == r.field < |r'.maps|
            && Right(r', r'.field, r'.phase.todo.Keys)
            && r'.phase.todo.Keys == r.phase.todo.Keys - {n}
  {
    hide TrackedFlag, InfoOf;
    assert (r.phase.todo - {n}).Keys == r.phase.todo.Keys - {n};
  }

  // ---------- the rebuilding of a request ----------

  /** What a request has found out about the flags. */
  ghost predicate FlagsSeen(d: Duo) {
    match d.q
    case Writing(rest, _) => forall n :: n in d.r.net.nodes && n !in rest ==> !Unreadable(d.r.net.store, d.r.net.nodes[n])
    case Naming => AllReadable(d.r.net)
    case Storing(_) => AllReadable(d.r.net)
    case Done(_, _) => AllReadable(d.r.net)
    case Failed(err) => err == WrongFlagType && !AllReadable(d.r.net)
    case Operating(_, _) => false
    case _ => true
  }

  lemma StepKeepsFlagsSeen(d: Duo, a: Act)
    requires FlagsSeen(d) && Enabled(d, a)
    ensures FlagsSeen(Step(d, a))
  {
    hide InfoOf, TrackedFlag, Unreadable, Healthy, Do, Failure;
    if a.Requests? && d.q.Writing? && d.q.rest != {} {
      assert a.name in d.r.net.nodes.Keys;
      InfoDescribes(d.r.net.store, d.r.net.nodes[a.name]);
    }
  }

  /** A request whose operation is done, whatever the goroutine does: it fails only if the
      tracked subnets of some node are not a string, and ends only if all are. */
  lemma {:induction false} RequestMeans(d: Duo, run: seq<Act>)
    requires FlagsSeen(d) && InfoCache.Possible(d, run)
    ensures var e := After(d, run);
            && (e.q.Failed? ==> e.q.err == WrongFlagType && !AllReadable(e.r.net))
            && (e.q.Done? ==> AllReadable(e.r.net))
    decreases |run|
  {
    if run != [] {
      StepKeepsFlagsSeen(d, run[0]);
      hide Step, Enabled, FlagsSeen, AllReadable;
      RequestMeans(Step(d, run[0]), run[1..]);
    }
  }
}
