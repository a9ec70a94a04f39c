/** The thread pool: a queue of tasks, a stop flag and workers. Whatever happens under
    the queue's lock is one step; a task runs between two steps of its worker. */
module Pool {

  /** Tasks are told apart only as far as their callers do. */
  type Task = nat

  datatype Worker = Idle | Busy(task: Task) | Gone

  /** The pool with its histories: what `Enqueue` took, what workers took off the
      queue, what has run to its end. */
  datatype Pool = Pool(
    tasks: seq<Task>, stop: bool, workers: seq<Worker>,
    accepted: seq<Task>, started: seq<Task>, finished: seq<Task>)

  datatype Label = Enqueue(task: Task) | Take(w: nat) | Finish(w: nat) | Exit(w: nat) | Stop

  predicate Enabled(p: Pool, l: Label) {
    match l
    case Enqueue(_) => true
    case Take(w) => w < |p.workers| && p.workers[w] == Idle && p.tasks != []
    case Finish(w) => w < |p.workers| && p.workers[w].Busy?
    case Exit(w) => w < |p.workers| && p.workers[w] == Idle && p.stop && p.tasks == []
    case Stop => true
  }

  /** A stopped pool takes no task: `Enqueue` throws. */
  function Step(p: Pool, l: Label): Pool
    requires Enabled(p, l)
  {
    match l
    case Enqueue(t) => if p.stop then p else p.(tasks := p.tasks + [t], accepted := p.accepted + [t])
    case Take(w) =>
      p.(tasks := p.tasks[1..], started := p.started + [p.tasks[0]], workers := p.workers[w := Busy(p.tasks[0])])
    case Finish(w) => p.(finished := p.finished + [p.workers[w].task], workers := p.workers[w := Idle])
    case Exit(w) => p.(workers := p.workers[w := Gone])
    case Stop => p.(stop := true)
  }

  function Fresh(threads: nat): Pool {
    Pool([], false, seq(threads, _ => Idle), [], [], [])
  }

  predicate Run(p: Pool, ls: seq<Label>)
    decreases |ls|
  {
    ls == [] || (Enabled(p, ls[0]) && Run(Step(p, ls[0]), ls[1..]))
  }

  function End(p: Pool, ls: seq<Label>): Pool
    requires Run(p, ls)
    decreases |ls|
  {
    if ls == [] then p else End(Step(p, ls[0]), ls[1..])
  }

  // What workers hold.

  function Held(w: Worker): multiset<Task> {
    if w.Busy? then multiset{w.task} else multiset{}
  }

  function Running(ws: seq<Worker>): multiset<Task> {
    if ws == [] then multiset{} else Held(ws[0]) + Running(ws[1..])
  }

  function Effort(w: Worker): nat {
    match w
    case Idle => 1
    case Busy(_) => 2
    case Gone => 0
  }

  function Efforts(ws: seq<Worker>): nat {
    if ws == [] then 0 else Effort(ws[0]) + Efforts(ws[1..])
  }

  /** How many steps the workers of a stopped pool have left. */
  function Remaining(p: Pool): nat {
    2 * |p.tasks| + Efforts(p.workers)
  }

  lemma {:induction false} HeldUpdate(ws: seq<Worker>, i: nat, w: Worker)
    requires i < |ws|
    ensures Running(ws[i := w]) + Held(ws[i]) == Running(ws) + Held(w)
  {
    if i == 0 {
      assert ws[0 := w][1..] == ws[1..];
    } else {
      var rest := ws[1..];
      HeldUpdate(rest, i - 1, w);
      assert ws[i := w][1..] == rest[i - 1 := w];
      var before, after := Running(rest), Running(rest[i - 1 := w]);
      Regroup(Held(ws[0]), after, Held(rest[i - 1]), before, Held(w));
    }
  }

  lemma Regroup(a: multiset<Task>, b: multiset<Task>, c: multiset<Task>, d: multiset<Task>, e: multiset<Task>)
    requires b + c == d + e
    ensures a + b + c == a + d + e
  {
    assert a + b + c == a + (b + c);
    assert a + d + e == a + (d + e);
  }

  lemma {:induction false} EffortUpdate(ws: seq<Worker>, i: nat, w: Worker)
    requires i < |ws|
    ensures Efforts(ws[i := w]) + Effort(ws[i]) == Efforts(ws) + Effort(w)
  {
    if i == 0 {
      assert ws[0 := w][1..] == ws[1..];
    } else {
      EffortUpdate(ws[1..], i - 1, w);
      assert ws[i := w][1..] == ws[1..][i - 1 := w];
    }
  }

  lemma {:induction false} NothingHeld(ws: seq<Worker>)
    requires forall w <- ws :: !w.Busy?
    ensures Running(ws) == multiset{}
  {
    if ws != [] {
      NothingHeld(ws[1..]);
    }
  }

  // Every run.

  /** No task is lost, invented, doubled or overtaken in the queue. */
  ghost predicate Conserved(p: Pool) {
    && p.accepted == p.started + p.tasks
    && multiset(p.started) == multiset(p.finished) + Running(p.workers)
    && (forall i | 0 <= i < |p.workers| && p.workers[i] == Gone :: p.stop && p.tasks == [])
  }

  lemma StepConserves(p: Pool, l: Label)
    requires Conserved(p) && Enabled(p, l)
    ensures Conserved(Step(p, l))
  {
    match l
    case Enqueue(t) =>
    case Take(w) => TakeConserves(p, w);
    case Finish(w) => FinishConserves(p, w);
    case Exit(w) => ExitConserves(p, w);
    case Stop =>
  }

  lemma TakeConserves(p: Pool, w: nat)
    requires Conserved(p) && Enabled(p, Take(w))
    ensures Conserved(Step(p, Take(w)))
  {
    var t := p.tasks[0];
    assert p.started + p.tasks == p.started + [t] + p.tasks[1..];
    TakeHolds(p.started, t, p.finished, p.workers, w);
  }

  lemma TakeHolds(started: seq<Task>, t: Task, finished: seq<Task>, ws: seq<Worker>, w: nat)
    requires w < |ws| && ws[w] == Idle && multiset(started) == multiset(finished) + Running(ws)
    ensures multiset(started + [t]) == multiset(finished) + Running(ws[w := Busy(t)])
  {
    HeldUpdate(ws, w, Busy(t));
    Regroup(multiset(finished), Running(ws[w := Busy(t)]), multiset{}, Running(ws), multiset{t});
  }

  lemma FinishConserves(p: Pool, w: nat)
    requires Conserved(p) && Enabled(p, Finish(w))
    ensures Conserved(Step(p, Finish(w)))
  {
    FinishHolds(p.started, p.finished, p.workers, w);
  }

  lemma FinishHolds(started: seq<Task>, finished: seq<Task>, ws: seq<Worker>, w: nat)
    requires w < |ws| && ws[w].Busy? && multiset(started) == multiset(finished) + Running(ws)
    ensures multiset(started) == multiset(finished + [ws[w].task]) + Running(ws[w := Idle])
  {
    var f, t, before, after := multiset(finished), ws[w].task, Running(ws), Running(ws[w := Idle]);
    HeldUpdate(ws, w, Idle);
    assert before == after + multiset{t};
    assert f + (after + multiset{t}) == f + multiset{t} + after;
    assert multiset(finished + [t]) == f + multiset{t};
  }

  lemma ExitConserves(p: Pool, w: nat)
    requires Conserved(p) && Enabled(p, Exit(w))
    ensures Conserved(Step(p, Exit(w)))
  {
    HeldUpdate(p.workers, w, Gone);
    var after := Running(p.workers[w := Gone]);
    assert after == after + Held(p.workers[w]);
    assert Running(p.workers) == Running(p.workers) + Held(Gone);
  }

  lemma FreshConserves(threads: nat)
    ensures Conserved(Fresh(threads))
  {
    NothingHeld(Fresh(threads).workers);
  }

  lemma {:induction false} RunConserves(p: Pool, ls: seq<Label>)
    requires Conserved(p) && Run(p, ls)
    ensures Conserved(End(p, ls))
    decreases |ls|
  {
    if ls != [] {
      StepConserves(p, ls[0]);
      RunConserves(Step(p, ls[0]), ls[1..]);
    }
  }

  /** Tasks start in the order in which they were accepted, and each task accepted has
      been finished, is running or is waiting: exactly one of the three. */
  lemma AcceptedOnce(threads: nat, ls: seq<Label>)
    requires Run(Fresh(threads), ls)
    ensures var p := End(Fresh(threads), ls);
            p.accepted == p.started + p.tasks &&
            multiset(p.accepted) == multiset(p.finished) + Running(p.workers) + multiset(p.tasks)
  {
    FreshConserves(threads);
    RunConserves(Fresh(threads), ls);
  }

  /** Once a pool that had a worker has none left, every task it accepted has run. */
  lemma GoneMeansDone(threads: nat, ls: seq<Label>)
    requires 0 < threads && Run(Fresh(threads), ls)
    requires forall w <- End(Fresh(threads), ls).workers :: w == Gone
    ensures multiset(End(Fresh(threads), ls).finished) == multiset(End(Fresh(threads), ls).accepted)
    ensures End(Fresh(threads), ls).tasks == []
  {
    FreshConserves(threads);
    RunConserves(Fresh(threads), ls);
    WorkersStay(Fresh(threads), ls);
    AllGone(End(Fresh(threads), ls));
  }

  lemma AllGone(p: Pool)
    requires Conserved(p) && p.workers != [] && forall w <- p.workers :: w == Gone
    ensures p.tasks == [] && multiset(p.finished) == multiset(p.accepted)
  {
    NothingHeld(p.workers);
    assert p.workers[0] in p.workers;
    assert p.started + p.tasks == p.started;
  }

  lemma {:induction false} WorkersStay(p: Pool, ls: seq<Label>)
    requires Run(p, ls)
    ensures |End(p, ls).workers| == |p.workers|
    decreases |ls|
  {
    if ls != [] {
      WorkersStay(Step(p, ls[0]), ls[1..]);
    }
  }

  /** Without a worker nothing that is accepted ever runs. */
  lemma NoWorkerNoWork(ls: seq<Label>)
    requires Run(Fresh(0), ls)
    ensures End(Fresh(0), ls).finished == [] && End(Fresh(0), ls).tasks == End(Fresh(0), ls).accepted
  {
    var p := End(Fresh(0), ls);
    FreshConserves(0);
    RunConserves(Fresh(0), ls);
    WorkersStay(Fresh(0), ls);
    NeverStarted(Fresh(0), ls);
    assert p.accepted == p.started + p.tasks;
  }

  lemma {:induction false} NeverStarted(p: Pool, ls: seq<Label>)
    requires Run(p, ls) && p.workers == [] && p.started == [] && p.finished == []
    ensures End(p, ls).started == [] && End(p, ls).finished == []
    decreases |ls|
  {
    if ls != [] {
      NeverStarted(Step(p, ls[0]), ls[1..]);
    }
  }

  // One worker.

  /** What a single worker has started is what it has finished and what it is at. */
  ghost predicate InOrder(p: Pool) {
    && |p.workers| == 1
    && p.started == p.finished + if p.workers[0].Busy? then [p.workers[0].task] else []
  }

  /** A single worker finishes tasks in the order in which they were accepted. */
  lemma StepInOrder(p: Pool, l: Label)
    requires InOrder(p) && Enabled(p, l)
    ensures InOrder(Step(p, l))
  {
  }

  lemma {:induction false} SingleWorkerInOrder(p: Pool, ls: seq<Label>)
    requires InOrder(p) && Run(p, ls)
    ensures InOrder(End(p, ls))
    decreases |ls|
  {
    if ls != [] {
      StepInOrder(p, ls[0]);
      SingleWorkerInOrder(Step(p, ls[0]), ls[1..]);
    }
  }

  lemma SingleWorkerFromStart(ls: seq<Label>)
    requires Run(Fresh(1), ls)
    ensures End(Fresh(1), ls).finished <= End(Fresh(1), ls).accepted
  {
    FreshConserves(1);
    RunConserves(Fresh(1), ls);
    SingleWorkerInOrder(Fresh(1), ls);
  }

  /** With two workers or more the second task can overtake the first. */
  lemma SecondOvertakesFirst(n: nat) returns (ls: seq<Label>)
    requires 2 <= n
    ensures Run(Fresh(n), ls) && !(End(Fresh(n), ls).finished <= End(Fresh(n), ls).accepted)
  {
    var p0 := Fresh(n);
    var p1 := Step(p0, Enqueue(1));
    var p2 := Step(p1, Enqueue(2));
    var p3 := Step(p2, Take(0));
    var p4 := Step(p3, Take(1));
    var p5 := Step(p4, Finish(1));
    OneMore(p4, Finish(1), []);
    OneMore(p3, Take(1), [Finish(1)] + []);
    OneMore(p2, Take(0), [Take(1)] + ([Finish(1)] + []));
    OneMore(p1, Enqueue(2), [Take(0)] + ([Take(1)] + ([Finish(1)] + [])));
    OneMore(p0, Enqueue(1), [Enqueue(2)] + ([Take(0)] + ([Take(1)] + ([Finish(1)] + []))));
    ls := [Enqueue(1)] + ([Enqueue(2)] + ([Take(0)] + ([Take(1)] + ([Finish(1)] + []))));
    assert p5.finished == [2] && p5.accepted == [1, 2];
    assert p5.finished[0] != p5.accepted[0];
  }

  lemma OneMore(p: Pool, l: Label, more: seq<Label>)
    requires Enabled(p, l) && Run(Step(p, l), more)
    ensures Run(p, [l] + more) && End(p, [l] + more) == End(Step(p, l), more)
  {
    assert ([l] + more)[1..] == more;
  }

  /** Tasks are sure to finish in the order in which they were accepted if and only if
      there is at most one worker. */
  lemma OrderedExactly(n: nat)
    ensures (forall ls | Run(Fresh(n), ls) :: End(Fresh(n), ls).finished <= End(Fresh(n), ls).accepted) <==> n <= 1
  {
    if 2 <= n {
      var ls := SecondOvertakesFirst(n);
    } else {
      forall ls | Run(Fresh(n), ls)
        ensures End(Fresh(n), ls).finished <= End(Fresh(n), ls).accepted
      {
        if n == 1 {
          SingleWorkerFromStart(ls);
        } else {
          NoWorkerNoWork(ls);
        }
      }
    }
  }

  // Stopping.

  predicate OfWorker(l: Label) {
    l.Take? || l.Finish? || l.Exit?
  }

  lemma WorkerSteps(p: Pool, l: Label)
    requires p.stop && Enabled(p, l)
    ensures Step(p, l).stop
    ensures OfWorker(l) ==> Remaining(Step(p, l)) < Remaining(p)
    ensures !OfWorker(l) ==> Step(p, l) == p
  {
    match l
    case Take(w) => EffortUpdate(p.workers, w, Busy(p.tasks[0]));
    case Finish(w) => EffortUpdate(p.workers, w, Idle);
    case Exit(w) => EffortUpdate(p.workers, w, Gone);
    case _ =>
  }

  /** The step a worker that is not gone can take in a stopped pool. */
  function Next(p: Pool, w: nat): (l: Label)
    requires w < |p.workers| && p.workers[w] != Gone && p.stop
    ensures OfWorker(l) && Enabled(p, l)
  {
    if p.workers[w].Busy? then Finish(w) else if p.tasks != [] then Take(w) else Exit(w)
  }

  /** A stopped pool winds down: its workers take no more steps than remain, and only
      when all are gone can none of them move. */
  lemma {:induction false} StoppedPoolEnds(p: Pool, ls: seq<Label>)
    requires p.stop && Run(p, ls) && forall l <- ls :: OfWorker(l)
    ensures |ls| + Remaining(End(p, ls)) <= Remaining(p)
    ensures Stuck(End(p, ls)) <==> forall w <- End(p, ls).workers :: w == Gone
    decreases |ls|
  {
    if ls != [] {
      WorkerSteps(p, ls[0]);
      StoppedPoolEnds(Step(p, ls[0]), ls[1..]);
    } else {
      StuckMeansGone(p);
    }
  }

  ghost predicate Stuck(p: Pool) {
    forall l | OfWorker(l) :: !Enabled(p, l)
  }

  lemma StuckMeansGone(p: Pool)
    requires p.stop
    ensures Stuck(p) <==> forall w <- p.workers :: w == Gone
  {
    if Stuck(p) {
      forall i | 0 <= i < |p.workers| ensures p.workers[i] == Gone {
        if p.workers[i] != Gone {
          var l := Next(p, i);
        }
      }
    } else {
      var l :| OfWorker(l) && Enabled(p, l);
      assert p.workers[l.w] in p.workers;
    }
  }

  lemma MoveWindsDown(p: Pool, w: nat)
    requires Conserved(p) && p.stop && w < |p.workers| && p.workers[w] != Gone
    ensures var q := Step(p, Next(p, w));
            Conserved(q) && q.stop && q.accepted == p.accepted && Remaining(q) < Remaining(p) &&
            |q.workers| == |p.workers| &&
            forall i | 0 <= i < |p.workers| && p.workers[i] == Gone :: q.workers[i] == Gone
  {
    StepConserves(p, Next(p, w));
    WorkerSteps(p, Next(p, w));
  }

  // The pool as an object.

  class ThreadPool {
    var tasks: seq<Task>
    var stop: bool
    var workers: seq<Worker>
    ghost var accepted: seq<Task>
    ghost var started: seq<Task>
    ghost var finished: seq<Task>

    ghost function Value(): Pool
      reads this
    {
      Pool(tasks, stop, workers, accepted, started, finished)
    }

    constructor (threads: nat)
      ensures Value() == Fresh(threads)
    {
      tasks, stop := [], false;
      workers := seq(threads, _ => Idle);
      accepted, started, finished := [], [], [];
    }

    /** The result is false where the source throws. */
    method Enqueue(t: Task) returns (ok: bool)
      modifies this
      ensures ok == !old(stop)
      ensures Value() == Step(old(Value()), Label.Enqueue(t))
    {
      if stop {
        return false;
      }
      tasks := tasks + [t];
      accepted := accepted + [t];
      return true;
    }

    /** A worker under the lock, once its wait is over: it takes the front task or, when
        the pool is stopped and the queue empty, leaves. */
    method Fetch(w: nat) returns (task: Task, leave: bool)
      requires w < |workers| && workers[w] == Idle && (stop || tasks != [])
      modifies this
      ensures leave <==> old(tasks) == []
      ensures leave ==> Value() == Step(old(Value()), Exit(w))
      ensures !leave ==> task == old(tasks)[0] && Value() == Step(old(Value()), Take(w))
    {
      task := 0;
      if stop && tasks == [] {
        workers := workers[w := Gone];
        return task, true;
      }
      task := tasks[0];
      tasks := tasks[1..];
      workers := workers[w := Busy(task)];
      started := started + [task];
      leave := false;
    }

    method Complete(w: nat)
      requires w < |workers| && workers[w].Busy?
      modifies this
      ensures Value() == Step(old(Value()), Finish(w))
    {
      finished := finished + [workers[w].task];
      workers := workers[w := Idle];
    }

    /** One step of a worker of a stopped pool. */
    method Move(w: nat)
      requires w < |workers| && workers[w] != Gone && stop
      modifies this
      ensures Value() == Step(old(Value()), Next(old(Value()), w))
    {
      if workers[w].Busy? {
        Complete(w);
      } else {
        var _, _ := Fetch(w);
      }
    }

    /** The destructor: the flag is set, and the workers are joined. `turns` says who
        moves when; a worker that is gone passes its turn on to the next. */
    method Destroy(turns: nat -> nat)
      requires Conserved(Value())
      modifies this
      ensures stop && Conserved(Value()) && accepted == old(accepted)
      ensures forall w <- workers :: w == Gone
      ensures workers != [] ==> tasks == [] && multiset(finished) == multiset(accepted)
    {
      stop := true;
      StepConserves(old(Value()), Stop);
      var turn := 0;
      var w := 0;
      while w < |workers|
        invariant stop && Conserved(Value()) && accepted == old(accepted)
        invariant w <= |workers| && forall i | 0 <= i < w :: workers[i] == Gone
        decreases Remaining(Value()), |workers| - w
      {
        if workers[w] == Gone {
          w := w + 1;
        } else {
          var mover := turns(turn);
          if mover >= |workers| || workers[mover] == Gone {
            mover := w;
          }
          turn := turn + 1;
          MoveWindsDown(Value(), mover);
          Move(mover);
        }
      }
      if workers != [] {
        AllGone(Value());
      }
    }
  }
}
