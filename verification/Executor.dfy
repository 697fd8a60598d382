/** The executor: tasks polled in the order they were woken until none is left to poll, then the
    halt (executor.rs). What a poll does is a task's own affair: a script says of each poll
    whether the task finished and which ids were pushed meanwhile. Interrupts also push between
    polls, and between the pop that fails and the masking of interrupts. */
module Executor {
  import opened Core
  import W = Wakeups

  /** The outcome of one poll, and the ids the task and interrupts push during it. */
  datatype Turn = Turn(done: bool, wakes: seq<W.TaskId>)

  /** The polls a task has yet to make; past the last it waits without waking anyone. */
  type Script = seq<Turn>

  /** `gusts` is what interrupts push before each look at the queue to come; `pushed` and `popped`
      are every id so far, in order. */
  datatype State = State(tasks: map<W.TaskId, Script>, queue: seq<W.TaskId>, cached: set<W.TaskId>,
                         gusts: seq<seq<W.TaskId>>, pushed: seq<W.TaskId>, popped: seq<W.TaskId>)

  /** The program stops on a push to a full queue. */
  datatype Ran = Idle(s: State) | QueueFull

  function Wakes(script: Script): nat {
    if script == [] then 0 else |script[0].wakes| + Wakes(script[1..])
  }

  /** All wakes still to come, whatever the order of polls. */
  function Pending(tasks: map<W.TaskId, Script>, ids: set<W.TaskId>): nat
    requires ids <= tasks.Keys
    decreases |ids|
  {
    if ids == {} then 0
    else
      var id := Least(ids);
      Wakes(tasks[id]) + Pending(tasks, ids - {id})
  }

  function Least(ids: set<W.TaskId>): (r: W.TaskId)
    requires ids != {}
    ensures r in ids && forall x :: x in ids ==> r <= x
  {
    LeastExists(ids);
    var r :| r in ids && forall x :: x in ids ==> r <= x;
    r
  }

  lemma LeastExists(ids: set<W.TaskId>)
    requires ids != {}
    ensures exists r :: r in ids && forall x :: x in ids ==> r <= x
  {
    var m := LeastOf(ids);
  }

  lemma LeastOf(ids: set<W.TaskId>) returns (m: W.TaskId)
    requires ids != {}
    ensures m in ids && forall x :: x in ids ==> m <= x
    decreases |ids|
  {
    m :| m in ids;
    var rest := ids - {m};
    assert ids == rest + {m};
    if rest != {} {
      var b := LeastOf(rest);
      if b < m { m := b; }
    }
  }

  lemma {:induction false} PendingWithout(tasks: map<W.TaskId, Script>, ids: set<W.TaskId>, id: W.TaskId)
    requires ids <= tasks.Keys && id in ids
    ensures Pending(tasks, ids) == Wakes(tasks[id]) + Pending(tasks, ids - {id})
    decreases |ids|
  {
    var l := Least(ids);
    if l != id {
      PendingWithout(tasks, ids - {l}, id);
      var r := Least(ids - {id});
      assert l in ids - {id} && r in ids;
      assert r <= l && l <= r;
      assert ids - {l} - {id} == ids - {id} - {l};
    }
  }

  lemma {:induction false} PendingSame(t: map<W.TaskId, Script>, t': map<W.TaskId, Script>, ids: set<W.TaskId>)
    requires ids <= t.Keys && ids <= t'.Keys && forall id :: id in ids ==> t[id] == t'[id]
    ensures Pending(t, ids) == Pending(t', ids)
    decreases |ids|
  {
    if ids != {} { PendingSame(t, t', ids - {Least(ids)}); }
  }

  function Gusts(gs: seq<seq<W.TaskId>>): nat {
    if gs == [] then 0 else 1 + |gs[0]| + Gusts(gs[1..])
  }

  /** All ids still to be popped, queued or to come. */
  function Load(s: State): nat {
    |s.queue| + Pending(s.tasks, s.tasks.Keys) + Gusts(s.gusts)
  }

  function Push(s: State, ids: seq<W.TaskId>): Ran {
    if |s.queue| + |ids| > W.QUEUE_CAPACITY then QueueFull
    else Idle(s.(queue := s.queue + ids, pushed := s.pushed + ids))
  }

  /** Interrupts before the next look at the queue. */
  function Blow(s: State): Ran {
    if s.gusts == [] then Idle(s) else Push(s.(gusts := s.gusts[1..]), s.gusts[0])
  }

  /** One turn of the loop: the next id is popped, and polled if its task is still there. */
  function Once(s: State): Ran
    requires s.queue != []
  {
    var id := s.queue[0];
    var s1 := s.(queue := s.queue[1..], popped := s.popped + [id]);
    if id !in s.tasks then Idle(s1) // a wake outlived its task
    else
      var script := s.tasks[id];
      if script == [] then Idle(s1.(cached := s.cached + {id}))
      else if script[0].done then Push(s1.(tasks := s.tasks - {id}, cached := s.cached - {id}), script[0].wakes)
      else Push(s1.(tasks := s.tasks[id := script[1..]], cached := s.cached + {id}), script[0].wakes)
  }

  /** Every turn uses up a queued id and adds only wakes that were still to come. */
  lemma OnceCosts(s: State)
    requires s.queue != [] && Once(s).Idle?
    ensures var s' := Once(s).s; s'.tasks.Keys <= s.tasks.Keys && Load(s') < Load(s)
  {
    var id, s' := s.queue[0], Once(s).s;
    if id in s.tasks && s.tasks[id] != [] {
      PendingWithout(s.tasks, s.tasks.Keys, id);
      if s.tasks[id][0].done {
        assert s'.tasks.Keys == s.tasks.Keys - {id};
        PendingSame(s.tasks, s'.tasks, s'.tasks.Keys);
      } else {
        assert s'.tasks.Keys == s.tasks.Keys;
        PendingWithout(s'.tasks, s'.tasks.Keys, id);
        PendingSame(s.tasks, s'.tasks, s.tasks.Keys - {id});
      }
    }
  }

  lemma BlowCosts(s: State)
    requires Blow(s).Idle?
    ensures var s' := Blow(s).s; s'.tasks == s.tasks && (Load(s') < Load(s) || s' == s)
  {
  }

  /** Run until a look finds nothing queued. */
  function Drained(s: State): (r: Ran)
    ensures r.Idle? ==> r.s.queue == [] && Load(r.s) <= Load(s)
    decreases Load(s)
  {
    hide Load, Once;
    match Blow(s)
    case QueueFull => QueueFull
    case Idle(b) =>
      BlowCosts(s);
      if b.queue == [] then Idle(b)
      else match Once(b)
        case QueueFull => QueueFull
        case Idle(c) => OnceCosts(b); Drained(c)
  }

  /** Run until the queue is still empty when looked at with interrupts off: then the CPU halts. */
  function Session(s: State): (r: Ran)
    decreases Load(s)
  {
    hide Load, Drained;
    match Drained(s)
    case QueueFull => QueueFull
    case Idle(d) =>
      match Blow(d)
      case QueueFull => QueueFull
      case Idle(b) => BlowCosts(d); if b.queue == [] then Idle(b) else Session(b)
  }

  // --- what a run to the halt leaves ---

  /** The queue is what was pushed and not yet popped, in order; a waker is cached only for a task
      that is still there. */
  predicate Tidy(s: State) {
    s.pushed == s.popped + s.queue && s.cached <= s.tasks.Keys
  }

  /** Later: more was pushed and popped, and no task was added. */
  predicate Later(s: State, s': State) {
    Tidy(s') && s.pushed <= s'.pushed && s.popped <= s'.popped && s'.tasks.Keys <= s.tasks.Keys
  }

  lemma BlowLater(s: State)
    requires Tidy(s) && Blow(s).Idle?
    ensures Later(s, Blow(s).s)
  {
    if s.gusts != [] { assert s.popped + s.queue + s.gusts[0] == s.popped + (s.queue + s.gusts[0]); }
  }

  lemma OnceLater(s: State)
    requires Tidy(s) && s.queue != [] && Once(s).Idle?
    ensures Later(s, Once(s).s)
  {
    var id, rest := s.queue[0], s.queue[1..];
    assert s.popped + s.queue == (s.popped + [id]) + rest;
    if id in s.tasks && s.tasks[id] != [] {
      var ws := s.tasks[id][0].wakes;
      assert (s.popped + [id]) + rest + ws == (s.popped + [id]) + (rest + ws);
    }
  }

  lemma {:induction false} DrainedLater(s: State)
    requires Tidy(s) && Drained(s).Idle?
    ensures Later(s, Drained(s).s)
    decreases Load(s)
  {
    hide Tidy, Once, Load;
    BlowLater(s);
    BlowCosts(s);
    var b := Blow(s).s;
    if b.queue != [] {
      OnceLater(b);
      OnceCosts(b);
      DrainedLater(Once(b).s);
    }
  }

  /** When the CPU halts, every id pushed up to then, by spawning, by polls or by interrupts
      however late, has been popped, in the order of the pushes. */
  lemma {:induction false} HaltAnswersEveryWake(s: State)
    requires Tidy(s) && Session(s).Idle?
    ensures var r := Session(s).s; Later(s, r) && r.queue == [] && r.popped == r.pushed
    decreases Load(s)
  {
    hide Load, Drained, Blow;
    DrainedLater(s);
    var d := Drained(s).s;
    BlowLater(d);
    BlowCosts(d);
    var b := Blow(d).s;
    if b.queue != [] { HaltAnswersEveryWake(b); }
  }

  /** A task's script only loses polls from its front, and a task that leaves has polled to a
      turn that finished it. */
  predicate Progressed(before: Script, after: Option<Script>) {
    if after.Some? then |after.value| <= |before| && after.value == before[|before| - |after.value|..]
    else exists k :: 0 <= k < |before| && before[k].done
  }

  function Get(tasks: map<W.TaskId, Script>, id: W.TaskId): Option<Script> {
    if id in tasks then Some(tasks[id]) else None
  }

  lemma OnceProgresses(s: State, id: W.TaskId)
    requires s.queue != [] && Once(s).Idle? && id in s.tasks
    ensures Progressed(s.tasks[id], Get(Once(s).s.tasks, id))
  {
    if id !in Once(s).s.tasks { assert s.tasks[id][0].done; }
  }

  lemma ProgressedOn(a: Script, b: Script, c: Option<Script>)
    requires Progressed(a, Some(b)) && Progressed(b, c)
    ensures Progressed(a, c)
  {
    var n := |a| - |b|;
    if c.Some? {
      assert a[n..][|b| - |c.value|..] == a[|a| - |c.value|..];
    } else {
      var k :| 0 <= k < |b| && b[k].done;
      assert a[n + k].done;
    }
  }

  lemma {:induction false} DrainedProgresses(s: State, id: W.TaskId)
    requires id in s.tasks && Drained(s).Idle?
    ensures Progressed(s.tasks[id], Get(Drained(s).s.tasks, id))
    decreases Load(s)
  {
    hide Load, Once, Progressed;
    Unmoved(s.tasks[id]);
    BlowCosts(s);
    var b := Blow(s).s;
    if b.queue != [] {
      OnceProgresses(b, id);
      OnceCosts(b);
      var c := Once(b).s;
      if id in c.tasks {
        DrainedProgresses(c, id);
        ProgressedOn(s.tasks[id], c.tasks[id], Get(Drained(c).s.tasks, id));
      } else {
        Gone(c, id);
      }
    }
  }

  lemma Unmoved(a: Script)
    ensures Progressed(a, Some(a))
  {
  }

  lemma {:induction false} Gone(s: State, id: W.TaskId)
    requires id !in s.tasks && Drained(s).Idle?
    ensures id !in Drained(s).s.tasks
    decreases Load(s)
  {
    hide Load, Once;
    BlowCosts(s);
    var b := Blow(s).s;
    if b.queue != [] {
      OnceCosts(b);
      Gone(Once(b).s, id);
    }
  }

  /** Every queued task that is there is polled at least once before the executor is idle. */
  lemma {:induction false} QueuedIsPolled(s: State, i: nat)
    requires i < |s.queue| && s.queue[i] in s.tasks && s.tasks[s.queue[i]] != [] && Drained(s).Idle?
    ensures var id := s.queue[i]; Get(Drained(s).s.tasks, id) != Some(s.tasks[id])
    decreases Load(s)
  {
    hide Load;
    BlowCosts(s);
    var b := Blow(s).s;
    OnceCosts(b);
    var id, c := s.queue[i], Once(b).s;
    assert b.queue[i] == id;
    if id == b.queue[0] {
      if id in c.tasks { DrainedProgresses(c, id); } else { Gone(c, id); }
    } else {
      assert c.queue[i - 1] == id;
      QueuedIsPolled(c, i - 1);
    }
  }

  // --- the executor as the program has it ---

  class Executor {
    var tasks: map<W.TaskId, Script>
    var queue: seq<W.TaskId>
    var cached: set<W.TaskId>
    var gusts: seq<seq<W.TaskId>>
    ghost var pushed: seq<W.TaskId>
    ghost var popped: seq<W.TaskId>

    constructor (weather: seq<seq<W.TaskId>>)
      ensures Valid() && View() == State(map[], [], {}, weather, [], [])
    {
      tasks, queue, cached, gusts, pushed, popped := map[], [], {}, weather, [], [];
    }

    ghost function View(): State
      reads this
    {
      State(tasks, queue, cached, gusts, pushed, popped)
    }

    predicate Valid()
      reads this
    {
      |queue| <= W.QUEUE_CAPACITY
    }

    /** Refused where the program panics: the id is taken, or the queue is full. */
    method Spawn(id: W.TaskId, script: Script) returns (ok: bool)
      requires Valid()
      modifies this
      ensures Valid()
      ensures ok <==> id !in old(tasks) && |old(queue)| < W.QUEUE_CAPACITY
      ensures View() == if !ok then old(View())
                        else old(View()).(tasks := old(tasks)[id := script], queue := old(queue) + [id], pushed := old(pushed) + [id])
    {
      ok := id !in tasks && |queue| < W.QUEUE_CAPACITY;
      if ok {
        tasks := tasks[id := script];
        queue := queue + [id];
        pushed := pushed + [id];
      }
    }

    /** The wakers push their ids one by one. */
    method Wake(ids: seq<W.TaskId>) returns (ok: bool)
      requires Valid()
      modifies this`queue, this`pushed
      ensures match Push(old(View()), ids) case Idle(s) => ok && Valid() && View() == s case QueueFull => !ok
    {
      for i := 0 to |ids|
        invariant Valid() && View() == old(View()).(queue := old(queue) + ids[..i], pushed := old(pushed) + ids[..i])
      {
        if |queue| >= W.QUEUE_CAPACITY { return false; }
        assert ids[..i + 1] == ids[..i] + [ids[i]];
        queue := queue + [ids[i]];
        pushed := pushed + [ids[i]];
      }
      assert ids[..|ids|] == ids;
      ok := true;
    }

    /** What interrupts push before the next look at the queue. */
    method Weather() returns (ok: bool)
      requires Valid()
      modifies this`queue, this`pushed, this`gusts
      ensures match Blow(old(View())) case Idle(s) => ok && Valid() && View() == s case QueueFull => !ok
    {
      if gusts == [] { return true; }
      var gust := gusts[0];
      gusts := gusts[1..];
      ok := Wake(gust);
    }

    /** Poll the task that was popped, if it is still there. */
    method PollNext() returns (ok: bool)
      requires Valid() && queue != []
      modifies this
      ensures match Once(old(View())) case Idle(s) => ok && Valid() && View() == s case QueueFull => !ok
    {
      var id := queue[0];
      queue, popped := queue[1..], popped + [queue[0]];
      ok := true;
      if id in tasks {
        cached := cached + {id};
        var script := tasks[id];
        if script != [] {
          ok := Wake(script[0].wakes);
          if script[0].done {
            tasks := tasks - {id};
            cached := cached - {id};
            assert old(cached) + {id} - {id} == old(cached) - {id};
          } else {
            tasks := tasks[id := script[1..]];
          }
        }
      }
    }

    /** Poll until a pop finds the queue empty. */
    method RunReadyTasks() returns (ok: bool)
      requires Valid()
      modifies this
      ensures match Drained(old(View())) case Idle(s) => ok && Valid() && View() == s case QueueFull => !ok
    {
      hide Once, Load, Blow;
      while true
        invariant Valid() && Drained(View()) == Drained(old(View()))
        decreases Load(View())
      {
        ghost var was := View();
        ok := Weather();
        if !ok { return; }
        BlowCosts(was);
        ghost var blown := View();
        if queue == [] { return true; }
        ok := PollNext();
        if !ok { return; }
        OnceCosts(blown);
      }
    }

    /** Interrupts may still push after the pop that failed; then, with interrupts off, the
        protocol's step: halt on an empty queue, and go on otherwise. */
    method SleepIfIdle() returns (ok: bool, halted: bool)
      requires Valid()
      modifies this`queue, this`pushed, this`gusts
      ensures match Blow(old(View())) case Idle(s) => ok && Valid() && View() == s case QueueFull => !ok
      ensures forall srcs :: ok ==>
                W.Execute(W.BUILT, W.Kernel(srcs, queue, W.Masked)).cpu == if halted then W.Halted else W.Popping
    {
      ok := Weather();
      halted := queue == [];
    }

    /** The main loop up to the halt. */
    method Run() returns (ok: bool)
      requires Valid()
      modifies this
      ensures match Session(old(View())) case Idle(s) => ok && Valid() && View() == s case QueueFull => !ok
    {
      hide Once, Load, Blow, Drained;
      var halted := false;
      while !halted
        invariant Valid() && if halted then Session(old(View())) == Idle(View()) else Session(View()) == Session(old(View()))
        decreases !halted, Load(View())
      {
        ok := RunReadyTasks();
        if !ok { return; }
        ghost var drained := View();
        ok, halted := SleepIfIdle();
        if !ok { return; }
        BlowCosts(drained);
        assert halted <==> queue == [] by {
          assert W.Execute(W.BUILT, W.Kernel(map[], queue, W.Masked)).cpu == if halted then W.Halted else W.Popping;
        }
      }
      ok := true;
    }
  }
}
