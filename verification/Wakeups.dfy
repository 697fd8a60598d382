/** The interrupt-to-task protocol: handlers leave work and wake, tasks take work, register and
    look again, and the executor halts the CPU only on an empty queue (ac97.rs, keyboard.rs,
    executor.rs). One machine covers every interleaving of interrupts with the executor, down to
    the gap between the pop that fails and the masking of interrupts. */
module Wakeups {

  type TaskId = nat

  const QUEUE_CAPACITY: nat := 100
  const SCANCODE_CAPACITY: nat := 100

  /** What a handler leaves for its task: pages to refill, or scancodes. */
  datatype Work = Mask(pages: set<nat>) | Bytes(q: seq<nat>)
  {
    predicate Any() {
      if Mask? then pages != {} else q != []
    }

    /** The mask is swapped out whole; scancodes are popped one by one. */
    function Rest(): Work {
      if Mask? then Mask({}) else if q == [] then this else Bytes(q[1..])
    }
  }

  datatype Item = Pages(ps: set<nat>) | Byte(b: nat)

  /** Where a task is when it is not being polled: not started, in its source's poll, or waiting
      for something else. The shell sleeps and plays between scancodes; the synth task waits for
      nothing but its source. */
  datatype Place = Unborn | Home | Elsewhere

  /** A task fed by interrupts: its work, whether its waker is registered, where it is, and a
      history of what it was given and what it took. */
  datatype Source = Source(work: Work, waker: bool, place: Place, given: seq<Item>, taken: seq<Work>)

  /** Nothing to refill leaves the task alone; a scancode is dropped before the shell has made its
      queue and when that queue is full. */
  predicate Accepts(s: Source, i: Item) {
    if s.work.Mask? then i.Pages? && i.ps != {}
    else i.Byte? && s.place != Unborn && |s.work.q| < SCANCODE_CAPACITY
  }

  function Add(w: Work, i: Item): Work
    requires w.Mask? <==> i.Pages?
  {
    if w.Mask? then Mask(w.pages + i.ps) else Bytes(w.q + [i.b])
  }

  /** Where a poll has got to: before its first look, before registering, before its second
      look, sure that it must wait, or busy with what it took. */
  datatype Pc = First | Registering | Second | Leaving | Working

  /** `Emptied` is after a pop that found nothing, with interrupts still on; `Masked` is before
      the emptiness test, with interrupts off. */
  datatype Cpu = Popping | Polling(id: TaskId, at: Pc) | Emptied | Masked | Halted

  datatype Kernel = Kernel(srcs: map<TaskId, Source>, queue: seq<TaskId>, cpu: Cpu)

  datatype Out = Next(k: Kernel) | QueueFull | Barred

  /** `Irq` leaves an item for a task; `Exec` is one step of the executor or of the task it is
      polling; `Depart` parks the polled task on something other than its source; `Stray` is any
      other wake. */
  datatype Action = Irq(id: TaskId, item: Item) | Exec | Depart | Stray(id: TaskId)

  /** The two precautions of the code, each of which a variant could omit: a poll looks for work
      again once it has registered, and the executor tests the queue again with interrupts off. */
  datatype Design = Design(looksAgain: bool, tests: bool)

  const BUILT: Design := Design(true, true)

  function Push(k: Kernel, id: TaskId): Out {
    if |k.queue| >= QUEUE_CAPACITY then QueueFull else Next(k.(queue := k.queue + [id]))
  }

  function Store(k: Kernel, id: TaskId, s: Source): Kernel {
    k.(srcs := k.srcs[id := s])
  }

  /** An interrupt ends a halt; the executor goes on with its loop. */
  function Roused(k: Kernel): Kernel {
    k.(cpu := if k.cpu.Halted? then Popping else k.cpu)
  }

  /** The handler: leave the item, take the waker if there is one and push its task. */
  function Interrupt(k: Kernel, id: TaskId, item: Item): Out
    requires id in k.srcs
  {
    var s := k.srcs[id];
    if !Accepts(s, item) then Next(Roused(k))
    else
      var s1 := s.(work := Add(s.work, item), waker := false, given := s.given + [item]);
      var k1 := Store(Roused(k), id, s1);
      if s.waker then Push(k1, id) else Next(k1)
  }

  /** Take the work there is. A scancode found on the second look also takes the waker back. */
  function Take(k: Kernel, id: TaskId, second: bool): Kernel
    requires id in k.srcs && k.srcs[id].work.Any()
  {
    var s := k.srcs[id];
    var got := if s.work.Mask? then s.work else Bytes([s.work.q[0]]);
    var s1 := s.(work := s.work.Rest(), waker := s.waker && !(second && s.work.Bytes?), taken := s.taken + [got]);
    Store(k, id, s1).(cpu := Polling(id, Working))
  }

  function Poll(d: Design, k: Kernel, id: TaskId, at: Pc): Kernel
    requires id in k.srcs
  {
    var s := k.srcs[id];
    match at
    case First => if s.work.Any() then Take(k, id, false) else k.(cpu := Polling(id, Registering))
    case Registering => Store(k, id, s.(waker := true)).(cpu := Polling(id, if d.looksAgain then Second else Leaving))
    case Second => if s.work.Any() then Take(k, id, true) else k.(cpu := Polling(id, Leaving))
    case Leaving => k.(cpu := Popping)
    case Working => Store(k, id, s.(place := Home)).(cpu := Polling(id, First))
  }

  /** A task goes on where it was; any other id is a task that takes no part here. */
  function Begin(k: Kernel, id: TaskId): Kernel {
    if id !in k.srcs then k.(cpu := Popping)
    else if k.srcs[id].place.Elsewhere? then k.(cpu := Polling(id, Working))
    else Store(k, id, k.srcs[id].(place := Home)).(cpu := Polling(id, First))
  }

  function Execute(d: Design, k: Kernel): Kernel
    requires k.cpu.Polling? ==> k.cpu.id in k.srcs
  {
    match k.cpu
    case Popping => if k.queue == [] then k.(cpu := Emptied) else Begin(k.(queue := k.queue[1..]), k.queue[0])
    case Polling(id, at) => Poll(d, k, id, at)
    case Emptied => k.(cpu := Masked)
    case Masked => k.(cpu := if d.tests && k.queue != [] then Popping else Halted)
    case Halted => k
  }

  predicate Enabled(k: Kernel, a: Action) {
    match a
    case Irq(id, item) => id in k.srcs && k.cpu != Masked
    case Exec => k.cpu.Polling? ==> k.cpu.id in k.srcs
    case Depart => k.cpu.Polling? && k.cpu.at.Working? && k.cpu.id in k.srcs && k.srcs[k.cpu.id].work.Bytes?
    case Stray(_) => k.cpu != Masked
  }

  function Do(d: Design, k: Kernel, a: Action): Out {
    if !Enabled(k, a) then Barred
    else match a
      case Irq(id, item) => Interrupt(k, id, item)
      case Exec => Next(Execute(d, k))
      case Depart => Next(Store(k, k.cpu.id, k.srcs[k.cpu.id].(place := Elsewhere)).(cpu := Popping))
      case Stray(id) => Push(Roused(k), id)
  }

  /** The state after the actions, unless one was barred or overflowed the task queue. */
  function Run(d: Design, k: Kernel, actions: seq<Action>): Out
    decreases |actions|
  {
    if actions == [] then Next(k)
    else match Do(d, k, actions[0])
      case Next(k') => Run(d, k', actions[1..])
      case o => o
  }

  // --- what holds in every reachable state ---

  /** The task is not inside a poll that has yet to look for work. */
  predicate Parked(k: Kernel, id: TaskId) {
    !(k.cpu.Polling? && k.cpu.id == id) || k.cpu.at.Leaving?
  }

  /** A task parked in its source's poll is queued if it has work and can be woken if it has not;
      one about to take its second look has registered, or has been woken since. */
  predicate Awake(k: Kernel, id: TaskId)
    requires id in k.srcs
  {
    var s := k.srcs[id];
    && (Parked(k, id) && !s.place.Elsewhere? ==> (s.work.Any() ==> id in k.queue) && (s.waker || id in k.queue))
    && (k.cpu == Polling(id, Second) ==> s.waker || id in k.queue)
  }

  /** Only a task with scancodes waits elsewhere, and none is elsewhere while it polls its source. */
  predicate Placed(k: Kernel, id: TaskId)
    requires id in k.srcs
  {
    k.srcs[id].place.Elsewhere? ==>
      k.srcs[id].work.Bytes? && (k.cpu.Polling? && k.cpu.id == id ==> k.cpu.at.Working?)
  }

  /** A task with scancodes has left its waker with them only while it waits for them, and none is
      left while any wait but right before its second look. */
  predicate Quiet(k: Kernel, id: TaskId)
    requires id in k.srcs
  {
    var s := k.srcs[id];
    && (k.cpu.Polling? && k.cpu.id == id ==> !s.place.Unborn?)
    && (s.work.Bytes? && s.waker ==>
          && s.place.Home? && k.cpu != Polling(id, Working)
          && (s.work.Any() ==> k.cpu == Polling(id, Second)))
  }

  function Union(items: seq<Item>): set<nat> {
    if items == [] then {} else Union(items[..|items| - 1]) + (if items[|items| - 1].Pages? then items[|items| - 1].ps else {})
  }

  function Taken(ws: seq<Work>): set<nat> {
    if ws == [] then {} else Taken(ws[..|ws| - 1]) + (if ws[|ws| - 1].Mask? then ws[|ws| - 1].pages else {})
  }

  function Stream(items: seq<Item>): seq<nat> {
    if items == [] then [] else Stream(items[..|items| - 1]) + (if items[|items| - 1].Byte? then [items[|items| - 1].b] else [])
  }

  function TakenBytes(ws: seq<Work>): seq<nat> {
    if ws == [] then [] else TakenBytes(ws[..|ws| - 1]) + (if ws[|ws| - 1].Bytes? then ws[|ws| - 1].q else [])
  }

  /** Nothing given is lost and nothing is made up: pages as a set, scancodes in order. */
  predicate Conserved(s: Source) {
    if s.work.Mask? then Taken(s.taken) + s.work.pages == Union(s.given)
    else TakenBytes(s.taken) + s.work.q == Stream(s.given)
  }

  predicate Sound(k: Kernel) {
    && (k.cpu.Polling? ==> k.cpu.id in k.srcs)
    && (k.cpu.Halted? ==> k.queue == [])
    && (forall id :: id in k.srcs ==> Awake(k, id))
    && (forall id :: id in k.srcs ==> Placed(k, id))
    && (forall id :: id in k.srcs ==> Quiet(k, id))
    && (forall id :: id in k.srcs ==> Conserved(k.srcs[id]))
  }

  /** A task as it is spawned. */
  predicate Spawned(s: Source) {
    s.place.Unborn? && !s.waker && !s.work.Any() && s.given == [] && s.taken == []
  }

  /** All tasks freshly spawned: in the queue, nothing registered, nothing to do. */
  predicate Booted(k: Kernel) {
    k.cpu == Popping && forall id :: id in k.srcs ==> id in k.queue && Spawned(k.srcs[id])
  }

  lemma BootedIsSound(k: Kernel)
    requires Booted(k)
    ensures Sound(k)
  {
  }

  lemma Accepting(s: Source, i: Item, s': Source)
    requires Conserved(s) && (s.work.Mask? <==> i.Pages?)
    requires s'.work == Add(s.work, i) && s'.given == s.given + [i] && s'.taken == s.taken
    ensures Conserved(s')
  {
    assert (s.given + [i])[..|s.given|] == s.given;
    if s.work.Bytes? {
      assert TakenBytes(s.taken) + (s.work.q + [i.b]) == TakenBytes(s.taken) + s.work.q + [i.b];
    }
  }

  lemma Taking(s: Source, got: Work, s': Source)
    requires Conserved(s) && s.work.Any() && got == if s.work.Mask? then s.work else Bytes([s.work.q[0]])
    requires s'.work == s.work.Rest() && s'.given == s.given && s'.taken == s.taken + [got]
    ensures Conserved(s')
  {
    assert (s.taken + [got])[..|s.taken|] == s.taken;
    if s.work.Bytes? {
      assert TakenBytes(s.taken) + [s.work.q[0]] + s.work.q[1..] == TakenBytes(s.taken) + s.work.q;
    }
  }

  /** The history does not depend on where the task is or who can wake it. */
  lemma Elsewise(s: Source, s': Source)
    requires Conserved(s) && s'.work == s.work && s'.given == s.given && s'.taken == s.taken
    ensures Conserved(s')
  {
  }

  lemma InterruptKeepsSound(k: Kernel, id: TaskId, item: Item)
    requires Sound(k) && id in k.srcs && k.cpu != Masked
    ensures Interrupt(k, id, item).Next? ==> Sound(Interrupt(k, id, item).k)
  {
    hide Conserved;
    var s, r := k.srcs[id], Interrupt(k, id, item);
    if Accepts(s, item) && r.Next? { Accepting(s, item, r.k.srcs[id]); }
  }

  lemma TakeKeepsSound(k: Kernel, id: TaskId, at: Pc)
    requires Sound(k) && id in k.srcs && k.cpu == Polling(id, at) && (at.First? || at.Second?) && k.srcs[id].work.Any()
    ensures Sound(Take(k, id, at.Second?))
  {
    hide Conserved;
    var s := k.srcs[id];
    Taking(s, if s.work.Mask? then s.work else Bytes([s.work.q[0]]), Take(k, id, at.Second?).srcs[id]);
  }

  lemma PollKeepsSound(k: Kernel, id: TaskId, at: Pc)
    requires Sound(k) && id in k.srcs && k.cpu == Polling(id, at)
    ensures Sound(Poll(BUILT, k, id, at))
  {
    hide Conserved, Take;
    if (at.First? || at.Second?) && k.srcs[id].work.Any() {
      TakeKeepsSound(k, id, at);
    } else {
      Elsewise(k.srcs[id], Poll(BUILT, k, id, at).srcs[id]);
    }
  }

  lemma ExecuteKeepsSound(k: Kernel)
    requires Sound(k)
    ensures Sound(Execute(BUILT, k))
  {
    hide Conserved, Poll;
    if k.cpu.Polling? {
      PollKeepsSound(k, k.cpu.id, k.cpu.at);
    } else if k.cpu.Popping? && k.queue != [] && k.queue[0] in k.srcs {
      Elsewise(k.srcs[k.queue[0]], Execute(BUILT, k).srcs[k.queue[0]]);
    }
  }

  lemma DepartKeepsSound(k: Kernel)
    requires Sound(k) && Enabled(k, Depart)
    ensures Sound(Do(BUILT, k, Depart).k)
  {
    hide Conserved;
    Elsewise(k.srcs[k.cpu.id], Do(BUILT, k, Depart).k.srcs[k.cpu.id]);
  }

  /** Every step that does not overflow the task queue keeps the invariant. */
  lemma StepKeepsSound(k: Kernel, a: Action)
    requires Sound(k)
    ensures Do(BUILT, k, a).Next? ==> Sound(Do(BUILT, k, a).k)
  {
    hide Conserved, Interrupt, Execute;
    if Enabled(k, a) {
      match a
      case Irq(id, item) => InterruptKeepsSound(k, id, item);
      case Exec => ExecuteKeepsSound(k);
      case Depart => DepartKeepsSound(k);
      case Stray(_) =>
    }
  }

  lemma {:induction false} RunsKeepSound(k: Kernel, actions: seq<Action>)
    requires Sound(k)
    ensures Run(BUILT, k, actions).Next? ==> Sound(Run(BUILT, k, actions).k)
    decreases |actions|
  {
    hide Sound, Do;
    if actions != [] {
      StepKeepsSound(k, actions[0]);
      if Do(BUILT, k, actions[0]).Next? { RunsKeepSound(Do(BUILT, k, actions[0]).k, actions[1..]); }
    }
  }

  lemma ReachableIsSound(boot: Kernel, actions: seq<Action>)
    requires Booted(boot) && Run(BUILT, boot, actions).Next?
    ensures Sound(Run(BUILT, boot, actions).k)
  {
    hide Sound, Booted;
    BootedIsSound(boot);
    RunsKeepSound(boot, actions);
  }

  /** The CPU never halts on pending work: while it is halted, a task that waits for its source
      has none and can be woken. */
  lemma NeverHaltsOnWork(boot: Kernel, actions: seq<Action>, id: TaskId)
    requires Booted(boot) && Run(BUILT, boot, actions).Next?
    requires var k := Run(BUILT, boot, actions).k; k.cpu.Halted? && id in k.srcs
    ensures var s := Run(BUILT, boot, actions).k.srcs[id];
            !s.place.Elsewhere? || s.work.Mask? ==> !s.place.Elsewhere? && !s.work.Any() && s.waker
  {
    hide Conserved, Booted, Run;
    ReachableIsSound(boot, actions);
    assert Awake(Run(BUILT, boot, actions).k, id) && Placed(Run(BUILT, boot, actions).k, id);
  }

  /** No refill or scancode is lost: in every reachable state what a task took and what still
      waits for it is what its handler left, the scancodes in their order. */
  lemma NothingIsLost(boot: Kernel, actions: seq<Action>, id: TaskId)
    requires Booted(boot) && Run(BUILT, boot, actions).Next? && id in Run(BUILT, boot, actions).k.srcs
    ensures var s := Run(BUILT, boot, actions).k.srcs[id];
            if s.work.Mask? then Taken(s.taken) + s.work.pages == Union(s.given)
            else TakenBytes(s.taken) + s.work.q == Stream(s.given)
  {
    hide Awake, Booted, Run;
    ReachableIsSound(boot, actions);
  }

  /** An interrupt with work ends a halt, and queues its task exactly if the task waits for its
      source: one that waits elsewhere has not left its waker. */
  lemma InterruptEndsHalt(boot: Kernel, actions: seq<Action>, id: TaskId, item: Item)
    requires Booted(boot) && Run(BUILT, boot, actions).Next?
    requires var k := Run(BUILT, boot, actions).k; k.cpu.Halted? && id in k.srcs && Accepts(k.srcs[id], item)
    ensures var k := Run(BUILT, boot, actions).k;
            var s, r := k.srcs[id], Do(BUILT, k, Irq(id, item));
            && r.Next? && r.k.cpu.Popping?
            && (s.waker <==> !s.place.Elsewhere?)
            && r.k.queue == if s.place.Elsewhere? then [] else [id]
  {
    hide Conserved, Booted, Run;
    ReachableIsSound(boot, actions);
    NeverHaltsOnWork(boot, actions, id);
    assert Quiet(Run(BUILT, boot, actions).k, id) && Placed(Run(BUILT, boot, actions).k, id);
  }

  // --- the queues are bounded ---

  predicate WithinBounds(k: Kernel) {
    && |k.queue| <= QUEUE_CAPACITY
    && forall id :: id in k.srcs && k.srcs[id].work.Bytes? ==> |k.srcs[id].work.q| <= SCANCODE_CAPACITY
  }

  lemma StepKeepsBounds(d: Design, k: Kernel, a: Action)
    requires WithinBounds(k)
    ensures Do(d, k, a).Next? ==> WithinBounds(Do(d, k, a).k)
  {
  }

  /** Neither queue ever holds more than it has room for, in any design: a scancode too many is dropped,
      and a wake too many stops the kernel. */
  lemma {:induction false} QueuesStayBounded(d: Design, k: Kernel, actions: seq<Action>)
    requires WithinBounds(k)
    ensures match Run(d, k, actions)
            case Next(k') => WithinBounds(k')
            case _ => true
    decreases |actions|
  {
    hide Do, WithinBounds;
    if actions != [] {
      StepKeepsBounds(d, k, actions[0]);
      if Do(d, k, actions[0]).Next? { QueuesStayBounded(d, Do(d, k, actions[0]).k, actions[1..]); }
    }
  }

  /** A scancode is kept while there is room, and dropped when there is none. */
  lemma ScancodesFill(d: Design, k: Kernel, id: TaskId, b: nat)
    requires WithinBounds(k) && id in k.srcs && k.srcs[id].work.Bytes? && !k.srcs[id].place.Unborn? && k.cpu != Masked
    requires Do(d, k, Irq(id, Byte(b))).Next?
    ensures var q, q' := k.srcs[id].work.q, Do(d, k, Irq(id, Byte(b))).k.srcs[id].work.q;
            q' == if |q| < SCANCODE_CAPACITY then q + [b] else q
  {
  }

  // --- the precautions are needed, and so is the place ---

  /** A run of the design that halts the CPU while a task at the place has work. */
  predicate SleepsOnWork(d: Design, boot: Kernel, actions: seq<Action>, id: TaskId, p: Place) {
    && Booted(boot)
    && var r := Run(d, boot, actions);
    && r.Next? && r.k.cpu.Halted? && id in r.k.srcs
    && r.k.srcs[id].place == p && r.k.srcs[id].work.Any()
  }

  lemma Ran(d: Design, k: Kernel, a: Action, rest: seq<Action>, k': Kernel)
    requires Do(d, k, a) == Next(k')
    ensures Run(d, k, [a] + rest) == Run(d, k', rest)
  {
    assert ([a] + rest)[1..] == rest;
  }

  lemma {:induction false} RunJoins(d: Design, k: Kernel, a: seq<Action>, b: seq<Action>)
    requires Run(d, k, a).Next?
    ensures Run(d, k, a + b) == Run(d, Run(d, k, a).k, b)
    decreases |a|
  {
    hide Do;
    if a == [] {
      assert [] + b == b;
    } else {
      assert (a + b)[1..] == a[1..] + b;
      RunJoins(d, Do(d, k, a[0]).k, a[1..], b);
    }
  }

  lemma OneStep(d: Design, k: Kernel, a: Action)
    ensures Run(d, k, [a]) == Do(d, k, a)
  {
    assert [a][1..] == [];
  }

  /** A kernel with one task. */
  function Lone(s: Source, queue: seq<TaskId>, cpu: Cpu): Kernel {
    Kernel(map[0 := s], queue, cpu)
  }

  lemma LoneStored(s: Source, s': Source, queue: seq<TaskId>, cpu: Cpu)
    ensures Store(Lone(s, queue, cpu), 0, s') == Lone(s', queue, cpu)
  {
    assert map[0 := s][0 := s'] == map[0 := s'];
  }

  const NEW_SYNTH: Source := Source(Mask({}), false, Unborn, [], [])
  const NEW_SHELL: Source := Source(Bytes([]), false, Unborn, [], [])

  const TO_HALT: seq<Action> := [Exec] + ([Exec] + ([Exec] + []))

  /** The executor alone, from a failing pop to the halt. */
  lemma IdlesToHalt(d: Design, s: Source)
    ensures Run(d, Lone(s, [], Popping), TO_HALT) == Next(Lone(s, [], Halted))
  {
    Ran(d, Lone(s, [], Popping), Exec, [Exec] + ([Exec] + []), Lone(s, [], Emptied));
    Ran(d, Lone(s, [], Emptied), Exec, [Exec] + [], Lone(s, [], Masked));
    Ran(d, Lone(s, [], Masked), Exec, [], Lone(s, [], Halted));
  }

  const HIT: Action := Irq(0, Pages({0}))

  lemma Hits(d: Design, waker: bool, cpu: Cpu)
    requires !cpu.Halted? && cpu != Masked
    ensures Do(d, Lone(Source(Mask({}), waker, Home, [], []), [], cpu), HIT)
         == Next(Lone(Source(Mask({0}), false, Home, [Pages({0})], []), if waker then [0] else [], cpu))
  {
    var s, s' := Source(Mask({}), waker, Home, [], []), Source(Mask({0}), false, Home, [Pages({0})], []);
    assert {} + {0} == {0} && [] + [Pages({0})] == [Pages({0})];
    assert Accepts(s, Pages({0})) && s.(work := Add(s.work, Pages({0})), waker := false, given := s.given + [Pages({0})]) == s';
    LoneStored(s, s', [], cpu);
  }

  /** Without the second look: the pages are marked after the first look and before the waker is
      registered, so nobody queues the task. */
  const UNSEEN: seq<Action> := [Exec] + ([Exec] + ([HIT] + ([Exec] + ([Exec] + TO_HALT))))

  lemma SecondLookMatters(tests: bool)
    ensures SleepsOnWork(Design(false, tests), Lone(NEW_SYNTH, [0], Popping), UNSEEN, 0, Home)
  {
    var d := Design(false, tests);
    var s0 := NEW_SYNTH;
    var s1 := s0.(place := Home);
    var s2 := Source(Mask({0}), false, Home, [Pages({0})], []);
    var s3 := s2.(waker := true);
    LoneStored(s0, s1, [], Popping);
    Hits(d, false, Polling(0, Registering));
    LoneStored(s2, s3, [], Polling(0, Registering));
    Ran(d, Lone(s0, [0], Popping), Exec, [Exec] + ([HIT] + ([Exec] + ([Exec] + TO_HALT))), Lone(s1, [], Polling(0, First)));
    Ran(d, Lone(s1, [], Polling(0, First)), Exec, [HIT] + ([Exec] + ([Exec] + TO_HALT)), Lone(s1, [], Polling(0, Registering)));
    Ran(d, Lone(s1, [], Polling(0, Registering)), HIT, [Exec] + ([Exec] + TO_HALT), Lone(s2, [], Polling(0, Registering)));
    Ran(d, Lone(s2, [], Polling(0, Registering)), Exec, [Exec] + TO_HALT, Lone(s3, [], Polling(0, Leaving)));
    Ran(d, Lone(s3, [], Polling(0, Leaving)), Exec, TO_HALT, Lone(s3, [], Popping));
    IdlesToHalt(d, s3);
  }

  /** Without the emptiness test: the pages are marked between the pop that fails and the masking,
      and the CPU halts with the task queued. */
  const UNTESTED: seq<Action> := [Exec] + ([Exec] + ([Exec] + ([Exec] + ([Exec] + ([Exec] + ([HIT] + ([Exec] + ([Exec] + []))))))))

  lemma EmptinessTestMatters()
    ensures SleepsOnWork(Design(true, false), Lone(NEW_SYNTH, [0], Popping), UNTESTED, 0, Home)
    ensures Run(Design(true, false), Lone(NEW_SYNTH, [0], Popping), UNTESTED).k.queue == [0]
  {
    var d := Design(true, false);
    var s0 := NEW_SYNTH;
    var s1 := s0.(place := Home);
    var s2 := s1.(waker := true);
    var s3 := Source(Mask({0}), false, Home, [Pages({0})], []);
    LoneStored(s0, s1, [], Popping);
    LoneStored(s1, s2, [], Polling(0, Registering));
    Hits(d, true, Emptied);
    Ran(d, Lone(s0, [0], Popping), Exec, UNTESTED[1..], Lone(s1, [], Polling(0, First)));
    Ran(d, Lone(s1, [], Polling(0, First)), Exec, UNTESTED[2..], Lone(s1, [], Polling(0, Registering)));
    Ran(d, Lone(s1, [], Polling(0, Registering)), Exec, UNTESTED[3..], Lone(s2, [], Polling(0, Second)));
    Ran(d, Lone(s2, [], Polling(0, Second)), Exec, UNTESTED[4..], Lone(s2, [], Polling(0, Leaving)));
    Ran(d, Lone(s2, [], Polling(0, Leaving)), Exec, UNTESTED[5..], Lone(s2, [], Popping));
    Ran(d, Lone(s2, [], Popping), Exec, UNTESTED[6..], Lone(s2, [], Emptied));
    Ran(d, Lone(s2, [], Emptied), HIT, UNTESTED[7..], Lone(s3, [0], Emptied));
    Ran(d, Lone(s3, [0], Emptied), Exec, UNTESTED[8..], Lone(s3, [0], Masked));
    Ran(d, Lone(s3, [0], Masked), Exec, [], Lone(s3, [0], Halted));
  }

  /** The code's design is the only one of the four that never halts on work a task waits for. */
  lemma BothPrecautionsMatter(d: Design)
    ensures (exists boot, actions, id :: SleepsOnWork(d, boot, actions, id, Home)) <==> d != BUILT
  {
    if !d.looksAgain {
      SecondLookMatters(d.tests);
    } else if !d.tests {
      EmptinessTestMatters();
    } else {
      forall boot, actions, id ensures !SleepsOnWork(BUILT, boot, actions, id, Home) {
        if SleepsOnWork(BUILT, boot, actions, id, Home) { NeverHaltsOnWork(boot, actions, id); }
      }
    }
  }

  const KEY: Action := Irq(0, Byte(7))
  const KEY_AGAIN: seq<Action> := [KEY] + TO_HALT

  /** A key for the shell, which then waits for something else; another key; the halt. */
  const ASLEEP: seq<Action> := [Exec] + ([KEY] + ([Exec] + ([Depart] + KEY_AGAIN)))

  const AWAY: Source := Source(Bytes([]), false, Elsewhere, [Byte(7)], [Bytes([7])])

  lemma ShellLeaves()
    ensures Run(BUILT, Lone(NEW_SHELL, [0], Popping), ASLEEP) == Run(BUILT, Lone(AWAY, [], Popping), KEY_AGAIN)
  {
    var d := BUILT;
    var s0 := NEW_SHELL;
    var s1 := s0.(place := Home);
    var s2 := Source(Bytes([7]), false, Home, [Byte(7)], []);
    var s3 := AWAY.(place := Home);
    LoneStored(s0, s1, [], Popping);
    assert s1.work.q + [7] == [7] && s1.given + [Byte(7)] == [Byte(7)];
    LoneStored(s1, s2, [], Polling(0, First));
    assert [7][1..] == [] && s2.taken + [Bytes([7])] == [Bytes([7])];
    LoneStored(s2, s3, [], Polling(0, First));
    LoneStored(s3, AWAY, [], Polling(0, Working));
    Ran(d, Lone(s0, [0], Popping), Exec, ASLEEP[1..], Lone(s1, [], Polling(0, First)));
    Ran(d, Lone(s1, [], Polling(0, First)), KEY, ASLEEP[2..], Lone(s2, [], Polling(0, First)));
    Ran(d, Lone(s2, [], Polling(0, First)), Exec, ASLEEP[3..], Lone(s3, [], Polling(0, Working)));
    Ran(d, Lone(s3, [], Polling(0, Working)), Depart, KEY_AGAIN, Lone(AWAY, [], Popping));
  }

  lemma ScancodesWaitForTheShell()
    ensures SleepsOnWork(BUILT, Lone(NEW_SHELL, [0], Popping), ASLEEP, 0, Elsewhere)
  {
    var s := Source(Bytes([7]), false, Elsewhere, [Byte(7), Byte(7)], [Bytes([7])]);
    ShellLeaves();
    assert AWAY.work.q + [7] == [7] && AWAY.given + [Byte(7)] == [Byte(7), Byte(7)];
    LoneStored(AWAY, s, [], Popping);
    Ran(BUILT, Lone(AWAY, [], Popping), KEY, TO_HALT, Lone(s, [], Popping));
    IdlesToHalt(BUILT, s);
  }

  /** The CPU can halt on a task's work exactly while the task waits for something other than its
      source. */
  lemma OnlyElsewhereSleepsOnWork(p: Place)
    ensures (exists boot, actions, id :: SleepsOnWork(BUILT, boot, actions, id, p)) <==> p == Elsewhere
  {
    if p == Elsewhere {
      ScancodesWaitForTheShell();
    } else {
      forall boot, actions, id ensures !SleepsOnWork(BUILT, boot, actions, id, p) {
        if SleepsOnWork(BUILT, boot, actions, id, p) { NeverHaltsOnWork(boot, actions, id); }
      }
    }
  }
}
