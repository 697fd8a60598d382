/** The sound card's ring: 32 descriptors over 4 pages, and the handler that marks the pages of
    the descriptors completed since the last interrupt (ac97.rs). */
module Ring {
  import opened Core
  import W = Wakeups

  const ENTRIES: nat := 32
  const BUFFERS: nat := 4

  /** How many descriptors `civ` is ahead of `next`, round the ring. */
  function Ahead(next: nat, civ: nat): nat
    requires next < ENTRIES && civ < ENTRIES
  {
    if next <= civ then civ - next else civ + ENTRIES - next
  }

  /** The pages of the descriptors from `next` round to `civ`. */
  function Marked(next: nat, civ: nat): set<nat>
    requires next < ENTRIES && civ < ENTRIES
    decreases Ahead(next, civ)
  {
    if next == civ then {} else {next % BUFFERS} + Marked((next + 1) % ENTRIES, civ)
  }

  /** The page of the `j`th descriptor after `next`. */
  function PageAfter(next: nat, j: nat): nat {
    (next + j) % ENTRIES % BUFFERS
  }

  /** The pages of the `n` descriptors that completed from `next` on. */
  function Completed(next: nat, n: nat): set<nat> {
    set j | 0 <= j < n :: PageAfter(next, j)
  }

  lemma PageCycles(next: nat, j: nat)
    ensures PageAfter(next, j) == (next + j) % BUFFERS
    ensures PageAfter(next, j + ENTRIES) == PageAfter(next, j)
  {
    var m := next + j;
    assert m == ENTRIES * (m / ENTRIES) + m % ENTRIES;
    assert m == BUFFERS * (8 * (m / ENTRIES)) + m % ENTRIES;
  }

  /** One completed descriptor, and those after it. */
  lemma CompletedSplit(next: nat, n: nat)
    requires n > 0 && next < ENTRIES
    ensures Completed(next, n) == {next % BUFFERS} + Completed((next + 1) % ENTRIES, n - 1)
  {
    var next' := (next + 1) % ENTRIES;
    forall j: nat ensures PageAfter(next', j) == PageAfter(next, j + 1) {
      if next + 1 == ENTRIES { PageCycles(0, j); PageCycles(0, j + ENTRIES); assert next + (j + 1) == 0 + (j + ENTRIES); }
    }
    forall p | p in Completed(next, n) ensures p in {next % BUFFERS} + Completed(next', n - 1) {
      var j :| 0 <= j < n && p == PageAfter(next, j);
      if j > 0 { assert p == PageAfter(next', j - 1); } else { PageCycles(next, 0); }
    }
    forall p | p in {next % BUFFERS} + Completed(next', n - 1) ensures p in Completed(next, n) {
      if p == next % BUFFERS {
        PageCycles(next, 0);
        assert p == PageAfter(next, 0);
      } else {
        var j :| 0 <= j < n - 1 && p == PageAfter(next', j);
        assert p == PageAfter(next, j + 1);
      }
    }
  }

  /** With fewer than 32 completions the bits set are exactly the pages that completed. */
  lemma {:induction false} MarksCompleted(next: nat, n: nat)
    requires next < ENTRIES && n < ENTRIES
    ensures Marked(next, (next + n) % ENTRIES) == Completed(next, n)
    decreases n
  {
    if n > 0 {
      CompletedSplit(next, n);
      RoundTheRing(next, n);
      MarksCompleted((next + 1) % ENTRIES, n - 1);
    }
  }

  lemma RoundTheRing(next: nat, n: nat)
    requires next < ENTRIES && 0 < n < ENTRIES
    ensures next != (next + n) % ENTRIES && ((next + 1) % ENTRIES + (n - 1)) % ENTRIES == (next + n) % ENTRIES
  {
    if next + n < ENTRIES {
      assert (next + n) % ENTRIES == next + n;
    } else {
      assert (next + n) % ENTRIES == next + n - ENTRIES;
    }
  }

  /** Four completions or more touch every page. */
  lemma FourCoverAll(next: nat, n: nat)
    requires n >= BUFFERS
    ensures Completed(next, n) == {0, 1, 2, 3}
  {
    forall p | 0 <= p < BUFFERS ensures p in Completed(next, n) {
      var j := (p + BUFFERS - next % BUFFERS) % BUFFERS;
      PageCycles(next, j);
      assert PageAfter(next, j) == p;
    }
    forall p | p in Completed(next, n) ensures p in {0, 1, 2, 3} {
      var j :| 0 <= j < n && p == PageAfter(next, j);
    }
  }

  /** Fewer than four leave a page out. */
  lemma FewLeaveOne(next: nat, n: nat)
    requires n < BUFFERS
    ensures (next + n) % BUFFERS !in Completed(next, n)
  {
    forall j | 0 <= j < n ensures PageAfter(next, j) != (next + n) % BUFFERS { PageCycles(next, j); }
  }

  /** However many completed since the last interrupt, the handler marks exactly their pages
      unless it was a full turn of the ring late and saw fewer than four of them again. */
  lemma MarksExactly(next: nat, n: nat)
    requires next < ENTRIES
    ensures Marked(next, (next + n) % ENTRIES) == Completed(next, n) <==> n < ENTRIES || n % ENTRIES >= BUFFERS
  {
    hide Marked, Completed;
    var r := n % ENTRIES;
    TurnsDrop(next, n);
    MarksCompleted(next, r);
    if n >= ENTRIES {
      FourCoverAll(next, n);
      if r >= BUFFERS { FourCoverAll(next, r); } else { FewLeaveOne(next, r); }
    }
  }

  lemma TurnsDrop(next: nat, n: nat)
    ensures (next + n) % ENTRIES == (next + n % ENTRIES) % ENTRIES
  {
    assert next + n == ENTRIES * (n / ENTRIES) + (next + n % ENTRIES);
    SameResidue(next + n % ENTRIES, n / ENTRIES);
  }

  lemma SameResidue(m: nat, q: nat)
    ensures (ENTRIES * q + m) % ENTRIES == m % ENTRIES
  {
  }

  // --- the handler as the program has it ---

  /** Status bits: last valid buffer completed, buffer completed, FIFO error. */
  const SR_INT_BITS: bv16 := 0x1C

  lemma Nearer(next: nat, civ: nat)
    requires next < ENTRIES && civ < ENTRIES && next != civ
    ensures var on := (next + 1) % ENTRIES; on < ENTRIES && Ahead(on, civ) < Ahead(next, civ)
    ensures Marked(next, civ) == {next % BUFFERS} + Marked((next + 1) % ENTRIES, civ)
  {
  }

  /** Walk the descriptors from `next` round to `civ`, setting the bit of each one's page. */
  method MarkPages(from: nat, civ: nat) returns (mask: set<nat>)
    requires from < ENTRIES && civ < ENTRIES
    ensures mask == Marked(from, civ)
  {
    var next: nat := from;
    mask := {};
    while next != civ
      invariant next < ENTRIES && mask + Marked(next, civ) == Marked(from, civ)
      decreases Ahead(next, civ)
    {
      Nearer(next, civ);
      mask := mask + {next % BUFFERS};
      next := (next + 1) % ENTRIES;
    }
  }

  lemma StepOn(k: W.Kernel, acts: seq<W.Action>, k': W.Kernel)
    requires W.Run(W.BUILT, k, acts) == W.Next(k') && W.Enabled(k', W.Exec)
    ensures W.Run(W.BUILT, k, acts + [W.Exec]) == W.Next(W.Execute(W.BUILT, k'))
  {
    W.RunJoins(W.BUILT, k, acts, [W.Exec]);
    W.OneStep(W.BUILT, k', W.Exec);
  }

  datatype Handled = NotOurs | Ours | TaskQueueFull

  /** The driver's shared state: the refill mask, the expected descriptor, the synth task's waker
      and the queue it pushes to. */
  class Driver {
    const synth: W.TaskId
    var base: nat
    var refill: set<nat>
    var nextDone: nat
    var waker: bool
    var queue: seq<W.TaskId>
    var lastValid: nat
    ghost var given: seq<W.Item>
    ghost var taken: seq<W.Work>

    constructor (id: W.TaskId, port: nat)
      ensures synth == id && base == port && refill == {} && nextDone == 0 && !waker && queue == [id]
      ensures given == [] && taken == [] && Valid()
    {
      synth, base := id, port;
      refill, nextDone, waker, queue, lastValid := {}, 0, false, [id], ENTRIES - 1;
      given, taken := [], [];
    }

    predicate Valid()
      reads this
    {
      nextDone < ENTRIES
    }

    /** The protocol's view of the driver. */
    ghost function View(cpu: W.Cpu): W.Kernel
      reads this
    {
      W.Kernel(map[synth := W.Source(W.Mask(refill), waker, W.Home, given, taken)], queue, cpu)
    }

    /** Mark the completed pages, wake the synth task if there are any, and move the last valid
        descriptor to just behind the current one. */
    method HandleIrq(status: bv16, index: nat) returns (r: Handled)
      requires Valid()
      modifies this
      ensures Valid() && base == old(base)
      ensures r.NotOurs? <==> base == 0 || status & SR_INT_BITS == 0
      ensures r.NotOurs? ==> unchanged(this)
      ensures !r.NotOurs? ==>
                && nextDone == index % ENTRIES
                && refill == old(refill) + Marked(old(nextDone), index % ENTRIES)
      ensures r.Ours? ==> lastValid == (index + ENTRIES - 1) % ENTRIES
      ensures forall cpu: W.Cpu :: !r.NotOurs? && !cpu.Halted? && !cpu.Masked? ==>
                var out := W.Do(W.BUILT, old(View(cpu)), W.Irq(synth, W.Pages(Marked(old(nextDone), index % ENTRIES))));
                if r.Ours? then out == W.Next(View(cpu)) else out == W.QueueFull
    {
      hide Marked;
      if base == 0 || status & SR_INT_BITS == 0 { return NotOurs; }
      var civ := index % ENTRIES;
      var mask := MarkPages(nextDone, civ);
      nextDone := civ;
      if mask != {} {
        refill := refill + mask;
        given := given + [W.Pages(mask)];
        if waker {
          waker := false;
          if |queue| >= W.QUEUE_CAPACITY { return TaskQueueFull; }
          queue := queue + [synth];
        }
      }
      lastValid := (civ + ENTRIES - 1) % ENTRIES;
      r := Ours;
    }

    /** One look at the mask: take all of it. */
    method SwapMask() returns (mask: set<nat>)
      modifies this`refill, this`taken
      ensures mask == old(refill) && refill == {}
      ensures mask != {} ==> W.Take(old(View(W.Polling(synth, W.First))), synth, false) == View(W.Polling(synth, W.Working))
      ensures mask != {} ==> W.Take(old(View(W.Polling(synth, W.Second))), synth, true) == View(W.Polling(synth, W.Working))
      ensures mask == {} ==> unchanged(this)
    {
      mask := refill;
      refill := {};
      if mask != {} { taken := taken + [W.Mask(mask)]; }
    }

    /** An interrupt of the card, if there is one. */
    method Interrupted(irq: Option<nat>) returns (full: bool)
      requires Valid() && base != 0
      modifies this
      ensures Valid() && base == old(base)
      ensures forall at :: !full ==> W.Run(W.BUILT, old(View(W.Polling(synth, at))), Acts(synth, old(nextDone), irq)) == W.Next(View(W.Polling(synth, at)))
      ensures refill == old(refill) + Marks(old(nextDone), irq) && nextDone == Onward(old(nextDone), irq)
    {
      hide Marked;
      full := false;
      if irq.Some? {
        ghost var k := View(W.Polling(synth, W.First));
        var r := HandleIrq(SR_INT_BITS, irq.value);
        full := r.TaskQueueFull?;
      }
    }

    /** A poll, with an interrupt in either of its gaps: ready with the mask, or registered. It
        takes the protocol's steps, and misses no page marked before its last look. */
    method Poll(early: Option<nat>, late: Option<nat>) returns (mask: set<nat>, full: bool)
      requires Valid() && base != 0
      modifies this
      ensures Valid()
      ensures !full ==>
                refill == {} && mask == if old(refill) != {} then old(refill)
                                        else Marks(old(nextDone), early) + Marks(Onward(old(nextDone), early), late)
      ensures var acts := PollActs(synth, old(refill), old(nextDone), early, late);
              var k := old(View(W.Polling(synth, W.First)));
              !full ==> W.Run(W.BUILT, k, acts) == W.Next(View(W.Polling(synth, if mask != {} then W.Working else W.Leaving)))
    {
      hide Marked;
      full := false;
      ghost var k, first := View(W.Polling(synth, W.First)), nextDone;
      ghost var acts := [W.Exec];
      W.OneStep(W.BUILT, k, W.Exec);
      mask := SwapMask();
      if mask != {} { return; }
      full := Interrupted(early);
      if full { return; }
      W.RunJoins(W.BUILT, k, acts, Acts(synth, first, early));
      acts := acts + Acts(synth, first, early);
      StepOn(k, acts, View(W.Polling(synth, W.Registering)));
      ghost var registering := View(W.Polling(synth, W.Registering));
      waker := true;
      assert W.Execute(W.BUILT, registering) == View(W.Polling(synth, W.Second)) by {
        assert registering.srcs[synth := View(W.Halted).srcs[synth]] == View(W.Halted).srcs;
      }
      acts := acts + [W.Exec];
      full := Interrupted(late);
      if full { return; }
      W.RunJoins(W.BUILT, k, acts, Acts(synth, Onward(first, early), late));
      acts := acts + Acts(synth, Onward(first, early), late);
      StepOn(k, acts, View(W.Polling(synth, W.Second)));
      mask := SwapMask();
    }
  }

  /** What an interrupt does to the protocol, to the mask and to the expected descriptor. */
  function Acts(synth: W.TaskId, next: nat, irq: Option<nat>): seq<W.Action>
    requires next < ENTRIES
  {
    if irq.None? then [] else [W.Irq(synth, W.Pages(Marked(next, irq.value % ENTRIES)))]
  }

  function PollActs(synth: W.TaskId, refill: set<nat>, next: nat, early: Option<nat>, late: Option<nat>): seq<W.Action>
    requires next < ENTRIES
  {
    if refill != {} then [W.Exec]
    else [W.Exec] + Acts(synth, next, early) + [W.Exec] + Acts(synth, Onward(next, early), late) + [W.Exec]
  }

  function Marks(next: nat, irq: Option<nat>): set<nat>
    requires next < ENTRIES
  {
    if irq.None? then {} else Marked(next, irq.value % ENTRIES)
  }

  function Onward(next: nat, irq: Option<nat>): (r: nat)
    requires next < ENTRIES
    ensures r < ENTRIES
  {
    if irq.None? then next else irq.value % ENTRIES
  }
}
