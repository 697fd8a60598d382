/** The organ synthesizer: fixed-point additive synthesis into DMA pages (ac97.rs). */
module Synth {
  import opened Core
  import Ring

  const PHASES: nat := 0x1_0000_0000
  const SAMPLE_RATE: nat := 48_000
  const FRAMES: nat := 1024
  const PAGE: nat := 2048
  const MAX_VOICES: nat := 8

  /** The full range of the phase is one period; `step` is the frequency. */
  datatype Voice = Voice(phase: nat, step: nat)

  // --- the sine table ---

  const PEAK: int := 32767

  /** The first quarter of the table, eight entries a row; the peak and the mirrored quarters
      follow from it. */
  function Row(r: nat): (s: seq<int>)
    ensures |s| == 8 && forall i :: 0 <= i < 8 ==> 0 <= s[i] <= PEAK
  {
    match r
    case 0 => [0, 804, 1608, 2410, 3212, 4011, 4808, 5602]
    case 1 => [6393, 7179, 7962, 8739, 9512, 10278, 11039, 11793]
    case 2 => [12539, 13279, 14010, 14732, 15446, 16151, 16846, 17530]
    case 3 => [18204, 18868, 19519, 20159, 20787, 21403, 22005, 22594]
    case 4 => [23170, 23731, 24279, 24811, 25329, 25832, 26319, 26790]
    case 5 => [27245, 27683, 28105, 28510, 28898, 29268, 29621, 29956]
    case 6 => [30273, 30571, 30852, 31113, 31356, 31580, 31785, 31971]
    case _ => [32137, 32285, 32412, 32521, 32609, 32678, 32728, 32757]
  }

  function Quarter(i: nat): (s: int)
    requires i <= 64
    ensures 0 <= s <= PEAK
  {
    if i == 64 then PEAK else Row(i / 8)[i % 8]
  }

  function Sine(i: nat): (s: int)
    requires i < 256
    ensures -PEAK <= s <= PEAK
  {
    if i <= 64 then Quarter(i)
    else if i <= 128 then Quarter(128 - i)
    else if i <= 192 then -Quarter(i - 128)
    else -Quarter(256 - i)
  }

  // --- it is a sine ---

  /** The second half of the period is the first upside down, and each half is its own mirror image;
      the table is odd about its zeros. */
  lemma Symmetries(i: nat)
    requires i < 256
    ensures i < 128 ==> Sine(i + 128) == -Sine(i)
    ensures i <= 128 ==> Sine(128 - i) == Sine(i)
    ensures 0 < i ==> Sine(256 - i) == -Sine(i)
    ensures Sine(0) == 0 && Sine(64) == PEAK
  {
    hide Quarter;
    Ends();
  }

  lemma Ends()
    ensures Quarter(0) == 0 && Quarter(64) == PEAK
  {
  }

  function Abs(x: int): nat {
    if x < 0 then -x else x
  }

  /** An entry, the next one, and the entry as far from the peak as the first is from zero, its
      cosine: the entries climb, the squares of sine and cosine add up, and the next entry is what the
      addition theorem says, each to within the rounding of the entries. */
  predicate Turns(s: int, next: int, c: int) {
    && s < next
    && Abs(s * s + c * c - PEAK * PEAK) <= 2 * PEAK
    && Abs(next * PEAK - s * 32757 - c * 804) <= 2 * PEAK
  }

  /** The first quarter climbs from zero to the peak as a sine does. */
  lemma SineTurns(i: nat)
    requires i < 64
    ensures Sine(0) == 0 && Sine(1) == 804 && Sine(63) == 32757 && Sine(64) == PEAK
    ensures Turns(Sine(i), Sine(i + 1), Sine(64 - i))
  {
    hide Turns, Row;
    var r, c := i / 8, i % 8;
    RowTurns(r, c);
    Corners();
    if c == 7 && r < 7 { assert (i + 1) / 8 == r + 1 && (i + 1) % 8 == 0; }
    if c == 0 && r > 0 { assert (64 - i) / 8 == 8 - r && (64 - i) % 8 == 0; }
  }

  lemma Corners()
    ensures Row(0)[0] == 0 && Row(0)[1] == 804 && Row(7)[7] == 32757
  {
  }

  /** The entry after column `c` of row `r`, and the entry it mirrors in. */
  function Next(r: nat, c: nat): int
    requires r < 8 && c < 8
  {
    if c < 7 then Row(r)[c + 1] else if r < 7 then Row(r + 1)[0] else PEAK
  }

  function Cosine(r: nat, c: nat): int
    requires r < 8 && c < 8
  {
    if c > 0 then Row(7 - r)[8 - c] else if r > 0 then Row(8 - r)[0] else PEAK
  }

  lemma RowTurns(r: nat, c: nat)
    requires r < 8 && c < 8
    ensures Turns(Row(r)[c], Next(r, c), Cosine(r, c))
  {
    hide Turns;
    match r
    case 0 => Checks0();
    case 1 => Checks1();
    case 2 => Checks2();
    case 3 => Checks3();
    case 4 => Checks4();
    case 5 => Checks5();
    case 6 => Checks6();
    case _ => Checks7();
  }

  lemma Checks0()
    ensures Turns(0, 804, 32767) && Turns(804, 1608, 32757) && Turns(1608, 2410, 32728)
    ensures Turns(2410, 3212, 32678) && Turns(3212, 4011, 32609) && Turns(4011, 4808, 32521)
    ensures Turns(4808, 5602, 32412) && Turns(5602, 6393, 32285)
  {
  }

  lemma Checks1()
    ensures Turns(6393, 7179, 32137) && Turns(7179, 7962, 31971) && Turns(7962, 8739, 31785)
    ensures Turns(8739, 9512, 31580) && Turns(9512, 10278, 31356) && Turns(10278, 11039, 31113)
    ensures Turns(11039, 11793, 30852) && Turns(11793, 12539, 30571)
  {
  }

  lemma Checks2()
    ensures Turns(12539, 13279, 30273) && Turns(13279, 14010, 29956) && Turns(14010, 14732, 29621)
    ensures Turns(14732, 15446, 29268) && Turns(15446, 16151, 28898) && Turns(16151, 16846, 28510)
    ensures Turns(16846, 17530, 28105) && Turns(17530, 18204, 27683)
  {
  }

  lemma Checks3()
    ensures Turns(18204, 18868, 27245) && Turns(18868, 19519, 26790) && Turns(19519, 20159, 26319)
    ensures Turns(20159, 20787, 25832) && Turns(20787, 21403, 25329) && Turns(21403, 22005, 24811)
    ensures Turns(22005, 22594, 24279) && Turns(22594, 23170, 23731)
  {
  }

  lemma Checks4()
    ensures Turns(23170, 23731, 23170) && Turns(23731, 24279, 22594) && Turns(24279, 24811, 22005)
    ensures Turns(24811, 25329, 21403) && Turns(25329, 25832, 20787) && Turns(25832, 26319, 20159)
    ensures Turns(26319, 26790, 19519) && Turns(26790, 27245, 18868)
  {
  }

  lemma Checks5()
    ensures Turns(27245, 27683, 18204) && Turns(27683, 28105, 17530) && Turns(28105, 28510, 16846)
    ensures Turns(28510, 28898, 16151) && Turns(28898, 29268, 15446) && Turns(29268, 29621, 14732)
    ensures Turns(29621, 29956, 14010) && Turns(29956, 30273, 13279)
  {
  }

  lemma Checks6()
    ensures Turns(30273, 30571, 12539) && Turns(30571, 30852, 11793) && Turns(30852, 31113, 11039)
    ensures Turns(31113, 31356, 10278) && Turns(31356, 31580, 9512) && Turns(31580, 31785, 8739)
    ensures Turns(31785, 31971, 7962) && Turns(31971, 32137, 7179)
  {
  }

  lemma Checks7()
    ensures Turns(32137, 32285, 6393) && Turns(32285, 32412, 5602) && Turns(32412, 32521, 4808)
    ensures Turns(32521, 32609, 4011) && Turns(32609, 32678, 3212) && Turns(32678, 32728, 2410)
    ensures Turns(32728, 32757, 1608) && Turns(32757, 32767, 804)
  {
  }

  // --- one frame ---

  /** The top eight bits of the wrapped harmonic phase. */
  function TableIndex(phase: nat, multiple: nat): (i: nat)
    ensures i < 256
  {
    phase * multiple % PHASES / 0x100_0000
  }

  /** The drawbars: fundamental and overtones with their amplitudes. */
  const HARMONICS: seq<(nat, int)> := [(1, 32), (2, 16), (3, 8), (4, 4)]

  function Partial(phase: nat, h: (nat, int)): int {
    Sine(TableIndex(phase, h.0)) * h.1
  }

  function Partials(phase: nat, hs: seq<(nat, int)>): int {
    if hs == [] then 0 else Partials(phase, hs[..|hs| - 1]) + Partial(phase, hs[|hs| - 1])
  }

  type Voices = seq<Option<Voice>>

  function Mix(vs: Voices): int {
    if vs == [] then 0
    else Mix(vs[..|vs| - 1]) + (if vs[|vs| - 1].Some? then Partials(vs[|vs| - 1].value.phase, HARMONICS) else 0)
  }

  /** Voices add up. */
  lemma {:induction false} MixAdds(a: Voices, b: Voices)
    ensures Mix(a + b) == Mix(a) + Mix(b)
    decreases |b|
  {
    hide Partials;
    if b == [] {
      assert a + b == a;
    } else {
      assert (a + b)[..|a + b| - 1] == a + b[..|b| - 1];
      MixAdds(a, b[..|b| - 1]);
    }
  }

  /** A lone voice is its fundamental and three overtones, each half as loud as the one before;
      silence adds nothing. */
  lemma MixAlone(v: Voice)
    ensures Mix([None]) == 0
    ensures Mix([Some(v)]) == 32 * Sine(TableIndex(v.phase, 1)) + 16 * Sine(TableIndex(v.phase, 2))
                              + 8 * Sine(TableIndex(v.phase, 3)) + 4 * Sine(TableIndex(v.phase, 4))
  {
    hide TableIndex, Sine;
    var a, b, c, d := HARMONICS[0], HARMONICS[1], HARMONICS[2], HARMONICS[3];
    assert HARMONICS[..3] == [a, b, c] && [a, b, c][..2] == [a, b] && [a, b][..1] == [a];
    assert Partials(v.phase, []) == 0 && Partials(v.phase, [a]) == Partial(v.phase, a);
    assert Partials(v.phase, [a, b]) == Partials(v.phase, [a]) + Partial(v.phase, b);
    assert Partials(v.phase, [a, b, c]) == Partials(v.phase, [a, b]) + Partial(v.phase, c);
    var one: Voices, none: Voices := [Some(v)], [None];
    assert one[..0] == [] && none[..0] == [] && Mix([]) == 0;
  }

  /** An overtone is the fundamental of a phase that turns so many times as fast, and a 256th of a
      turn is one entry. */
  lemma OvertonesTurnFaster(phase: nat, m: nat)
    ensures TableIndex(phase, m) == TableIndex(phase * m % PHASES, 1)
    ensures phase < PHASES ==> TableIndex(phase, 1) * 0x100_0000 <= phase < TableIndex(phase, 1) * 0x100_0000 + 0x100_0000
  {
  }

  function Clamp(x: int): int {
    if x < -32768 then -32768 else if x > 32767 then 32767 else x
  }

  function Sample(vs: Voices): int {
    Clamp(Mix(vs) / 512)
  }

  function Turn(v: Voice): Voice {
    v.(phase := (v.phase + v.step) % PHASES)
  }

  function Advance(vs: Voices): (r: Voices)
    ensures |r| == |vs|
  {
    seq(|vs|, i requires 0 <= i < |vs| => if vs[i].Some? then Some(Turn(vs[i].value)) else None)
  }

  // --- many frames ---

  function Later(vs: Voices, n: nat): (r: Voices)
    ensures |r| == |vs|
    decreases n
  {
    if n == 0 then vs else Later(Advance(vs), n - 1)
  }

  /** Interleaved stereo. */
  function Played(vs: Voices, n: nat): (r: seq<int>)
    ensures |r| == 2 * n
    decreases n
  {
    if n == 0 then [] else [Sample(vs), Sample(vs)] + Played(Advance(vs), n - 1)
  }

  lemma {:induction false} LaterAdds(vs: Voices, m: nat, n: nat)
    ensures Later(vs, m + n) == Later(Later(vs, m), n)
    decreases m
  {
    if m > 0 { LaterAdds(Advance(vs), m - 1, n); }
  }

  /** Filling buffers piece by piece is filling one long buffer. */
  lemma {:induction false} PiecewiseIsOne(vs: Voices, m: nat, n: nat)
    ensures Played(vs, m + n) == Played(vs, m) + Played(Later(vs, m), n)
    decreases m
  {
    if m == 0 {
      assert Played(vs, 0) + Played(vs, n) == Played(vs, n);
    } else {
      PiecewiseIsOne(Advance(vs), m - 1, n);
    }
  }

  /** Frame `k` is the mix of the voices after `k` turns, on both channels. */
  lemma {:induction false} FrameAt(vs: Voices, n: nat, k: nat)
    requires k < n
    ensures Played(vs, n)[2 * k] == Played(vs, n)[2 * k + 1] == Sample(Later(vs, k))
    decreases n
  {
    if k > 0 { FrameAt(Advance(vs), n - 1, k - 1); }
  }

  /** After `n` frames a voice's phase has advanced `n` steps, modulo 2^32. */
  lemma {:induction false} PhaseAfter(vs: Voices, n: nat, i: nat)
    requires i < |vs|
    ensures vs[i].Some? <==> Later(vs, n)[i].Some?
    ensures vs[i].Some? ==> Later(vs, n)[i].value.step == vs[i].value.step
    ensures vs[i].Some? && vs[i].value.phase < PHASES ==>
              Later(vs, n)[i].value.phase == (vs[i].value.phase + n * vs[i].value.step) % PHASES
    decreases n
  {
    if n > 0 {
      PhaseAfter(Advance(vs), n - 1, i);
      if vs[i].Some? && vs[i].value.phase < PHASES {
        OneMoreStep(vs[i].value.phase, vs[i].value.step, n);
      }
    }
  }

  lemma OneMoreStep(p: nat, s: nat, n: nat)
    requires n > 0
    ensures ((p + s) % PHASES + (n - 1) * s) % PHASES == (p + n * s) % PHASES
  {
    var m := (n - 1) * s;
    assert n * s == m + s;
    ModAdds(p + s, m);
  }

  lemma ModAdds(a: nat, b: nat)
    ensures (a % PHASES + b) % PHASES == (a + b) % PHASES
  {
    var q := a / PHASES;
    assert a == PHASES * q + a % PHASES;
    assert a + b == PHASES * q + (a % PHASES + b);
    ModShift(a % PHASES + b, q);
  }

  lemma ModShift(x: nat, q: nat)
    ensures (PHASES * q + x) % PHASES == x % PHASES
  {
  }

  // --- headroom ---

  const PER_VOICE: int := 60 * PEAK

  lemma PartialsBounded(phase: nat)
    ensures -PER_VOICE <= Partials(phase, HARMONICS) <= PER_VOICE
  {
    var a, b, c, d := HARMONICS[0], HARMONICS[1], HARMONICS[2], HARMONICS[3];
    assert HARMONICS[..3] == [a, b, c] && [a, b, c][..2] == [a, b] && [a, b][..1] == [a];
    assert Partials(phase, []) == 0;
    assert Partials(phase, [a]) == Partial(phase, a);
    assert Partials(phase, [a, b]) == Partials(phase, [a]) + Partial(phase, b);
    assert Partials(phase, [a, b, c]) == Partials(phase, [a, b]) + Partial(phase, c);
  }

  lemma {:induction false} MixBounded(vs: Voices)
    ensures -(|vs| * PER_VOICE) <= Mix(vs) <= |vs| * PER_VOICE
  {
    hide Partials;
    if vs != [] {
      MixBounded(vs[..|vs| - 1]);
      if vs[|vs| - 1].Some? { PartialsBounded(vs[|vs| - 1].value.phase); }
      var n := |vs| - 1;
      assert |vs| * PER_VOICE == n * PER_VOICE + PER_VOICE;
    }
  }

  /** With at most eight voices the accumulator stays within 8 · 60 · 32767, which fits 32 bits,
      and the clamp never changes a sample. */
  lemma NeverClips(vs: Voices)
    requires |vs| <= MAX_VOICES
    ensures -(8 * PER_VOICE) <= Mix(vs) <= 8 * PER_VOICE < 0x8000_0000
    ensures Sample(vs) == Mix(vs) / 512
  {
    hide Mix, Partials;
    MixBounded(vs);
    assert |vs| * PER_VOICE <= 8 * PER_VOICE;
  }

  // --- filling the ring's pages ---

  /** The pages of a mask in the order the synth task fills them. */
  function FillOrder(mask: set<nat>, from: nat): seq<nat>
    requires from <= Ring.BUFFERS
    decreases Ring.BUFFERS - from
  {
    if from == Ring.BUFFERS then []
    else (if from in mask then [from] else []) + FillOrder(mask, from + 1)
  }

  /** The pages in the order the card plays them again: ring order, from the next to complete. */
  function PlayOrder(next: nat, n: nat): (r: seq<nat>)
    ensures |r| == n
  {
    seq(n, j requires 0 <= j < n => Ring.PageAfter(next, j))
  }

  lemma PlayedPage(next: nat, j: nat)
    requires next < Ring.ENTRIES && j < 4
    ensures var start := next % Ring.BUFFERS; Ring.PageAfter(next, j) == if start + j < 4 then start + j else start + j - 4
  {
    hide Ring.PageAfter;
    Ring.PageCycles(next, j);
  }

  /** The pages of a run of `n` from page `start` on, round the four of them. */
  lemma RunOfPages(next: nat, n: nat)
    requires next < Ring.ENTRIES && n <= Ring.BUFFERS
    ensures var start := next % Ring.BUFFERS;
            && (forall j :: 0 <= j < n ==> PlayOrder(next, n)[j] == if start + j < 4 then start + j else start + j - 4)
            && forall p :: 0 <= p < 4 ==> (p in Ring.Completed(next, n) <==> (start <= p < start + n) || p + 4 < start + n)
  {
    hide Ring.PageAfter;
    var start := next % Ring.BUFFERS;
    forall j | 0 <= j < n ensures PlayOrder(next, n)[j] == if start + j < 4 then start + j else start + j - 4 {
      PlayedPage(next, j);
    }
    forall p | 0 <= p < 4 ensures p in Ring.Completed(next, n) <==> (start <= p < start + n) || p + 4 < start + n {
      PageIn(next, n, p);
    }
  }

  lemma PageIn(next: nat, n: nat, p: nat)
    requires next < Ring.ENTRIES && n <= Ring.BUFFERS && p < 4
    ensures var start := next % Ring.BUFFERS; p in Ring.Completed(next, n) <==> (start <= p < start + n) || p + 4 < start + n
  {
    hide Ring.PageAfter;
    var start := next % Ring.BUFFERS;
    if j :| 0 <= j < n && p == Ring.PageAfter(next, j) { PlayedPage(next, j); }
    if start <= p < start + n { PlayedPage(next, p - start); }
    if p < start && p + 4 < start + n { PlayedPage(next, p + 4 - start); }
  }

  /** A run that does not wrap is filled from its first page on. */
  lemma {:induction false} FillsRun(mask: set<nat>, start: nat, n: nat, from: nat)
    requires from <= start + n <= Ring.BUFFERS && start <= Ring.BUFFERS
    requires forall p :: from <= p < Ring.BUFFERS ==> (p in mask <==> start <= p < start + n)
    ensures var first := if from < start then start else from;
            FillOrder(mask, from) == seq(start + n - first, j requires 0 <= j < start + n - first => first + j)
    decreases Ring.BUFFERS - from
  {
    if from < start + n {
      FillsRun(mask, start, n, from + 1);
    } else {
      FillsNothing(mask, from);
    }
  }

  lemma {:induction false} FillsNothing(mask: set<nat>, from: nat)
    requires from <= Ring.BUFFERS && forall p :: from <= p < Ring.BUFFERS ==> p !in mask
    ensures FillOrder(mask, from) == []
    decreases Ring.BUFFERS - from
  {
    if from < Ring.BUFFERS { FillsNothing(mask, from + 1); }
  }

  /** Up to four completed pages are filled in the order they will be played exactly when they do
      not run past page 3; a wrapped run is filled from page 0 on, out of the order of time. */
  lemma FillsInPlayOrder(next: nat, n: nat)
    requires next < Ring.ENTRIES && n <= Ring.BUFFERS
    ensures FillOrder(Ring.Completed(next, n), 0) == PlayOrder(next, n) <==> next % Ring.BUFFERS + n <= Ring.BUFFERS
  {
    hide Ring.Completed, PlayOrder;
    var mask, start := Ring.Completed(next, n), next % Ring.BUFFERS;
    RunOfPages(next, n);
    if start + n <= 4 {
      FillsRun(mask, start, n, 0);
    } else {
      assert 0 in mask;
      assert FillOrder(mask, 0)[0] == 0;
      assert PlayOrder(next, n)[0] == start;
    }
  }

  // --- notes ---

  /** The u32 the frequency scales to; the cast drops what does not fit. */
  function StepOf(freq: nat): nat {
    freq * PHASES / SAMPLE_RATE % PHASES
  }

  /** Different frequencies below the sample rate are different notes. */
  lemma StepsInjective(f: nat, g: nat)
    requires f < g < SAMPLE_RATE
    ensures StepOf(f) < StepOf(g)
  {
    var a, b := f * PHASES / SAMPLE_RATE, g * PHASES / SAMPLE_RATE;
    assert f * PHASES + PHASES <= g * PHASES;
    assert SAMPLE_RATE <= PHASES;
    assert g * PHASES < SAMPLE_RATE * PHASES;
  }

  /** The step makes the frequency: a second of frames turns the phase that many times, but for less
      than a frame. */
  lemma StepIsFrequency(freq: nat)
    requires freq < SAMPLE_RATE
    ensures StepOf(freq) * SAMPLE_RATE <= freq * PHASES < StepOf(freq) * SAMPLE_RATE + SAMPLE_RATE
  {
    assert freq * PHASES < SAMPLE_RATE * PHASES;
    var q := freq * PHASES / SAMPLE_RATE;
    assert q < PHASES;
  }

  /** No note sounds twice. */
  predicate Distinct(vs: Voices) {
    forall i, j :: 0 <= i < j < |vs| && vs[i].Some? && vs[j].Some? ==> vs[i].value.step != vs[j].value.step
  }

  predicate Sounding(vs: Voices, step: nat) {
    exists i :: 0 <= i < |vs| && vs[i].Some? && vs[i].value.step == step
  }

  // --- the synthesizer as the program has it ---

  /** The voices and the four pages of interleaved samples the card streams. */
  class Card {
    const voices: array<Option<Voice>>
    const buffer: array<int>

    constructor ()
      ensures Valid() && fresh(voices) && fresh(buffer) && voices[..] == seq(MAX_VOICES, i => None)
    {
      voices := new Option<Voice>[MAX_VOICES](i => None);
      buffer := new int[Ring.BUFFERS * PAGE](i => 0);
    }

    predicate Valid()
      reads this
    {
      voices.Length == MAX_VOICES && buffer.Length == Ring.BUFFERS * PAGE
    }

    /** Start a voice: retrigger the note if it sounds, else take the first free slot. */
    method NoteOn(freq: nat)
      requires Valid() && Distinct(voices[..])
      modifies voices
      ensures Distinct(voices[..])
      ensures var was, now, step := old(voices[..]), voices[..], StepOf(freq);
              && (Sounding(now, step) <==> Sounding(was, step) || None in was)
              && (Sounding(now, step) ==> Some(Voice(0, step)) in now)
              && (forall s :: s != step ==> (Sounding(now, s) <==> Sounding(was, s)))
              && (forall i :: 0 <= i < |was| ==> now[i] == was[i] || now[i] == Some(Voice(0, step)))
    {
      var step := StepOf(freq);
      ghost var was := voices[..];
      for i := 0 to voices.Length
        invariant forall k :: 0 <= k < i ==> !(voices[k].Some? && voices[k].value.step == step)
        invariant voices[..] == was
      {
        if voices[i].Some? && voices[i].value.step == step {
          voices[i] := Some(Voice(0, step));
          Retriggered(was, voices[..], i, step);
          return;
        }
      }
      for i := 0 to voices.Length
        invariant forall k :: 0 <= k < i ==> voices[k].Some?
        invariant voices[..] == was
      {
        if voices[i].None? {
          voices[i] := Some(Voice(0, step));
          Started(was, voices[..], i, step);
          return;
        }
      }
    }

    method NoteOff(freq: nat)
      requires Valid()
      modifies voices
      ensures var was, now, step := old(voices[..]), voices[..], StepOf(freq);
              forall i :: 0 <= i < |was| ==> now[i] == if was[i].Some? && was[i].value.step == step then None else was[i]
      ensures !Sounding(voices[..], StepOf(freq)) && (old(Distinct(voices[..])) ==> Distinct(voices[..]))
    {
      var step := StepOf(freq);
      ghost var was := voices[..];
      for i := 0 to voices.Length
        invariant forall k :: 0 <= k < i ==> voices[k] == if was[k].Some? && was[k].value.step == step then None else was[k]
        invariant forall k :: i <= k < voices.Length ==> voices[k] == was[k]
      {
        if voices[i].Some? && voices[i].value.step == step { voices[i] := None; }
      }
    }

    /** The sum of one frame, each voice's phase turned as it is read. */
    method MixFrame() returns (acc: int)
      modifies voices
      ensures acc == Mix(old(voices[..])) && voices[..] == Advance(old(voices[..]))
    {
      hide Partials, Turn;
      acc := 0;
      var i := 0;
      ghost var was := voices[..];
      while i < voices.Length
        invariant 0 <= i <= voices.Length
        invariant acc == Mix(was[..i])
        invariant forall k :: 0 <= k < i ==> voices[k] == Advance(was)[k]
        invariant forall k :: i <= k < voices.Length ==> voices[k] == was[k]
      {
        assert was[..i + 1][..i] == was[..i];
        if voices[i].Some? {
          var v := voices[i].value;
          voices[i] := Some(Turn(v));
          var part := Harmonic(v.phase);
          acc := acc + part;
        }
        i := i + 1;
      }
      assert was[..voices.Length] == was;
    }

    method Harmonic(phase: nat) returns (sum: int)
      ensures sum == Partials(phase, HARMONICS)
    {
      sum := 0;
      for h := 0 to |HARMONICS|
        invariant sum == Partials(phase, HARMONICS[..h])
      {
        assert HARMONICS[..h + 1][..h] == HARMONICS[..h];
        sum := sum + Partial(phase, HARMONICS[h]);
      }
      assert HARMONICS[..|HARMONICS|] == HARMONICS;
    }

    /** Fill `n` frames from `lo` on and leave the rest of the buffer alone. */
    method Synthesize(lo: nat, n: nat)
      requires lo + 2 * n <= buffer.Length
      modifies voices, buffer
      ensures buffer[lo..lo + 2 * n] == Played(old(voices[..]), n) && voices[..] == Later(old(voices[..]), n)
      ensures buffer[..lo] == old(buffer[..lo]) && buffer[lo + 2 * n..] == old(buffer[lo + 2 * n..])
    {
      hide Sample, Mix, Advance;
      ghost var was := voices[..];
      var k := 0;
      PiecewiseIsOne(was, 0, n);
      while k < n
        invariant 0 <= k <= n && voices[..] == Later(was, k)
        invariant buffer[lo..lo + 2 * k] == Played(was, k)
        invariant buffer[..lo] == old(buffer[..lo]) && buffer[lo + 2 * n..] == old(buffer[lo + 2 * n..])
      {
        ghost var now := voices[..];
        var acc := MixFrame();
        var sample := Clamp(acc / 512);
        assert sample == Sample(now) by { SampleOf(now); }
        buffer[lo + 2 * k] := sample;
        buffer[lo + 2 * k + 1] := sample;
        OneMoreFrame(was, k);
        assert buffer[lo..lo + 2 * (k + 1)] == buffer[lo..lo + 2 * k] + [sample, sample];
        k := k + 1;
      }
    }

    /** Refill the pages of a mask, in the order of their numbers. */
    method RefillPages(mask: set<nat>)
      requires Valid()
      modifies voices, buffer
      ensures Valid() && voices[..] == Later(old(voices[..]), FRAMES * |FillOrder(mask, 0)|)
      ensures Filled(mask, old(voices[..]), old(buffer[..]), buffer[..], Ring.BUFFERS)
    {
      hide Played;
      ghost var vs, was := voices[..], buffer[..];
      ghost var rank: nat := 0;
      for p := 0 to Ring.BUFFERS
        invariant rank + |FillOrder(mask, p)| == |FillOrder(mask, 0)|
        invariant rank == Before(mask, p) && voices[..] == Later(vs, FRAMES * rank)
        invariant Filled(mask, vs, was, buffer[..], p)
      {
        ghost var old2 := buffer[..];
        if p in mask {
          Synthesize(p * PAGE, FRAMES);
          LaterAdds(vs, FRAMES * rank, FRAMES);
          rank := rank + 1;
        }
        StillFilled(mask, vs, was, old2, buffer[..], p);
      }
    }
  }

  lemma Retriggered(was: Voices, now: Voices, i: nat, step: nat)
    requires i < |was| && was[i].Some? && was[i].value.step == step && now == was[i := Some(Voice(0, step))] && Distinct(was)
    ensures Distinct(now) && forall s :: Sounding(now, s) <==> Sounding(was, s)
  {
    forall s ensures Sounding(now, s) <==> Sounding(was, s) {
      if k :| 0 <= k < |was| && was[k].Some? && was[k].value.step == s { assert now[k].value.step == s; }
      if k :| 0 <= k < |now| && now[k].Some? && now[k].value.step == s { assert was[k].value.step == s; }
    }
  }

  lemma Started(was: Voices, now: Voices, i: nat, step: nat)
    requires i < |was| && was[i].None? && now == was[i := Some(Voice(0, step))] && Distinct(was) && !Sounding(was, step)
    ensures Distinct(now) && forall s :: Sounding(now, s) <==> s == step || Sounding(was, s)
  {
    forall s ensures Sounding(now, s) <==> s == step || Sounding(was, s) {
      if k :| 0 <= k < |was| && was[k].Some? && was[k].value.step == s { assert now[k].value.step == s; }
      if s == step { assert now[i].value.step == s; }
      if k :| 0 <= k < |now| && now[k].Some? && now[k].value.step == s { assert k == i || was[k].value.step == s; }
    }
  }

  lemma SampleOf(vs: Voices)
    ensures Sample(vs) == Clamp(Mix(vs) / 512)
  {
  }

  lemma OneMoreFrame(vs: Voices, k: nat)
    ensures Played(vs, k + 1) == Played(vs, k) + [Sample(Later(vs, k)), Sample(Later(vs, k))]
    ensures Later(vs, k + 1) == Advance(Later(vs, k))
  {
    hide Sample, Advance;
    PiecewiseIsOne(vs, k, 1);
    LaterAdds(vs, k, 1);
    assert Played(Later(vs, k), 1) == [Sample(Later(vs, k)), Sample(Later(vs, k))] + Played(Advance(Later(vs, k)), 0);
    assert Later(Later(vs, k), 1) == Later(Advance(Later(vs, k)), 0);
  }

  /** How many pages of the mask are filled before page `p`. */
  function Before(mask: set<nat>, p: nat): nat {
    if p == 0 then 0 else Before(mask, p - 1) + (if p - 1 in mask then 1 else 0)
  }

  /** Page `p` of a buffer. */
  function PageOf(b: seq<int>, p: nat): seq<int>
    requires p < Ring.BUFFERS && |b| == Ring.BUFFERS * PAGE
  {
    b[p * PAGE..(p + 1) * PAGE]
  }

  /** The pages below `done`: those of the mask hold consecutive stretches of one long fill, the
      others what they held. */
  predicate Filled(mask: set<nat>, vs: Voices, was: seq<int>, now: seq<int>, done: nat)
    requires done <= Ring.BUFFERS
  {
    && |was| == |now| == Ring.BUFFERS * PAGE
    && forall p :: 0 <= p < Ring.BUFFERS ==>
         PageOf(now, p) == if p < done && p in mask then Played(Later(vs, FRAMES * Before(mask, p)), FRAMES) else PageOf(was, p)
  }

  lemma StillFilled(mask: set<nat>, vs: Voices, was: seq<int>, b: seq<int>, b': seq<int>, p: nat)
    requires p < Ring.BUFFERS && Filled(mask, vs, was, b, p) && |b'| == |b|
    requires if p in mask then
               && b'[p * PAGE..(p + 1) * PAGE] == Played(Later(vs, FRAMES * Before(mask, p)), FRAMES)
               && b'[..p * PAGE] == b[..p * PAGE] && b'[(p + 1) * PAGE..] == b[(p + 1) * PAGE..]
             else b' == b
    ensures Filled(mask, vs, was, b', p + 1)
  {
    hide Played, Later;
    hide PageOf;
    forall q | 0 <= q < Ring.BUFFERS && q != p ensures PageOf(b', q) == PageOf(b, q) {
      if p in mask { OtherPage(b, b', p, q); }
    }
    if p in mask { ThisPage(b', p); }
  }

  lemma ThisPage(b: seq<int>, p: nat)
    requires p < Ring.BUFFERS && |b| == Ring.BUFFERS * PAGE
    ensures PageOf(b, p) == b[p * PAGE..(p + 1) * PAGE]
  {
  }

  lemma OtherPage(b: seq<int>, b': seq<int>, p: nat, q: nat)
    requires p < Ring.BUFFERS && q < Ring.BUFFERS && q != p && |b| == |b'| == Ring.BUFFERS * PAGE
    requires b'[..p * PAGE] == b[..p * PAGE] && b'[(p + 1) * PAGE..] == b[(p + 1) * PAGE..]
    ensures PageOf(b', q) == PageOf(b, q)
  {
    var lo, hi := q * PAGE, (q + 1) * PAGE;
    if q < p { SamePrefix(b, b', p * PAGE, lo, hi); } else { SameSuffix(b, b', (p + 1) * PAGE, lo, hi); }
  }

  lemma SamePrefix(a: seq<int>, b: seq<int>, k: nat, lo: nat, hi: nat)
    requires lo <= hi <= k <= |a| && k <= |b| && a[..k] == b[..k]
    ensures a[lo..hi] == b[lo..hi]
  {
    forall i | lo <= i < hi ensures a[i] == b[i] { assert a[..k][i] == b[..k][i]; }
  }

  lemma SameSuffix(a: seq<int>, b: seq<int>, k: nat, lo: nat, hi: nat)
    requires k <= lo <= hi <= |a| == |b| && a[k..] == b[k..]
    ensures a[lo..hi] == b[lo..hi]
  {
    forall i | lo <= i < hi ensures a[i] == b[i] { assert a[k..][i - k] == b[k..][i - k]; }
  }
}
