/** Which phrases the transcriber takes, and the note it refuses the others at (transcribe.rs). */
module Phrases {
  import opened Core
  import opened Grammar
  import opened Degrees
  import opened Transcription

  /** The cadences still owed after an operation: a branch owes one for each of its arms. */
  function Owed(owed: nat, op: RenderOp): nat
    requires owed > 0
  {
    if op.Branch? then owed + 1 else if op.Cadence? then owed - 1 else owed
  }

  /** Where, from note `i` on, the cadences owed have all been sung. */
  function Paid(ops: seq<RenderOp>, i: nat, owed: nat): (r: Option<nat>)
    requires i <= |ops|
    ensures r.Some? ==> i <= r.value <= |ops|
    decreases |ops| - i
  {
    if owed == 0 then Some(i) else if i == |ops| then None else Paid(ops, i + 1, Owed(owed, ops[i]))
  }

  lemma {:induction false} PaidInTurn(ops: seq<RenderOp>, i: nat, a: nat, b: nat)
    requires i <= |ops|
    ensures Paid(ops, i, a + b)
         == match Paid(ops, i, a) case None => None case Some(j) => Paid(ops, j, b)
    decreases |ops| - i
  {
    if a > 0 && i < |ops| {
      PaidInTurn(ops, i + 1, Owed(a, ops[i]), b);
      assert Owed(a + b, ops[i]) == Owed(a, ops[i]) + b;
    }
  }

  /** A block ends where its one cadence is paid, and is refused past the last note if it is not. */
  lemma {:induction false} BlockPays(ops: seq<RenderOp>, mode: Mode, p: Pen)
    requires p.pos <= |ops|
    ensures match Paid(ops, p.pos, 1)
            case Some(j) => Block(ops, mode, p).Took? && Block(ops, mode, p).val.pos == j
            case None => Block(ops, mode, p) == Refused(|ops| + 1, NoCadence)
    decreases |ops| - p.pos
  {
    hide BoundToks, EffectToks, VarName, Effectful, Amens;
    if p.pos < |ops| {
      var op, p1 := ops[p.pos], p.(pos := p.pos + 1);
      if op.Branch? {
        PaidInTurn(ops, p.pos + 1, 1, 1);
        BlockPays(ops, mode, Put(p1, OPEN_ARM));
        var b := Block(ops, mode, Put(p1, OPEN_ARM));
        if b.Took? { BlockPays(ops, mode, Put(b.val, NEXT_ARM)); }
      } else if op.Cadence? {
        assert Paid(ops, p.pos + 1, 0) == Some(p.pos + 1);
      } else {
        BlockPays(ops, mode, Write(mode, op, p));
      }
    }
  }

  /** The note is a degree of the mode, measured from the cadence. */
  predicate IsDegree(mode: Mode, pitch: nat, cadence: nat) {
    exists d: nat :: 1 <= d <= 8 && DegreeOffset(mode, d) == pitch - cadence
  }

  lemma {:induction false} OpsExactly(mode: Mode, pitches: seq<nat>, cadence: nat, i: nat)
    requires i <= |pitches|
    ensures var r := OpsFrom(mode, pitches, cadence, i);
            match r
            case Took(ops) =>
              && |ops| == |pitches| - i
              && forall k :: i <= k < |pitches| ==>
                   IsDegree(mode, pitches[k], cadence) && DegreeOffset(mode, Degree(mode, ops[k - i])) == pitches[k] - cadence
            case Refused(n, g) =>
              && i < n <= |pitches| && !IsDegree(mode, pitches[n - 1], cadence) && g == NoDegree(pitches[n - 1])
              && forall k :: i <= k < n - 1 ==> IsDegree(mode, pitches[k], cadence)
    decreases |pitches| - i
  {
    hide DegreeOffset, Degree, OpOfDegree;
    if i < |pitches| {
      OpsExactly(mode, pitches, cadence, i + 1);
      var d := FindDegree(mode, Interval(pitches[i], cadence), 1);
      DegreesBijective(mode);
      if d.Some? { assert IsDegree(mode, pitches[i], cadence); }
    }
  }

  /** The fate of every phrase: refused if it is silent, or does not end on a final; at its first note
      that is no degree of the mode; past its end if it owes a cadence; at the first note after the
      last cadence owed; and else taken, in the mode its end and its lowest notes give. */
  lemma TranscribeExactly(pitches: seq<nat>)
    ensures pitches == [] ==> Transcribe(pitches) == Refused(0, Silence)
    ensures pitches != [] && !(pitches[|pitches| - 1] % 12 in {2, 4, 5, 7}) ==>
              Transcribe(pitches) == Refused(|pitches|, OutsideModes)
    ensures pitches != [] && pitches[|pitches| - 1] % 12 in {2, 4, 5, 7} ==>
              var cadence := pitches[|pitches| - 1];
              exists mode: Mode :: mode.IsPlagal() == Dips(pitches, cadence) && FinalPitch(mode.FinalOf()) % 12 == cadence % 12
                && match OpsFrom(mode, pitches, cadence, 0)
                   case Refused(n, g) => Transcribe(pitches) == Refused(n, g)
                   case Took(ops) =>
                     match Paid(ops, 0, 1)
                     case None => Transcribe(pitches) == Refused(|pitches| + 1, NoCadence)
                     case Some(j) =>
                       if j < |pitches| then Transcribe(pitches) == Refused(j + 1, AfterAmen)
                       else Transcribe(pitches).Took? && Transcribe(pitches).val.mode == mode && Transcribe(pitches).val.ops == ops
  {
    hide Block, OpsFrom, Dips;
    if pitches != [] && pitches[|pitches| - 1] % 12 in {2, 4, 5, 7} {
      var cadence := pitches[|pitches| - 1];
      var f := FinalOfPitch(cadence).value;
      var mode := FromFinal(f, Dips(pitches, cadence));
      assert mode.IsPlagal() == Dips(pitches, cadence) && mode.FinalOf() == f && FinalPitch(f) % 12 == cadence % 12;
      OpsExactly(mode, pitches, cadence, 0);
      if OpsFrom(mode, pitches, cadence, 0).Took? {
        BlockPays(OpsFrom(mode, pitches, cadence, 0).val, mode, BLANK);
      }
    }
  }

  // --- the fugue ---

  lemma {:induction false} BlockNeeds(ops: seq<RenderOp>, mode: Mode, p: Pen)
    requires p.pos <= |ops| && Block(ops, mode, p).Took?
    ensures var q := Block(ops, mode, p).val;
            q.needsFugue <==> p.needsFugue || exists k :: p.pos <= k < q.pos && (ops[k].AskOp? || ops[k].ResolveOp?)
    decreases |ops| - p.pos
  {
    hide BoundToks, EffectToks, VarName, Effectful, Amens;
    var op, p1 := ops[p.pos], p.(pos := p.pos + 1);
    if op.Branch? {
      BlockNeeds(ops, mode, Put(p1, OPEN_ARM));
      var b := Block(ops, mode, Put(p1, OPEN_ARM)).val;
      BlockNeeds(ops, mode, Put(b, NEXT_ARM));
    } else if !op.Cadence? {
      BlockNeeds(ops, mode, Write(mode, op, p));
    }
  }

  /** A fugue goes with the transcript exactly if a line asks or resolves. */
  lemma FugueNeeded(pitches: seq<nat>)
    requires Transcribe(pitches).Took?
    ensures var t := Transcribe(pitches).val; t.needsFugue <==> AskOp in t.ops || ResolveOp in t.ops
  {
    hide Block, OpsFrom, Dips, FinalOfPitch;
    var t := Transcribe(pitches).val;
    BlockNeeds(t.ops, t.mode, BLANK);
  }
}
