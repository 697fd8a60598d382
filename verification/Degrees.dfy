/** The degree table: scale degrees and operations, and the church scales (degree_op.rs). */
module Degrees {
  import opened Core

  datatype RenderOp = Cadence | AskOp | ArgOp | PureOp | ResolveOp | Modal | BindOther | Branch

  function Degree(mode: Mode, op: RenderOp): (d: nat)
    ensures 1 <= d <= 8
  {
    match op
    case Cadence => 1
    case ArgOp => 2
    case AskOp => if mode.IsPlagal() then 3 else 5
    case PureOp => if mode.IsPlagal() then 5 else 3
    case BindOther => 4
    case Modal => 6
    case ResolveOp => 7
    case Branch => 8
  }

  function OpOfDegree(mode: Mode, deg: nat): (op: Option<RenderOp>)
    ensures op.Some? <==> 1 <= deg <= 8
  {
    match deg
    case 1 => Some(Cadence)
    case 2 => Some(ArgOp)
    case 3 => Some(if mode.IsPlagal() then AskOp else PureOp)
    case 4 => Some(BindOther)
    case 5 => Some(if mode.IsPlagal() then PureOp else AskOp)
    case 6 => Some(Modal)
    case 7 => Some(ResolveOp)
    case 8 => Some(Branch)
    case _ => None
  }

  /** In every mode the table is a bijection between the operations and the degrees 1 to 8. */
  lemma DegreesBijective(mode: Mode)
    ensures forall op :: OpOfDegree(mode, Degree(mode, op)) == Some(op)
    ensures forall d: nat :: 1 <= d <= 8 ==> Degree(mode, OpOfDegree(mode, d).value) == d
  {
    hide Degree, OpOfDegree;
    forall op ensures OpOfDegree(mode, Degree(mode, op)) == Some(op) { OpsReturn(mode, op); }
    forall d: nat | 1 <= d <= 8 ensures Degree(mode, OpOfDegree(mode, d).value) == d { DegreesReturn(mode, d); }
  }

  lemma OpsReturn(mode: Mode, op: RenderOp)
    ensures OpOfDegree(mode, Degree(mode, op)) == Some(op)
  {
  }

  lemma DegreesReturn(mode: Mode, d: nat)
    requires 1 <= d <= 8
    ensures Degree(mode, OpOfDegree(mode, d).value) == d
  {
  }

  /** The operations from the final up: the phrase ends on it, the reciting tone is the fifth, or the
      third in a plagal mode, and the branch turns on the octave. */
  const AUTHENTIC: seq<RenderOp> := [Cadence, ArgOp, PureOp, BindOther, AskOp, Modal, ResolveOp, Branch]
  const PLAGAL: seq<RenderOp> := [Cadence, ArgOp, AskOp, BindOther, PureOp, Modal, ResolveOp, Branch]

  lemma DegreesInOrder(mode: Mode, d: nat)
    requires 1 <= d <= 8
    ensures OpOfDegree(mode, d) == Some((if mode.IsPlagal() then PLAGAL else AUTHENTIC)[d - 1])
  {
  }

  /** MIDI pitch of a final, in octave 4. */
  function FinalPitch(f: Final): nat {
    match f
    case Re => 62
    case Mi => 64
    case Fa => 65
    case Sol => 67
  }

  function Scale(f: Final): (s: seq<nat>)
    ensures |s| == 8
  {
    match f
    case Re => [0, 2, 3, 5, 7, 9, 10, 12]
    case Mi => [0, 1, 3, 5, 7, 8, 10, 12]
    case Fa => [0, 2, 4, 6, 7, 9, 11, 12]
    case Sol => [0, 2, 4, 5, 7, 9, 10, 12]
  }

  /** Semitones from the final; the upper plagal degrees fold below it. */
  function DegreeOffset(mode: Mode, deg: nat): int
    requires deg >= 1
  {
    var s: int := Scale(mode.FinalOf())[(deg - 1) % 8];
    if !mode.IsPlagal() then s
    else if deg == 6 || deg == 7 then s - 12
    else if deg == 8 then -5
    else s
  }

  function DegreePitch(mode: Mode, deg: nat): int
    requires deg >= 1
  {
    FinalPitch(mode.FinalOf()) + DegreeOffset(mode, deg)
  }

  /** No sharps or flats. */
  predicate White(pitch: int) {
    pitch % 12 in {0, 2, 4, 5, 7, 9, 11}
  }

  /** The finals are the white keys from the tone above middle C on, one after the other. */
  lemma FinalsAreWhite()
    ensures FinalPitch(Re) == 60 + 2
    ensures forall p :: FinalPitch(Re) <= p <= FinalPitch(Sol) ==> (White(p) <==> exists f :: p == FinalPitch(f))
  {
    assert FinalPitch(Re) == 62 && FinalPitch(Mi) == 64 && FinalPitch(Fa) == 65 && FinalPitch(Sol) == 67;
    forall p | 62 <= p <= 67 ensures White(p) <==> exists f :: p == FinalPitch(f) {
      assert White(p) <==> p == 62 || p == 64 || p == 65 || p == 67;
    }
  }

  /** A church scale is the white keys from its final to the octave, none left out. */
  lemma ScalesAreWhite(f: Final, i: nat)
    requires i < 7
    ensures Scale(f)[0] == 0 && Scale(f)[7] == 12
    ensures White(FinalPitch(f) + Scale(f)[i]) && White(FinalPitch(f) + Scale(f)[i + 1])
    ensures forall key :: FinalPitch(f) + Scale(f)[i] < key < FinalPitch(f) + Scale(f)[i + 1] ==> !White(key)
  {
    hide White;
    KeysBetween(FinalPitch(f) + Scale(f)[i], FinalPitch(f) + Scale(f)[i + 1]);
  }

  lemma KeysBetween(a: nat, b: nat)
    requires a == 62 || a == 64 || a == 65 || a == 67 || a == 69 || a == 71 || a == 72 || a == 74 || a == 76 || a == 77
    requires b == (if a == 64 || a == 71 || a == 76 then a + 1 else a + 2)
    ensures White(a) && White(b) && forall p :: a < p < b ==> !White(p)
  {
  }

  /** An authentic mode takes its degrees up the octave; a plagal one from the fourth below its final
      to the fifth above. All are white keys. */
  lemma AmbitusOf(mode: Mode, d: nat)
    requires 1 <= d <= 8
    ensures White(DegreePitch(mode, d))
    ensures !mode.IsPlagal() ==> DegreeOffset(mode, d) == Scale(mode.FinalOf())[d - 1]
    ensures mode.IsPlagal() ==> -5 == DegreeOffset(mode, 8) <= DegreeOffset(mode, d) <= DegreeOffset(mode, 5) == 7
    ensures mode.IsPlagal() && d < 6 ==> DegreeOffset(mode, d) == Scale(mode.FinalOf())[d - 1]
    ensures mode.IsPlagal() && 6 <= d < 8 ==> DegreeOffset(mode, d) + 12 == Scale(mode.FinalOf())[d - 1]
  {
  }

  /** Each degree has a pitch of its own, within MIDI range: an authentic mode climbs its scale, a
      plagal one folds the three highest degrees under the final, apart from each other. */
  lemma OffsetsInjective(mode: Mode, d: nat, e: nat)
    requires 1 <= d <= 8 && 1 <= e <= 8
    ensures DegreeOffset(mode, d) == DegreeOffset(mode, e) ==> d == e
    ensures 57 <= DegreePitch(mode, d) <= 79
  {
    hide Scale;
    var s: seq<int> := Scale(mode.FinalOf());
    ScaleClimbs(mode.FinalOf(), d - 1, e - 1);
    ScaleBounds(mode.FinalOf(), d - 1);
    ScaleBounds(mode.FinalOf(), e - 1);
    assert DegreeOffset(mode, d) == (if !mode.IsPlagal() || d < 6 then s[d - 1] else if d < 8 then s[d - 1] - 12 else -5);
    assert DegreeOffset(mode, e) == (if !mode.IsPlagal() || e < 6 then s[e - 1] else if e < 8 then s[e - 1] - 12 else -5);
  }

  lemma ScaleClimbs(f: Final, i: nat, j: nat)
    requires i < 8 && j < 8
    ensures i < j ==> Scale(f)[i] < Scale(f)[j]
    ensures j < i ==> Scale(f)[j] < Scale(f)[i]
  {
  }

  lemma ScaleBounds(f: Final, i: nat)
    requires i < 8
    ensures 0 <= Scale(f)[i] <= 12 && 62 <= FinalPitch(f) <= 67
    ensures (i == 5 || i == 6) ==> 8 <= Scale(f)[i] <= 11
  {
  }

  /** A degree lies under the final exactly in the plagal modes, from the sixth up. */
  lemma DipsBelow(mode: Mode, d: nat)
    requires 1 <= d <= 8
    ensures DegreeOffset(mode, d) < 0 <==> mode.IsPlagal() && d >= 6
  {
  }
}
