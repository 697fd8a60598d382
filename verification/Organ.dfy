/** Rendering: a verse's bind spine walked into notes, one a line (render.rs). */
module Organ {
  import opened Core
  import opened Degrees

  datatype Note = Note(pitch: int, onset: nat, dur: nat, voice: nat)

  /** The expressions that end a phrase. */
  predicate Cadences(e: Expr) {
    e.Return? || e.Nihil? || e.Clama? || e.Perage?
  }

  function Classify(e: Expr): RenderOp {
    match e
    case Return(_, _) | Nihil | Clama(_) | Perage(_) => Cadence
    case Ask(_) => AskOp
    case Arg => ArgOp
    case Pure(_, _) => PureOp
    case Resolve(_, _) => ResolveOp
    case Lege | Pone(_) | Mitte(_) | Lift(_) => Modal
    case If(_, _, _) => Branch
    case _ => BindOther
  }

  /** The operations a body sings, in order. */
  function Sung(e: Expr): seq<RenderOp> {
    if e.Bind? then [Classify(e.m)] + Sung(e.k)
    else if e.If? then [Branch] + Sung(e.t) + Sung(e.e)
    else if Cadences(e) then [Cadence]
    else []
  }

  function NoteOf(mode: Mode, op: RenderOp, voice: nat, onset: nat, dur: nat): Note {
    Note(DegreePitch(mode, Degree(mode, op)), onset, dur, voice)
  }

  /** How long a body sounds: a line is one tick, the cadence that ends a spine two. */
  function Length(e: Expr): nat {
    if e.Bind? then 1 + Length(e.k)
    else if e.If? then 1 + Length(e.t) + Length(e.e)
    else if Cadences(e) then 2
    else 0
  }

  function Played(e: Expr, mode: Mode, voice: nat, onset: nat): seq<Note>
    decreases e
  {
    if e.Bind? then [NoteOf(mode, Classify(e.m), voice, onset, 1)] + Played(e.k, mode, voice, onset + 1)
    else if e.If? then
      [NoteOf(mode, Branch, voice, onset, 1)] + Played(e.t, mode, voice, onset + 1)
      + Played(e.e, mode, voice, onset + 1 + Length(e.t))
    else if Cadences(e) then [NoteOf(mode, Cadence, voice, onset, 2)]
    else []
  }

  /** One line of the walk. */
  lemma PlayedOnce(e: Expr, mode: Mode, voice: nat, onset: nat)
    ensures var r, n := Played(e, mode, voice, onset), Length(e);
            && (e.Bind? ==> n == 1 + Length(e.k) && r == [NoteOf(mode, Classify(e.m), voice, onset, 1)] + Played(e.k, mode, voice, onset + 1))
            && (e.If? ==> n == 1 + Length(e.t) + Length(e.e))
            && (e.If? ==> r == [NoteOf(mode, Branch, voice, onset, 1)] + Played(e.t, mode, voice, onset + 1)
                              + Played(e.e, mode, voice, onset + 1 + Length(e.t)))
            && (Cadences(e) ==> n == 2 && r == [NoteOf(mode, Cadence, voice, onset, 2)])
            && (!e.Bind? && !e.If? && !Cadences(e) ==> n == 0 && r == [])
  {
    hide NoteOf, Classify;
  }

  /** The walk over a verse, appending to the events and moving the onset. */
  class Scribe {
    var out: seq<Note>
    var onset: nat

    constructor ()
      ensures out == [] && onset == 0
    {
      out, onset := [], 0;
    }

    method PushNote(mode: Mode, op: RenderOp, voice: nat, dur: nat)
      modifies this
      ensures out == old(out) + [NoteOf(mode, op, voice, old(onset), dur)]
      ensures onset == old(onset) + dur
    {
      out := out + [NoteOf(mode, op, voice, onset, dur)];
      onset := onset + dur;
    }

    method WalkVerse(e: Expr, mode: Mode, voice: nat)
      modifies this
      ensures out == old(out) + Played(e, mode, voice, old(onset))
      ensures onset == old(onset) + Length(e)
      decreases e
    {
      hide NoteOf, Classify, Cadences, Played, Length;
      PlayedOnce(e, mode, voice, onset);
      if e.Bind? {
        PushNote(mode, Classify(e.m), voice, 1);
        WalkVerse(e.k, mode, voice);
      } else if e.If? {
        PushNote(mode, Branch, voice, 1);
        WalkVerse(e.t, mode, voice);
        WalkVerse(e.e, mode, voice);
      } else if Cadences(e) {
        PushNote(mode, Cadence, voice, 2);
      } // a bare trailing expression makes no sound
    }
  }

  /** The cadences at the ends of the body's spines. */
  function Leaves(e: Expr): nat {
    if e.Bind? then Leaves(e.k)
    else if e.If? then Leaves(e.t) + Leaves(e.e)
    else if Cadences(e) then 1
    else 0
  }

  /** A body sounds a tick for each operation, and one more for each cadence, which is held. */
  lemma {:induction false} LengthCounts(e: Expr)
    ensures Length(e) == |Sung(e)| + Leaves(e)
  {
    hide Classify;
    if e.Bind? {
      LengthCounts(e.k);
    } else if e.If? {
      LengthCounts(e.t);
      LengthCounts(e.e);
    }
  }

  /** A body sounds in one voice. */
  lemma {:induction false} PlayedInVoice(e: Expr, mode: Mode, voice: nat, onset: nat)
    ensures forall i :: 0 <= i < |Played(e, mode, voice, onset)| ==> Played(e, mode, voice, onset)[i].voice == voice
    decreases e
  {
    hide Classify, Degree, DegreePitch, Cadences;
    if e.Bind? {
      PlayedInVoice(e.k, mode, voice, onset + 1);
    } else if e.If? {
      PlayedInVoice(e.t, mode, voice, onset + 1);
      PlayedInVoice(e.e, mode, voice, onset + 1 + Length(e.t));
    }
  }

  function Pitches(notes: seq<Note>): (r: seq<int>)
    ensures |r| == |notes|
  {
    seq(|notes|, i requires 0 <= i < |notes| => notes[i].pitch)
  }

  function PitchesOf(mode: Mode, ops: seq<RenderOp>): (r: seq<int>)
    ensures |r| == |ops|
  {
    seq(|ops|, i requires 0 <= i < |ops| => DegreePitch(mode, Degree(mode, ops[i])))
  }

  /** The melody of a body is its operations' degrees. */
  lemma {:induction false} PlayedSings(e: Expr, mode: Mode, voice: nat, onset: nat)
    ensures Pitches(Played(e, mode, voice, onset)) == PitchesOf(mode, Sung(e))
    decreases e
  {
    hide Classify, Degree, DegreePitch, Cadences;
    if e.Bind? {
      PlayedSings(e.k, mode, voice, onset + 1);
      FirstSings(mode, Classify(e.m), voice, onset, Played(e.k, mode, voice, onset + 1), Sung(e.k));
    } else if e.If? {
      PlayedSings(e.t, mode, voice, onset + 1);
      PlayedSings(e.e, mode, voice, onset + 1 + Length(e.t));
      BranchSings(mode, voice, onset, Played(e.t, mode, voice, onset + 1), Sung(e.t),
                  Played(e.e, mode, voice, onset + 1 + Length(e.t)), Sung(e.e));
    }
  }

  lemma BranchSings(mode: Mode, voice: nat, onset: nat, a: seq<Note>, opsA: seq<RenderOp>, b: seq<Note>,
          opsB: seq<RenderOp>)
    requires Pitches(a) == PitchesOf(mode, opsA) && Pitches(b) == PitchesOf(mode, opsB)
    ensures Pitches([NoteOf(mode, Branch, voice, onset, 1)] + a + b) == PitchesOf(mode, [Branch] + opsA + opsB)
  {
    hide NoteOf, Degree, DegreePitch;
    assert Pitches(a + b) == Pitches(a) + Pitches(b) && PitchesOf(mode, opsA + opsB) == PitchesOf(mode, opsA) + PitchesOf(mode, opsB);
    FirstSings(mode, Branch, voice, onset, a + b, opsA + opsB);
    assert [NoteOf(mode, Branch, voice, onset, 1)] + (a + b) == [NoteOf(mode, Branch, voice, onset, 1)] + a + b;
    assert [Branch] + (opsA + opsB) == [Branch] + opsA + opsB;
  }

  lemma FirstSings(mode: Mode, op: RenderOp, voice: nat, onset: nat, notes: seq<Note>, ops: seq<RenderOp>)
    requires Pitches(notes) == PitchesOf(mode, ops)
    ensures Pitches([NoteOf(mode, op, voice, onset, 1)] + notes) == PitchesOf(mode, [op] + ops)
  {
    hide Degree, DegreePitch;
    assert Pitches([NoteOf(mode, op, voice, onset, 1)] + notes) == [DegreePitch(mode, Degree(mode, op))] + Pitches(notes);
    assert PitchesOf(mode, [op] + ops) == [DegreePitch(mode, Degree(mode, op))] + PitchesOf(mode, ops);
  }

  /** Each note starts where the one before it ends. */
  predicate Seamless(notes: seq<Note>, from: nat, to: nat)
    decreases |notes|
  {
    if notes == [] then from == to
    else notes[0].onset == from && notes[0].dur > 0 && Seamless(notes[1..], from + notes[0].dur, to)
  }

  lemma {:induction false} JoinSeamless(a: seq<Note>, b: seq<Note>, from: nat, mid: nat, to: nat)
    requires Seamless(a, from, mid) && Seamless(b, mid, to)
    ensures Seamless(a + b, from, to)
    decreases |a|
  {
    if a == [] {
      assert a + b == b;
    } else {
      assert (a + b)[1..] == a[1..] + b;
      JoinSeamless(a[1..], b, from + a[0].dur, mid, to);
    }
  }

  /** The melody is one line without gaps or overlaps, as long as its body. */
  lemma {:induction false} PlayedIsSeamless(e: Expr, mode: Mode, voice: nat, onset: nat)
    ensures Seamless(Played(e, mode, voice, onset), onset, onset + Length(e))
    decreases e
  {
    hide Classify, Degree, DegreePitch, Cadences;
    if e.Bind? {
      PlayedIsSeamless(e.k, mode, voice, onset + 1);
      FirstSeamless(mode, Classify(e.m), voice, onset, Played(e.k, mode, voice, onset + 1), onset + Length(e));
    } else if e.If? {
      PlayedIsSeamless(e.t, mode, voice, onset + 1);
      PlayedIsSeamless(e.e, mode, voice, onset + 1 + Length(e.t));
      BranchSeamless(mode, voice, onset, Played(e.t, mode, voice, onset + 1), Length(e.t),
                     Played(e.e, mode, voice, onset + 1 + Length(e.t)), Length(e.e));
    }
  }

  lemma BranchSeamless(mode: Mode, voice: nat, onset: nat, a: seq<Note>, la: nat, b: seq<Note>, lb: nat)
    requires Seamless(a, onset + 1, onset + 1 + la) && Seamless(b, onset + 1 + la, onset + 1 + la + lb)
    ensures Seamless([NoteOf(mode, Branch, voice, onset, 1)] + a + b, onset, onset + 1 + la + lb)
  {
    hide Seamless, NoteOf;
    JoinSeamless(a, b, onset + 1, onset + 1 + la, onset + 1 + la + lb);
    FirstSeamless(mode, Branch, voice, onset, a + b, onset + 1 + la + lb);
    var n := [NoteOf(mode, Branch, voice, onset, 1)];
    assert n + (a + b) == n + a + b;
  }

  lemma FirstSeamless(mode: Mode, op: RenderOp, voice: nat, onset: nat, notes: seq<Note>, to: nat)
    requires Seamless(notes, onset + 1, to)
    ensures Seamless([NoteOf(mode, op, voice, onset, 1)] + notes, onset, to)
  {
    hide Degree, DegreePitch;
    assert ([NoteOf(mode, op, voice, onset, 1)] + notes)[1..] == notes;
  }
}
