/** When the checker accepts a transcript. The transcriber promises well-typed scores; its previous
    value runs on from the first arm of a branch into the second, where it is not in scope, and
    its canonical lines may ask for one cell or cadence at two types (transcribe.rs). */
module Audition {
  import opened Core
  import opened Grammar
  import opened Degrees
  import opened Unification
  import opened Inference
  import opened Typing
  import opened Verses
  import opened Levels
  import opened Transcription
  import S = Score
  import P = Printing
  import R = Organ
  import B = Builtins

  // --- what a transcript asks of its types ---

  /** Where a line's value comes from: the input, a number, or the answer of a resolved name. */
  datatype Kind = KArg | KNum | KFun

  /** The previous value at a line: none yet, one in scope, or one out of scope. */
  datatype Now = Cold | InScope(k: Kind) | Lost

  /** The kinds that cadence and that meet the mode's own op, and whether every value used is in
      scope. */
  datatype Use = Use(cad: set<Kind>, mod: set<Kind>, bound: bool)

  /** A phrase that opens cold starts from a zero. */
  function KindNow(now: Now): Kind {
    if now.InScope? then now.k else KNum
  }

  predicate ReadsPrev(op: RenderOp) {
    op.PureOp? || op.BindOther? || op.Modal?
  }

  function KindOfLine(op: RenderOp, now: Now): Kind {
    match op
    case ArgOp => KArg
    case AskOp => KNum
    case ResolveOp => KFun
    case _ => KindNow(now)
  }

  function UseOf(ops: seq<RenderOp>, mode: Mode, p: Pen, now: Now): Use
    requires p.pos <= |ops| && Block(ops, mode, p).Took?
    decreases |ops| - p.pos
  {
    var op, p1 := ops[p.pos], p.(pos := p.pos + 1);
    if op.Cadence? then Use({KindNow(now)}, {}, !now.Lost?)
    else if op.Branch? then
      var q1 := Put(p1, OPEN_ARM);
      var p2 := Block(ops, mode, q1).val;
      var a := UseOf(ops, mode, q1, now);
      var b := UseOf(ops, mode, Put(p2, NEXT_ARM), if p2.vars > p.vars then Lost else now);
      Use(a.cad + b.cad, a.mod + b.mod, a.bound && b.bound)
    else if Effectful(mode, op) then
      var u := UseOf(ops, mode, Write(mode, op, p), now);
      Use(u.cad, u.mod + {KindNow(now)}, u.bound && !now.Lost?)
    else
      var u := UseOf(ops, mode, Write(mode, op, p), InScope(KindOfLine(op, now)));
      Use(u.cad, u.mod, u.bound && (ReadsPrev(op) ==> !now.Lost?))
  }

  /** A number and a function cannot be one type. */
  predicate Clash(ks: set<Kind>) {
    KNum in ks && KFun in ks
  }

  /** What `mitte` sends is built of numbers. */
  function Mods(mode: Mode, u: Use): set<Kind> {
    if mode.Hypomixolydian? && u.mod != {} then u.mod + {KNum} else u.mod
  }

  /** Every value is in scope, all cadences can have one type, and so can all that meets the mode's
      op; where the input is among both, the two together. */
  predicate Agreeable(mode: Mode, u: Use) {
    && u.bound && !Clash(u.cad) && !Clash(Mods(mode, u))
    && (KArg in u.cad && KArg in Mods(mode, u) ==> !Clash(u.cad + Mods(mode, u)))
  }

  // --- names ---

  lemma {:induction false} DigitsApart(n: nat, m: nat)
    requires Digits(n) == Digits(m)
    ensures n == m
  {
    var a, b := Digits(n), Digits(m);
    assert a[|a| - 1] == b[|b| - 1];
    if n >= 10 && m >= 10 {
      assert a[..|a| - 1] == Digits(n / 10) && b[..|b| - 1] == Digits(m / 10);
      DigitsApart(n / 10, m / 10);
    }
  }

  lemma NamesApart(n: nat, m: nat)
    requires VarName(n) == VarName(m)
    ensures n == m
  {
    assert VarName(n)[1..] == Digits(n) && VarName(m)[1..] == Digits(m);
    DigitsApart(n, m);
  }

  lemma NumberedIsNoBuiltin(s: string)
    requires |s| >= 2 && '0' <= s[1] <= '9'
    ensures B.PrimOf(s).None? && s != "Dominus" && s != "corpus" && s != "genus" && s != "cmd"
  {
  }

  lemma VarIsNoBuiltin(n: nat)
    ensures B.PrimOf(VarName(n)).None? && VarName(n) != "Dominus" && VarName(n) != "_"
    ensures VarName(n) != "corpus" && VarName(n) != "genus" && VarName(n) != "cmd"
  {
    NumberedIsNoBuiltin(VarName(n));
  }

  /** The numbered names of lines written so far. */
  predicate Numbered(x: Sym, vars: nat) {
    exists n :: 0 <= n <= vars && x == VarName(n)
  }

  predicate Named(g: Gamma, vars: nat) {
    forall i :: 0 <= i < |g| ==> g[i].x == "_" || Numbered(g[i].x, vars)
  }

  lemma NamedMore(g: Gamma, vars: nat, vars': nat)
    requires Named(g, vars) && vars <= vars'
    ensures Named(g, vars')
  {
    forall i | 0 <= i < |g| && g[i].x != "_" ensures Numbered(g[i].x, vars') {
      var n :| 0 <= n <= vars && g[i].x == VarName(n);
    }
  }

  /** A name that is no line's so far is not in scope. */
  lemma {:induction false} NotNamed(g: Gamma, vars: nat, x: Sym)
    requires Named(g, vars) && x != "_" && !Numbered(x, vars)
    ensures FindEntry(g, x) == None
  {
    hide VarName;
    if g != [] { NotNamed(g[..|g| - 1], vars, x); }
  }

  lemma NewName(vars: nat, n: nat)
    requires vars < n
    ensures !Numbered(VarName(n), vars) && VarName(n) != "_"
  {
    forall m | 0 <= m <= vars ensures VarName(m) != VarName(n) { if VarName(m) == VarName(n) { NamesApart(m, n); } }
    VarIsNoBuiltin(n);
  }

  // --- what a block does to the counters ---

  /** A block that binds nothing leaves the previous value; one that does leaves a name of its own. */
  lemma {:induction false} PenMoves(ops: seq<RenderOp>, mode: Mode, p: Pen)
    requires p.pos <= |ops| && Block(ops, mode, p).Took?
    ensures var q := Block(ops, mode, p).val;
            && p.vars <= q.vars && (p.needsFugue ==> q.needsFugue)
            && (q.vars == p.vars ==> q.prev == p.prev)
            && (q.vars > p.vars ==> exists n :: p.vars < n <= q.vars && q.prev == Some(VarName(n)))
    decreases |ops| - p.pos
  {
    hide VarName, BoundToks, EffectToks;
    var op, p1 := ops[p.pos], p.(pos := p.pos + 1);
    if op.Branch? {
      var q1 := Put(p1, OPEN_ARM);
      PenMoves(ops, mode, q1);
      PenMoves(ops, mode, Put(Block(ops, mode, q1).val, NEXT_ARM));
    } else if !op.Cadence? {
      PenMoves(ops, mode, Write(mode, op, p));
    }
  }

  // --- the emitted fugue ---

  /** The reciting tone in the pedals, and an identity to answer. */
  function Organum(tone: Scalar): Fugue {
    Fugue([Pedal("Dominus", Value.Num(tone))], [Overload("vox", "cantus", Lam("x", Var("x")))], [], [], None)
  }

  function FuguesOf(needed: bool, tone: Scalar): seq<Fugue> {
    if needed then [Organum(tone)] else []
  }

  lemma FuguesHold(needed: bool, tone: Scalar)
    ensures var fs := FuguesOf(needed, tone);
            && Answers(fs) == (if needed then [Overload("vox", "cantus", Lam("x", Var("x")))] else [])
            && PedalType(fs, "Dominus") == (if needed then Some(TNum) else None)
            && (forall x :: x != "Dominus" ==> PedalType(fs, x) == None)
            && (Mentions(Answers(fs), "vox") <==> needed)
  {
    var f := Organum(tone);
    assert [f][1..] == [] && f.pedals[1..] == [] && f.answers[1..] == [];
    assert Answers([f]) == f.answers + f.tonals + Answers([]);
    forall x | x != "Dominus" ensures PedalType(FuguesOf(needed, tone), x) == None {
      assert FindPedal(f.pedals[1..], x) == None && PedalType([f][1..], x) == None;
    }
  }

  // --- the typing of each line ---

  /** A type of the kind; the resolved answer is used at functions, or at one function type. */
  predicate FitsKind(w: World, only: Option<Type>, k: Kind, t: Type) {
    match k
    case KArg => t == w.arg
    case KNum => t == TNum
    case KFun => if only.Some? then t == only.value else t.Fun?
  }

  function TypeNow(g: Gamma, p: Pen): Option<Type> {
    if p.prev.None? then Some(TNum) else FindEntry(g, p.prev.value)
  }

  predicate Knows(w: World, only: Option<Type>, g: Gamma, p: Pen, now: Now) {
    && Named(g, p.vars) && (p.prev.Some? ==> Numbered(p.prev.value, p.vars))
    && match now
       case Cold => p.prev.None?
       case InScope(k) => TypeNow(g, p).Some? && FitsKind(w, only, k, TypeNow(g, p).value)
       case Lost => p.prev.Some? && TypeNow(g, p).None?
  }

  lemma NowFits(w: World, only: Option<Type>, g: Gamma, p: Pen, now: Now)
    requires Knows(w, only, g, p, now)
    ensures now.Lost? <==> TypeNow(g, p).None?
    ensures !now.Lost? ==> FitsKind(w, only, KindNow(now), TypeNow(g, p).value)
  {
    hide VarName;
  }

  ghost predicate Hosts(w: World, needed: bool) {
    exists tone :: w.fugues == FuguesOf(needed, tone)
  }

  /** The previous value has the type its name is bound at, and no other. */
  lemma PrevHas(w: World, lv: nat, mode: Mode, g: Gamma, p: Pen, t: Type, needed: bool)
    requires Hosts(w, needed) && (p.prev.Some? ==> Numbered(p.prev.value, p.vars))
    ensures HasType(w, lv, mode, g, PrevExpr(p.prev), t) <==> TypeNow(g, p) == Some(t)
  {
    hide OpHasType, AnswersHave;
    var tone :| w.fugues == FuguesOf(needed, tone);
    FuguesHold(needed, tone);
    if p.prev.Some? {
      var n :| 0 <= n <= p.vars && p.prev.value == VarName(n);
      VarIsNoBuiltin(n);
    }
  }

  lemma PlainHas(w: World, lv: nat, mode: Mode, g: Gamma, vars: nat, x: Sym, t: Type)
    requires Named(g, vars) && (x == "corpus" || x == "genus" || x == "cmd")
    ensures HasType(w, lv, mode, g, Var(x), t) <==> PrimHas(B.PrimOf(x).value, t)
  {
    hide AnswersHave, OpHasType, PrimHas;
    forall n | 0 <= n <= vars ensures VarName(n) != x { VarIsNoBuiltin(n); }
    NotNamed(g, vars, x);
  }

  lemma LitHas(w: World, lv: nat, mode: Mode, g: Gamma, v: Value, t: Type)
    ensures HasType(w, lv, mode, g, Lit(v), t) <==> t == TypeOfValue(v)
  {
  }

  /** The canonical genus of a resolved line. */
  lemma GenusHas(w: World, lv: nat, mode: Mode, g: Gamma, vars: nat)
    requires Named(g, vars)
    ensures HasType(w, lv, mode, g, App(Var("genus"), CANTUS), TGenus)
  {
    hide HasType, PrimHas, Named;
    var z, c := Lit(Value.Num(ZERO)), Lit(Value.Str("cantus"));
    var a1 := App(Var("corpus"), z);
    var a2 := App(a1, c);
    var a3 := App(a2, z);
    var t3 := Fun(TNum, TCorpus);
    var t2 := Fun(TNum, t3);
    var t1 := Fun(TStr, t2);
    Instances();
    PlainHas(w, lv, mode, g, vars, "corpus", Fun(TNum, t1));
    PlainHas(w, lv, mode, g, vars, "genus", Fun(TCorpus, TGenus));
    LitHas(w, lv, mode, g, Value.Num(ZERO), TNum);
    LitHas(w, lv, mode, g, Value.Str("cantus"), TStr);
    AppWhole(w, lv, mode, g, a1, t1, TNum);
    AppWhole(w, lv, mode, g, a2, t2, TStr);
    AppWhole(w, lv, mode, g, a3, t3, TNum);
    AppWhole(w, lv, mode, g, CANTUS, TCorpus, TNum);
    AppWhole(w, lv, mode, g, App(Var("genus"), CANTUS), TGenus, TCorpus);
  }

  lemma Instances()
    ensures B.PrimOf("corpus") == Some(B.Corpus) && B.PrimOf("genus") == Some(B.GenusOf) && B.PrimOf("cmd") == Some(B.MakeCmd)
    ensures PrimHas(B.Corpus, Fun(TNum, Fun(TStr, Fun(TNum, Fun(TNum, TCorpus)))))
    ensures PrimHas(B.GenusOf, Fun(TCorpus, TGenus))
    ensures forall t :: PrimHas(B.MakeCmd, t) <==> t == Fun(TNum, Fun(TNum, Fun(TNum, TCmd)))
  {
    assert SigOf(B.Corpus, TStr) == Fun(TNum, Fun(TStr, Fun(TNum, Fun(TNum, TCorpus))));
    assert SigOf(B.GenusOf, TUnit) == Fun(TCorpus, TGenus);
    assert SigOf(B.MakeCmd, TUnit) == Fun(TNum, Fun(TNum, Fun(TNum, TCmd)));
  }

  lemma VoxHas(w: World, lv: nat, mode: Mode, g: Gamma, t: Type)
    ensures AnswersHave(w, lv, mode, g, [Overload("vox", "cantus", Lam("x", Var("x")))], "vox", t) <==> t.Fun? && t.a == t.r
  {
    hide HasType;
    var os := [Overload("vox", "cantus", Lam("x", Var("x")))];
    assert os[1..] == [] && AnswersHave(w, lv, mode, g, os[1..], "vox", t);
    LamParts(w, lv, mode, g, os[0].body, t);
    if t.Fun? { NewestHas(w, lv, mode, g, Entry("x", t.a), t.r); }
  }

  lemma NewestHas(w: World, lv: nat, mode: Mode, g: Gamma, n: Entry, t: Type)
    ensures HasType(w, lv, mode, g + [n], Var(n.x), t) <==> t == n.t
  {
  }

  /** What each line that binds may bind. */
  lemma BoundHas(w: World, lv: nat, mode: Mode, g: Gamma, p: Pen, op: RenderOp, u: Type, needed: bool)
    requires Hosts(w, needed) && Named(g, p.vars) && (p.prev.Some? ==> Numbered(p.prev.value, p.vars)) && lv > 0
    requires !op.Cadence? && !op.Branch? && (op.AskOp? || op.ResolveOp? ==> needed)
    ensures HasType(w, lv, mode, g, BoundExpr(op, p.prev), u)
       <==> match op
            case ArgOp => u == w.arg
            case AskOp => u == TNum
            case ResolveOp => u.Fun? && u.a == u.r
            case _ => TypeNow(g, p) == Some(u)
  {
    hide OpHasType, PrevExpr, AnswersHave, PrimHas, Named, CANTUS;
    PrevHas(w, lv, mode, g, p, u, needed);
    var tone :| w.fugues == FuguesOf(needed, tone);
    FuguesHold(needed, tone);
    if op.ResolveOp? {
      GenusHas(w, lv, mode, g, p.vars);
      VoxHas(w, lv - 1, mode, g, u);
      ResolveParts(w, lv, mode, g, BoundExpr(op, p.prev), u);
    }
  }

  /** The type the mode's own op puts its value at. */
  function ModType(w: World, mode: Mode): Type {
    if mode.Hypomixolydian? then TNum else w.state
  }

  lemma EffectHas(w: World, lv: nat, mode: Mode, g: Gamma, p: Pen, u: Type, needed: bool)
    requires Hosts(w, needed) && Named(g, p.vars) && (p.prev.Some? ==> Numbered(p.prev.value, p.vars)) && KeepsModal(mode)
    ensures HasType(w, lv, mode, g, EffectExpr(mode, p.prev), u) <==> u == TUnit && TypeNow(g, p) == Some(ModType(w, mode))
  {
    hide HasType, PrevExpr, Named;
    var e, q := EffectExpr(mode, p.prev), PrevExpr(p.prev);
    OpTyped(w, lv, mode, g, e, u);
    if mode.Hypomixolydian? {
      CmdHas(w, lv, mode, g, p, TCmd, needed);
      CmdHas(w, lv, mode, g, p, TPlan, needed);
    } else {
      PrevHas(w, lv, mode, g, p, w.state, needed);
    }
  }

  lemma CmdHas(w: World, lv: nat, mode: Mode, g: Gamma, p: Pen, t: Type, needed: bool)
    requires Hosts(w, needed) && Named(g, p.vars) && (p.prev.Some? ==> Numbered(p.prev.value, p.vars))
    ensures var q := PrevExpr(p.prev);
            HasType(w, lv, mode, g, App(App(App(Var("cmd"), q), q), q), t) <==> t == TCmd && TypeNow(g, p) == Some(TNum)
  {
    hide HasType, PrevExpr, PrimHas, Named;
    var q := PrevExpr(p.prev);
    var a1 := App(Var("cmd"), q);
    var a2 := App(a1, q);
    var a3 := App(a2, q);
    Instances();
    PrevHas(w, lv, mode, g, p, TNum, needed);
    if HasType(w, lv, mode, g, a3, t) {
      var u3 := AppParts(w, lv, mode, g, a3, t);
      var u2 := AppParts(w, lv, mode, g, a2, Fun(u3, t));
      var u1 := AppParts(w, lv, mode, g, a1, Fun(u2, Fun(u3, t)));
      PlainHas(w, lv, mode, g, p.vars, "cmd", Fun(u1, Fun(u2, Fun(u3, t))));
    }
    if t == TCmd && TypeNow(g, p) == Some(TNum) {
      PlainHas(w, lv, mode, g, p.vars, "cmd", Fun(TNum, Fun(TNum, Fun(TNum, TCmd))));
      AppWhole(w, lv, mode, g, a1, Fun(TNum, Fun(TNum, TCmd)), TNum);
      AppWhole(w, lv, mode, g, a2, Fun(TNum, TCmd), TNum);
      AppWhole(w, lv, mode, g, a3, TCmd, TNum);
    }
  }

  // --- the typing of a whole body ---

  /** The types the body's kinds meet. */
  predicate Meets(w: World, only: Option<Type>, mode: Mode, u: Use) {
    && u.bound
    && (forall k :: k in u.cad ==> FitsKind(w, only, k, w.result))
    && forall k :: k in u.mod ==> FitsKind(w, only, k, ModType(w, mode))
  }

  /** The scope after a line that binds. */
  lemma LineKnows(w: World, only: Option<Type>, mode: Mode, g: Gamma, p: Pen, op: RenderOp, now: Now, u: Type)
    requires Knows(w, only, g, p, now) && !Effectful(mode, op) && !op.Cadence? && !op.Branch?
    requires FitsKind(w, only, KindOfLine(op, now), u)
    ensures Knows(w, only, g + [Entry(VarName(p.vars + 1), u)], Write(mode, op, p), InScope(KindOfLine(op, now)))
  {
    hide VarName, BoundToks;
    var x := VarName(p.vars + 1);
    var g' := g + [Entry(x, u)];
    NamedMore(g, p.vars, p.vars + 1);
    assert Numbered(x, p.vars + 1);
    assert FindEntry(g', x) == Some(u);
  }

  lemma EffectKnows(w: World, only: Option<Type>, mode: Mode, g: Gamma, p: Pen, op: RenderOp, now: Now)
    requires Knows(w, only, g, p, now) && Effectful(mode, op)
    ensures Knows(w, only, g + [Entry("_", TUnit)], Write(mode, op, p), now)
  {
    hide VarName, EffectToks;
    var g' := g + [Entry("_", TUnit)];
    assert g'[..|g|] == g;
    if p.prev.Some? {
      var n :| 0 <= n <= p.vars && p.prev.value == VarName(n);
      VarIsNoBuiltin(n);
    }
  }

  /** The second arm of a branch starts in the scope the first started in, with the first's last
      value if it bound one. */
  lemma ArmKnows(w: World, only: Option<Type>, g: Gamma, ops: seq<RenderOp>, mode: Mode, p: Pen, now: Now)
    requires p.pos < |ops| && ops[p.pos].Branch? && Knows(w, only, g, p, now)
    requires Block(ops, mode, Put(p.(pos := p.pos + 1), OPEN_ARM)).Took?
    ensures var q1 := Put(p.(pos := p.pos + 1), OPEN_ARM);
            var p2 := Block(ops, mode, q1).val;
            && Knows(w, only, g, q1, now)
            && Knows(w, only, g, Put(p2, NEXT_ARM), if p2.vars > p.vars then Lost else now)
  {
    hide VarName, Block;
    var q1 := Put(p.(pos := p.pos + 1), OPEN_ARM);
    var p2 := Block(ops, mode, q1).val;
    PenMoves(ops, mode, q1);
    NamedMore(g, p.vars, p2.vars);
    if p2.vars > p.vars {
      var n :| p.vars < n <= p2.vars && p2.prev == Some(VarName(n));
      assert Numbered(p2.prev.value, p2.vars);
      NewName(p.vars, n);
      NotNamed(g, p.vars, VarName(n));
    }
  }

  /** A typed body has met its kinds. */
  lemma {:induction false} TypedMeets(w: World, lv: nat, mode: Mode, g: Gamma, ops: seq<RenderOp>, p: Pen,
          now: Now, t: Type, needed: bool)
    requires p.pos <= |ops| && Block(ops, mode, p).Took? && (Block(ops, mode, p).val.needsFugue ==> needed)
    requires Hosts(w, needed) && lv > 0 && Knows(w, None, g, p, now) && HasType(w, lv, mode, g, BodyOf(ops, mode, p), t)
    ensures Meets(w, None, mode, UseOf(ops, mode, p, now))
    decreases |ops| - p.pos, 1
  {
    hide HasType, PrevExpr, BoundExpr, EffectExpr, VarName, Knows, TypeNow, Write, FitsKind;
    var op := ops[p.pos];
    if op.Cadence? {
      NowFits(w, None, g, p, now);
      KnownPrev(w, None, g, p, now);
      ReturnParts(w, lv, mode, g, BodyOf(ops, mode, p), t);
      PrevHas(w, lv, mode, g, p, w.result, needed);
    } else if op.Branch? {
      TypedArms(w, lv, mode, g, ops, p, now, t, needed);
    } else if Effectful(mode, op) {
      TypedEffect(w, lv, mode, g, ops, p, now, t, needed);
    } else {
      TypedLine(w, lv, mode, g, ops, p, now, t, needed);
    }
  }

  lemma {:induction false} TypedArms(w: World, lv: nat, mode: Mode, g: Gamma, ops: seq<RenderOp>, p: Pen,
          now: Now, t: Type, needed: bool)
    requires p.pos < |ops| && ops[p.pos].Branch? && Block(ops, mode, p).Took? && (Block(ops, mode, p).val.needsFugue ==> needed)
    requires Hosts(w, needed) && lv > 0 && Knows(w, None, g, p, now) && HasType(w, lv, mode, g, BodyOf(ops, mode, p), t)
    ensures Meets(w, None, mode, UseOf(ops, mode, p, now))
    decreases |ops| - p.pos, 0
  {
    hide HasType, VarName, Knows, Write, FitsKind;
    var q1 := Put(p.(pos := p.pos + 1), OPEN_ARM);
    var q2 := Put(Block(ops, mode, q1).val, NEXT_ARM);
    IfParts(w, lv, mode, g, BodyOf(ops, mode, p), t);
    ArmKnows(w, None, g, ops, mode, p, now);
    PenMoves(ops, mode, q2);
    TypedMeets(w, lv, mode, g, ops, q1, now, t, needed);
    TypedMeets(w, lv, mode, g, ops, q2, if q2.vars > p.vars then Lost else now, t, needed);
  }

  lemma {:induction false} TypedEffect(w: World, lv: nat, mode: Mode, g: Gamma, ops: seq<RenderOp>, p: Pen,
          now: Now, t: Type, needed: bool)
    requires p.pos < |ops| && Effectful(mode, ops[p.pos]) && Block(ops, mode, p).Took? && (Block(ops, mode, p).val.needsFugue ==> needed)
    requires Hosts(w, needed) && lv > 0 && Knows(w, None, g, p, now) && HasType(w, lv, mode, g, BodyOf(ops, mode, p), t)
    ensures Meets(w, None, mode, UseOf(ops, mode, p, now))
    decreases |ops| - p.pos, 0
  {
    hide HasType, PrevExpr, EffectExpr, VarName, Knows, TypeNow, Write, FitsKind;
    var op, q := ops[p.pos], Write(mode, ops[p.pos], p);
    NowFits(w, None, g, p, now);
    KnownPrev(w, None, g, p, now);
    var u := BindParts(w, lv, mode, g, BodyOf(ops, mode, p), t);
    WriteNeeds(mode, op, p);
    EffectHas(w, lv, mode, g, p, u, needed);
    EffectKnows(w, None, mode, g, p, op, now);
    TypedMeets(w, lv, mode, g + [Entry("_", TUnit)], ops, q, now, t, needed);
  }

  lemma {:induction false} TypedLine(w: World, lv: nat, mode: Mode, g: Gamma, ops: seq<RenderOp>, p: Pen,
          now: Now, t: Type, needed: bool)
    requires p.pos < |ops| && !ops[p.pos].Cadence? && !ops[p.pos].Branch? && !Effectful(mode, ops[p.pos])
    requires Block(ops, mode, p).Took? && (Block(ops, mode, p).val.needsFugue ==> needed)
    requires Hosts(w, needed) && lv > 0 && Knows(w, None, g, p, now) && HasType(w, lv, mode, g, BodyOf(ops, mode, p), t)
    ensures Meets(w, None, mode, UseOf(ops, mode, p, now))
    decreases |ops| - p.pos, 0
  {
    hide HasType, PrevExpr, BoundExpr, VarName, Knows, TypeNow, Write, FitsKind;
    var op, q := ops[p.pos], Write(mode, ops[p.pos], p);
    KnownPrev(w, None, g, p, now);
    var u := BindParts(w, lv, mode, g, BodyOf(ops, mode, p), t);
    PenMoves(ops, mode, q);
    WriteNeeds(mode, op, p);
    BoundHas(w, lv, mode, g, p, op, u, needed);
    LineFits(w, None, g, p, op, now, u);
    LineKnows(w, None, mode, g, p, op, now, u);
    TypedMeets(w, lv, mode, g + [Entry(VarName(p.vars + 1), u)], ops, q, InScope(KindOfLine(op, now)), t, needed);
  }

  /** What a line may bind is of the line's kind, and a value it reads is in scope. */
  lemma LineFits(w: World, only: Option<Type>, g: Gamma, p: Pen, op: RenderOp, now: Now, u: Type)
    requires Knows(w, only, g, p, now) && !op.Cadence? && !op.Branch?
    requires match op
             case ArgOp => u == w.arg
             case AskOp => u == TNum
             case ResolveOp => if only.Some? then u == only.value else u.Fun? && u.a == u.r
             case _ => TypeNow(g, p) == Some(u)
    ensures FitsKind(w, only, KindOfLine(op, now), u) && (ReadsPrev(op) ==> !now.Lost?)
  {
    hide Knows, TypeNow;
    NowFits(w, only, g, p, now);
  }

  lemma KnownPrev(w: World, only: Option<Type>, g: Gamma, p: Pen, now: Now)
    requires Knows(w, only, g, p, now)
    ensures Named(g, p.vars) && (p.prev.Some? ==> Numbered(p.prev.value, p.vars))
  {
  }

  lemma WriteNeeds(mode: Mode, op: RenderOp, p: Pen)
    ensures var q := Write(mode, op, p); q.pos == p.pos + 1 && (q.needsFugue <==> p.needsFugue || op.AskOp? || op.ResolveOp?)
  {
    hide VarName, BoundToks, EffectToks;
  }

  lemma ReturnParts(w: World, lv: nat, mode: Mode, g: Gamma, e: Expr, t: Type)
    requires e.Return?
    ensures HasType(w, lv, mode, g, e, t) <==> HasType(w, lv, mode, g, e.m, w.result)
  {
    hide OpHasType, PrimHas, AnswersHave, NameHas;
  }

  /** And a body whose kinds are met is typed, at any type: nothing follows its cadences. */
  lemma {:induction false} MetIsTyped(w: World, f: Type, lv: nat, mode: Mode, g: Gamma, ops: seq<RenderOp>, p: Pen,
          now: Now, t: Type, needed: bool)
    requires p.pos <= |ops| && Block(ops, mode, p).Took? && (Block(ops, mode, p).val.needsFugue ==> needed)
    requires Hosts(w, needed) && lv > 0 && f.Fun? && f.a == f.r && Knows(w, Some(f), g, p, now)
    requires Meets(w, Some(f), mode, UseOf(ops, mode, p, now))
    ensures HasType(w, lv, mode, g, BodyOf(ops, mode, p), t)
    decreases |ops| - p.pos, 1
  {
    hide HasType, PrevExpr, BoundExpr, EffectExpr, VarName, Knows, TypeNow, Write;
    var op := ops[p.pos];
    if op.Cadence? {
      NowFits(w, Some(f), g, p, now);
      KnownPrev(w, Some(f), g, p, now);
      ReturnParts(w, lv, mode, g, BodyOf(ops, mode, p), t);
      PrevHas(w, lv, mode, g, p, w.result, needed);
      assert KindNow(now) in UseOf(ops, mode, p, now).cad;
    } else if op.Branch? {
      MetArms(w, f, lv, mode, g, ops, p, now, t, needed);
    } else if Effectful(mode, op) {
      MetEffect(w, f, lv, mode, g, ops, p, now, t, needed);
    } else {
      MetLine(w, f, lv, mode, g, ops, p, now, t, needed);
    }
  }

  lemma {:induction false} MetArms(w: World, f: Type, lv: nat, mode: Mode, g: Gamma, ops: seq<RenderOp>, p: Pen,
          now: Now, t: Type, needed: bool)
    requires p.pos < |ops| && ops[p.pos].Branch? && Block(ops, mode, p).Took? && (Block(ops, mode, p).val.needsFugue ==> needed)
    requires Hosts(w, needed) && lv > 0 && f.Fun? && f.a == f.r && Knows(w, Some(f), g, p, now)
    requires Meets(w, Some(f), mode, UseOf(ops, mode, p, now))
    ensures HasType(w, lv, mode, g, BodyOf(ops, mode, p), t)
    decreases |ops| - p.pos, 0
  {
    hide HasType, VarName, Knows, Write, FitsKind;
    var q1 := Put(p.(pos := p.pos + 1), OPEN_ARM);
    var q2 := Put(Block(ops, mode, q1).val, NEXT_ARM);
    ArmKnows(w, Some(f), g, ops, mode, p, now);
    PenMoves(ops, mode, q2);
    MetIsTyped(w, f, lv, mode, g, ops, q1, now, t, needed);
    MetIsTyped(w, f, lv, mode, g, ops, q2, if q2.vars > p.vars then Lost else now, t, needed);
    LitHas(w, lv, mode, g, Bool(true), TBool);
    IfParts(w, lv, mode, g, BodyOf(ops, mode, p), t);
  }

  lemma {:induction false} MetEffect(w: World, f: Type, lv: nat, mode: Mode, g: Gamma, ops: seq<RenderOp>, p: Pen,
          now: Now, t: Type, needed: bool)
    requires p.pos < |ops| && Effectful(mode, ops[p.pos]) && Block(ops, mode, p).Took? && (Block(ops, mode, p).val.needsFugue ==> needed)
    requires Hosts(w, needed) && lv > 0 && f.Fun? && f.a == f.r && Knows(w, Some(f), g, p, now)
    requires Meets(w, Some(f), mode, UseOf(ops, mode, p, now))
    ensures HasType(w, lv, mode, g, BodyOf(ops, mode, p), t)
    decreases |ops| - p.pos, 0
  {
    hide HasType, PrevExpr, EffectExpr, VarName, Knows, TypeNow, Write;
    var op, q := ops[p.pos], Write(mode, ops[p.pos], p);
    NowFits(w, Some(f), g, p, now);
    KnownPrev(w, Some(f), g, p, now);
    WriteNeeds(mode, op, p);
    assert KindNow(now) in UseOf(ops, mode, p, now).mod;
    EffectHas(w, lv, mode, g, p, TUnit, needed);
    EffectKnows(w, Some(f), mode, g, p, op, now);
    MetIsTyped(w, f, lv, mode, g + [Entry("_", TUnit)], ops, q, now, t, needed);
    BindWhole(w, lv, mode, g, BodyOf(ops, mode, p), t, TUnit);
  }

  lemma {:induction false} MetLine(w: World, f: Type, lv: nat, mode: Mode, g: Gamma, ops: seq<RenderOp>, p: Pen,
          now: Now, t: Type, needed: bool)
    requires p.pos < |ops| && !ops[p.pos].Cadence? && !ops[p.pos].Branch? && !Effectful(mode, ops[p.pos])
    requires Block(ops, mode, p).Took? && (Block(ops, mode, p).val.needsFugue ==> needed)
    requires Hosts(w, needed) && lv > 0 && f.Fun? && f.a == f.r && Knows(w, Some(f), g, p, now)
    requires Meets(w, Some(f), mode, UseOf(ops, mode, p, now))
    ensures HasType(w, lv, mode, g, BodyOf(ops, mode, p), t)
    decreases |ops| - p.pos, 0
  {
    hide HasType, PrevExpr, BoundExpr, VarName, Knows, Write, FitsKind, LineType;
    var op, q := ops[p.pos], Write(mode, ops[p.pos], p);
    PenMoves(ops, mode, q);
    WriteNeeds(mode, op, p);
    var u := LineType(w, f, g, p, op, now);
    LineTyped(w, f, lv, mode, g, p, op, now, needed);
    LineKnows(w, Some(f), mode, g, p, op, now, u);
    MetIsTyped(w, f, lv, mode, g + [Entry(VarName(p.vars + 1), u)], ops, q, InScope(KindOfLine(op, now)), t, needed);
    BindWhole(w, lv, mode, g, BodyOf(ops, mode, p), t, u);
  }

  lemma LineTyped(w: World, f: Type, lv: nat, mode: Mode, g: Gamma, p: Pen, op: RenderOp, now: Now, needed: bool)
    requires Hosts(w, needed) && lv > 0 && f.Fun? && f.a == f.r && Knows(w, Some(f), g, p, now)
    requires !op.Cadence? && !op.Branch? && (op.AskOp? || op.ResolveOp? ==> needed) && (ReadsPrev(op) ==> !now.Lost?)
    ensures var u := LineType(w, f, g, p, op, now);
            HasType(w, lv, mode, g, BoundExpr(op, p.prev), u) && FitsKind(w, Some(f), KindOfLine(op, now), u)
  {
    hide HasType, PrevExpr, BoundExpr, VarName, Knows, TypeNow;
    NowFits(w, Some(f), g, p, now);
    KnownPrev(w, Some(f), g, p, now);
    BoundHas(w, lv, mode, g, p, op, LineType(w, f, g, p, op, now), needed);
  }

  /** The type a line binds when resolved answers are used at `f`. */
  function LineType(w: World, f: Type, g: Gamma, p: Pen, op: RenderOp, now: Now): Type {
    match op
    case ArgOp => w.arg
    case AskOp => TNum
    case ResolveOp => f
    case _ => if TypeNow(g, p).Some? then TypeNow(g, p).value else TNum
  }

  // --- when kinds can be met ---

  const ONLY: Type := Fun(TUnit, TUnit)

  lemma MeetsAgrees(w: World, mode: Mode, u: Use)
    requires Meets(w, None, mode, u)
    ensures Agreeable(mode, u)
  {
  }

  /** A type for all values of the kinds. */
  function Pick(ks: set<Kind>): Type {
    if KNum !in ks && KFun in ks then ONLY else TNum
  }

  lemma AgreesMeets(fugues: seq<Fugue>, mode: Mode, u: Use) returns (w: World)
    requires Agreeable(mode, u)
    ensures w.fugues == fugues && Meets(w, Some(ONLY), mode, u)
  {
    var m := Mods(mode, u);
    var both := KArg in u.cad && KArg in m;
    var c, s := if both then u.cad + m else u.cad, if both then u.cad + m else m;
    w := World(fugues, Pick(if KArg in u.cad then c else s), Pick(s), TUnit, Pick(c), false, 0);
  }

  // --- an accepted transcript leaves no predicate open ---

  /** Whatever solves the equations meets the deferred predicates. */
  ghost predicate Forced(c: State) {
    forall th: seq<Type> :: Solves(th, c.st) ==> PredsHold(th, c.preds)
  }

  lemma SolvesBefore(th: seq<Type>, c: State, c': State)
    requires Grows(c, c') && Solves(th, c'.st)
    ensures Solves(th, c.st)
  {
    forall i | 0 <= i < |c.st| && c.st[i].Some? ensures th[i] == Sub(th, c.st[i].value) { assert c'.st[i] == c.st[i]; }
  }

  lemma ForcedOn(c: State, c': State)
    requires Forced(c) && Grows(c, c') && c'.preds == c.preds
    ensures Forced(c')
  {
    hide Solves, PredsHold;
    forall th: seq<Type> | Solves(th, c'.st) ensures PredsHold(th, c'.preds) { SolvesBefore(th, c, c'); }
  }

  /** Inferring it defers no predicate. */
  predicate Quiet(e: Expr) {
    match e
    case Lit(_) | Arg | Ask(_) => true
    case Var(x) => B.PrimOf(x) != Some(B.Corpus)
    case Pure(_, m) => Quiet(m)
    case Lam(_, b) => Quiet(b)
    case App(f, a) => Quiet(f) && Quiet(a)
    case _ => false
  }

  lemma {:induction false} QuietKeeps(w: World, lv: nat, mode: Mode, g: Gamma, e: Expr, c: State)
    requires Ready(w, g, c) && Quiet(e) && Infer(w, lv, mode, g, e, c).Ok?
    ensures Infer(w, lv, mode, g, e, c).val.1.preds == c.preds
    decreases e
  {
    hide Acyclic, WorldIn, Extends, Equate;
    match e
    case Lit(_) | Arg | Ask(_) | Var(_) =>
    case Pure(_, m) => QuietKeeps(w, lv, mode, g, m, c);
    case Lam(x, b) =>
      var (a, c1) := Fresh(c);
      GrowsOn(w, g, c, c1);
      QuietKeeps(w, lv, mode, g + [Entry(x, a)], b, c1);
    case App(f, a) =>
      QuietKeeps(w, lv, mode, g, f, c);
      var c1 := Infer(w, lv, mode, g, f, c).val.1;
      GrowsOn(w, g, c, c1);
      QuietKeeps(w, lv, mode, g, a, c1);
  }

  lemma QuietForced(w: World, lv: nat, mode: Mode, g: Gamma, e: Expr, c: State)
    requires Ready(w, g, c) && Quiet(e) && Infer(w, lv, mode, g, e, c).Ok? && Forced(c)
    ensures Forced(Infer(w, lv, mode, g, e, c).val.1)
  {
    hide Infer, Ready, Grows, Forced, Quiet;
    QuietKeeps(w, lv, mode, g, e, c);
    ForcedOn(c, Infer(w, lv, mode, g, e, c).val.1);
  }

  /** An application forces what its head and then its argument force. */
  lemma AppForced(w: World, lv: nat, mode: Mode, g: Gamma, f: Expr, a: Expr, c: State)
    requires Ready(w, g, c) && Infer(w, lv, mode, g, App(f, a), c).Ok?
    ensures var r := Infer(w, lv, mode, g, f, c);
            && r.Ok? && Ready(w, g, r.val.1)
            && var q := Infer(w, lv, mode, g, a, r.val.1);
            && q.Ok? && (Forced(q.val.1) ==> Forced(Infer(w, lv, mode, g, App(f, a), c).val.1))
  {
    hide Acyclic, WorldIn, Extends, Equate, Forced, GammaIn;
    var (tf, c1) := Infer(w, lv, mode, g, f, c).val;
    GrowsOn(w, g, c, c1);
    var (ta, c2) := Infer(w, lv, mode, g, a, c1).val;
    var (t, c3) := Fresh(c2);
    Widens(c1, c2, tf);
    Widens(c2, c3, tf);
    Widens(c2, c3, ta);
    var c4 := Equate(c3, tf, Fun(ta, t)).val;
    if Forced(c2) {
      ForcedOn(c2, c3);
      ForcedOn(c3, c4);
    }
  }

  lemma ExpectForced(w: World, lv: nat, mode: Mode, g: Gamma, e: Expr, want: Type, c: State)
    requires Ready(w, g, c) && InRange(|c.st|, want) && Inference.Expect(w, lv, mode, g, e, want, c).Ok?
    ensures Infer(w, lv, mode, g, e, c).Ok?
    ensures Forced(Infer(w, lv, mode, g, e, c).val.1) ==> Forced(Inference.Expect(w, lv, mode, g, e, want, c).val.1)
  {
    hide Acyclic, WorldIn, Extends, Equate, Forced, GammaIn, Infer;
    var (t, c1) := Infer(w, lv, mode, g, e, c).val;
    Widens(c, c1, want);
    if Forced(c1) { ForcedOn(c1, Equate(c1, t, want).val); }
  }

  lemma AgreeForced(w: World, lv: nat, mode: Mode, g: Gamma, e: Expr, first: Type, c: State)
    requires Ready(w, g, c) && InRange(|c.st|, first) && Agree(w, lv, mode, g, e, first, c).Ok?
    ensures Infer(w, lv, mode, g, e, c).Ok?
    ensures Forced(Infer(w, lv, mode, g, e, c).val.1) ==> Forced(Agree(w, lv, mode, g, e, first, c).val)
  {
    hide Acyclic, WorldIn, Extends, Equate, Forced, GammaIn, Infer;
    var (t, c1) := Infer(w, lv, mode, g, e, c).val;
    Widens(c, c1, first);
    if Forced(c1) { ForcedOn(c1, Equate(c1, first, t).val); }
  }

  lemma EquatedSolves(th: seq<Type>, c: State, a: Type, b: Type)
    requires Good(c) && InRange(|c.st|, a) && InRange(|c.st|, b)
    requires Equate(c, a, b).Ok? && Solves(th, Equate(c, a, b).val.st)
    ensures Solves(th, c.st) && Sub(th, a) == Sub(th, b)
  {
    SolvesBefore(th, c, Equate(c, a, b).val);
    UnifyIsExact(c.st, a, b, th);
  }

  /** What a solution after an application says of it. */
  lemma AppSolves(th: seq<Type>, w: World, lv: nat, mode: Mode, g: Gamma, f: Expr, a: Expr, c: State)
    requires Ready(w, g, c) && Infer(w, lv, mode, g, App(f, a), c).Ok?
    requires Solves(th, Infer(w, lv, mode, g, App(f, a), c).val.1.st)
    ensures var rf := Infer(w, lv, mode, g, f, c);
            && rf.Ok? && Ready(w, g, rf.val.1)
            && var ra := Infer(w, lv, mode, g, a, rf.val.1);
            && ra.Ok? && Solves(th, ra.val.1.st) && Solves(th, rf.val.1.st)
            && var r := Infer(w, lv, mode, g, App(f, a), c);
            && r.val.1.preds == ra.val.1.preds && Sub(th, rf.val.0) == Fun(Sub(th, ra.val.0), Sub(th, r.val.0))
  {
    hide Acyclic, WorldIn, Extends, Equate, GammaIn, Solves;
    var (tf, c1) := Infer(w, lv, mode, g, f, c).val;
    GrowsOn(w, g, c, c1);
    var (ta, c2) := Infer(w, lv, mode, g, a, c1).val;
    var (t, c3) := Fresh(c2);
    Widens(c1, c2, tf);
    Widens(c2, c3, tf);
    Widens(c2, c3, ta);
    EquatedSolves(th, c3, tf, Fun(ta, t));
    SolvesBefore(th, c2, c3);
    SolvesBefore(th, c1, c2);
  }

  const CORPUS1: Expr := App(Var("corpus"), Lit(Value.Num(ZERO)))
  const CORPUS2: Expr := App(CORPUS1, Lit(Value.Str("cantus")))

  /** The genus of the canonical body is a string, so the one predicate it defers is met. */
  lemma CorpusForced(w: World, lv: nat, mode: Mode, g: Gamma, vars: nat, c: State)
    requires Ready(w, g, c) && Named(g, vars) && Forced(c) && Infer(w, lv, mode, g, CORPUS2, c).Ok?
    ensures Forced(Infer(w, lv, mode, g, CORPUS2, c).val.1)
  {
    hide Infer, Acyclic, WorldIn, Extends, GammaIn, Solves, Named, SigOf, Sub;
    var r := Infer(w, lv, mode, g, CORPUS2, c).val;
    forall th: seq<Type> | Solves(th, r.1.st) ensures PredsHold(th, r.1.preds) {
      AppSolves(th, w, lv, mode, g, CORPUS1, CORPUS2.a, c);
      var r1 := Infer(w, lv, mode, g, CORPUS1, c).val;
      LitInfers(w, lv, mode, g, Value.Str("cantus"), r1.1);
      AppSolves(th, w, lv, mode, g, Var("corpus"), CORPUS1.a, c);
      CorpusInfers(w, lv, mode, g, vars, c);
      var r0 := Infer(w, lv, mode, g, Var("corpus"), c).val;
      LitInfers(w, lv, mode, g, Value.Num(ZERO), r0.1);
      SolvesBefore(th, c, r0.1);
      var a := TVar(|c.st|);
      CorpusAt(th, a);
      assert Sub(th, TStr) == TStr by { StrStays(th); }
      assert Sub(th, a) == TStr;
      PredsSnoc(th, c.preds, Pred(a, GENUS_OR_STR, GenusH));
    }
  }

  lemma StrStays(th: seq<Type>)
    ensures Sub(th, TStr) == TStr
  {
  }

  lemma PredsSnoc(th: seq<Type>, ps: seq<Pred>, q: Pred)
    requires PredsHold(th, ps) && Sub(th, q.ty) == TStr && q.allowed == GENUS_OR_STR
    ensures PredsHold(th, ps + [q])
  {
    assert StrH in GENUS_OR_STR;
  }

  lemma CorpusAt(th: seq<Type>, a: Type)
    ensures var t := Sub(th, SigOf(B.Corpus, a)); t.Fun? && t.r.Fun? && t.r.a == Sub(th, a)
  {
    SigSub(th, B.Corpus, a);
  }

  lemma LitInfers(w: World, lv: nat, mode: Mode, g: Gamma, v: Value, c: State)
    requires Ready(w, g, c)
    ensures Infer(w, lv, mode, g, Lit(v), c) == Checked.Ok((TypeOfValue(v), c))
  {
  }

  lemma CorpusInfers(w: World, lv: nat, mode: Mode, g: Gamma, vars: nat, c: State)
    requires Ready(w, g, c) && Named(g, vars)
    ensures var r := Infer(w, lv, mode, g, Var("corpus"), c);
            && r.Ok? && r.val.0 == SigOf(B.Corpus, TVar(|c.st|))
            && r.val.1.preds == c.preds + [Pred(TVar(|c.st|), GENUS_OR_STR, GenusH)]
  {
    hide Acyclic, WorldIn, Extends, GammaIn, SigOf;
    forall n | 0 <= n <= vars ensures VarName(n) != "corpus" { VarIsNoBuiltin(n); }
    NotNamed(g, vars, "corpus");
    assert B.PrimOf("corpus") == Some(B.Corpus);
  }

  lemma GenusForced(w: World, lv: nat, mode: Mode, g: Gamma, vars: nat, c: State)
    requires Ready(w, g, c) && Named(g, vars) && Forced(c)
    requires Infer(w, lv, mode, g, App(Var("genus"), CANTUS), c).Ok?
    ensures Forced(Infer(w, lv, mode, g, App(Var("genus"), CANTUS), c).val.1)
  {
    hide Infer, Ready, Named, Forced, B.PrimOf;
    Instances();
    AppForced(w, lv, mode, g, Var("genus"), CANTUS, c);
    QuietForced(w, lv, mode, g, Var("genus"), c);
    var c1 := Infer(w, lv, mode, g, Var("genus"), c).val.1;
    AppForced(w, lv, mode, g, CANTUS.f, CANTUS.a, c1);
    AppForced(w, lv, mode, g, CORPUS2, CANTUS.f.a, c1);
    CorpusForced(w, lv, mode, g, vars, c1);
    var c2 := Infer(w, lv, mode, g, CORPUS2, c1).val.1;
    QuietForced(w, lv, mode, g, CANTUS.f.a, c2);
    QuietForced(w, lv, mode, g, CANTUS.a, Infer(w, lv, mode, g, CANTUS.f, c1).val.1);
  }

  lemma PrevQuiet(p: Pen)
    requires p.prev.Some? ==> Numbered(p.prev.value, p.vars)
    ensures Quiet(PrevExpr(p.prev))
  {
    hide VarName;
    if p.prev.Some? {
      var n :| 0 <= n <= p.vars && p.prev.value == VarName(n);
      VarIsNoBuiltin(n);
    }
  }

  lemma ResolveForced(w: World, lv: nat, mode: Mode, g: Gamma, vars: nat, c: State)
    requires Hosts(w, true) && Ready(w, g, c) && Named(g, vars) && Forced(c)
    requires Infer(w, lv, mode, g, Resolve("vox", App(Var("genus"), CANTUS)), c).Ok?
    ensures Forced(Infer(w, lv, mode, g, Resolve("vox", App(Var("genus"), CANTUS)), c).val.1)
  {
    hide Infer, Inference.Expect, InferAnswers, Acyclic, Extends, Forced, Named, CANTUS, GammaIn, WorldIn;
    var n := App(Var("genus"), CANTUS);
    ResolveSteps(w, lv, mode, g, "vox", n, c);
    ExpectForced(w, lv, mode, g, n, TGenus, c);
    GenusForced(w, lv, mode, g, vars, c);
    var c1 := Inference.Expect(w, lv, mode, g, n, TGenus, c).val.1;
    var (t, c2) := Fresh(c1);
    GrowsTrans(c, c1, c2);
    GrowsOn(w, g, c, c2);
    ForcedOn(c1, c2);
    var tone :| w.fugues == FuguesOf(true, tone);
    FuguesHold(true, tone);
    VoxForced(w, lv - 1, mode, g, t, c2);
  }

  lemma ResolveSteps(w: World, lv: nat, mode: Mode, g: Gamma, x: Sym, n: Expr, c: State)
    requires Ready(w, g, c) && Infer(w, lv, mode, g, Resolve(x, n), c).Ok?
    ensures var q := Inference.Expect(w, lv, mode, g, n, TGenus, c);
            && q.Ok?
            && var (t, c2) := Fresh(q.val.1);
            && Ready(w, g, c2)
            && (Mentions(Answers(w.fugues), x) ==>
                  lv > 0 && InferAnswers(w, lv - 1, mode, g, Answers(w.fugues), x, t, c2).Ok?
                  && Infer(w, lv, mode, g, Resolve(x, n), c).val.1 == InferAnswers(w, lv - 1, mode, g, Answers(w.fugues), x, t, c2).val)
  {
    hide Inference.Expect, InferAnswers, Acyclic, Extends;
    var c1 := Inference.Expect(w, lv, mode, g, n, TGenus, c).val.1;
    var (t, c2) := Fresh(c1);
    GrowsTrans(c, c1, c2);
    GrowsOn(w, g, c, c2);
  }

  lemma VoxForced(w: World, lv: nat, mode: Mode, g: Gamma, t: Type, c: State)
    requires Ready(w, g, c) && InRange(|c.st|, t) && Forced(c)
    requires InferAnswers(w, lv, mode, g, [Overload("vox", "cantus", Lam("x", Var("x")))], "vox", t, c).Ok?
    ensures Forced(InferAnswers(w, lv, mode, g, [Overload("vox", "cantus", Lam("x", Var("x")))], "vox", t, c).val)
  {
    hide Infer, Inference.Expect, Acyclic, Extends, Forced, GammaIn, WorldIn, InRange;
    var os := [Overload("vox", "cantus", Lam("x", Var("x")))];
    assert os[1..] == [];
    assert B.PrimOf("x") == None;
    assert Inference.Expect(w, lv, mode, g, os[0].body, t, c).Ok?;
    ExpectForced(w, lv, mode, g, os[0].body, t, c);
    QuietForced(w, lv, mode, g, os[0].body, c);
    var c1 := Inference.Expect(w, lv, mode, g, os[0].body, t, c).val.1;
    GrowsOn(w, g, c, c1);
    Widens(c, c1, t);
    assert InferAnswers(w, lv, mode, g, os[1..], "vox", t, c1) == Checked.Ok(c1);
  }

  lemma CmdForced(w: World, lv: nat, mode: Mode, g: Gamma, p: Pen, c: State, needed: bool)
    requires Hosts(w, needed) && Ready(w, g, c) && Named(g, p.vars) && (p.prev.Some? ==> Numbered(p.prev.value, p.vars)) && Forced(c)
    requires var q := PrevExpr(p.prev); Infer(w, lv, mode, g, App(App(App(Var("cmd"), q), q), q), c).Ok?
    ensures var q := PrevExpr(p.prev);
            var (t, c1) := Infer(w, lv, mode, g, App(App(App(Var("cmd"), q), q), q), c).val;
            Forced(Defer(c1, Pred(t, CMD_OR_PLAN, CmdH)))
  {
    hide Infer, Ready, Solves, PredsHold, PrevExpr, VarName, HasType;
    var q := PrevExpr(p.prev);
    var e := App(App(App(Var("cmd"), q), q), q);
    PrevQuiet(p);
    CmdQuiet();
    assert Quiet(e.f.f) && Quiet(e.f);
    QuietForced(w, lv, mode, g, e, c);
    var (t, c1) := Infer(w, lv, mode, g, e, c).val;
    forall th: seq<Type> | Solves(th, c1.st) ensures PredsHold(th, c1.preds + [Pred(t, CMD_OR_PLAN, CmdH)]) {
      InferSound(th, w, lv, mode, g, e, c);
      CmdHas(SubW(th, w), lv, mode, SubG(th, g), p, Sub(th, t), needed);
      CmdSnoc(th, c1.preds, t);
    }
  }

  lemma CmdQuiet()
    ensures Quiet(Var("cmd"))
  {
  }

  lemma CmdSnoc(th: seq<Type>, ps: seq<Pred>, t: Type)
    requires PredsHold(th, ps) && Sub(th, t) == TCmd
    ensures PredsHold(th, ps + [Pred(t, CMD_OR_PLAN, CmdH)])
  {
    assert CmdH in CMD_OR_PLAN;
  }

  lemma BoundForced(w: World, lv: nat, mode: Mode, g: Gamma, p: Pen, op: RenderOp, c: State, needed: bool)
    requires Hosts(w, needed) && Ready(w, g, c) && Named(g, p.vars) && (p.prev.Some? ==> Numbered(p.prev.value, p.vars)) && Forced(c)
    requires !op.Cadence? && !op.Branch? && (op.ResolveOp? ==> needed)
    requires Infer(w, lv, mode, g, BoundExpr(op, p.prev), c).Ok?
    ensures Forced(Infer(w, lv, mode, g, BoundExpr(op, p.prev), c).val.1)
  {
    hide Infer, Ready, Forced, PrevExpr, Named, CANTUS;
    if op.ResolveOp? {
      ResolveForced(w, lv, mode, g, p.vars, c);
    } else {
      PrevQuiet(p);
      QuietForced(w, lv, mode, g, BoundExpr(op, p.prev), c);
    }
  }

  lemma EffectForced(w: World, lv: nat, mode: Mode, g: Gamma, p: Pen, c: State, needed: bool)
    requires Hosts(w, needed) && Ready(w, g, c) && Named(g, p.vars) && (p.prev.Some? ==> Numbered(p.prev.value, p.vars)) && Forced(c)
    requires KeepsModal(mode) && InferStmt(w, lv, mode, g, EffectExpr(mode, p.prev), c).Ok?
    ensures Forced(InferStmt(w, lv, mode, g, EffectExpr(mode, p.prev), c).val.c)
  {
    hide Infer, Inference.Expect, Good, GammaIn, Extends, Forced, PrevExpr, Named;
    if mode.Hypomixolydian? {
      CmdForced(w, lv, mode, g, p, c, needed);
    } else {
      PrevQuiet(p);
      ExpectForced(w, lv, mode, g, PrevExpr(p.prev), w.state, c);
      QuietForced(w, lv, mode, g, PrevExpr(p.prev), c);
    }
  }

  /** Checking a transcript's body leaves no predicate that a solution could miss. */
  lemma {:induction false} BodyForced(w: World, lv: nat, mode: Mode, g: Gamma, ops: seq<RenderOp>, p: Pen,
          c: State, needed: bool)
    requires p.pos <= |ops| && Block(ops, mode, p).Took? && (Block(ops, mode, p).val.needsFugue ==> needed)
    requires Hosts(w, needed) && Ready(w, g, c) && Named(g, p.vars) && (p.prev.Some? ==> Numbered(p.prev.value, p.vars)) && Forced(c)
    requires Infer(w, lv, mode, g, BodyOf(ops, mode, p), c).Ok?
    ensures Forced(Infer(w, lv, mode, g, BodyOf(ops, mode, p), c).val.1)
    decreases |ops| - p.pos, 1
  {
    hide Infer, Ready, Forced, PrevExpr, BoundExpr, EffectExpr, VarName, Named, Write;
    var op := ops[p.pos];
    if op.Cadence? {
      CadenceForced(w, lv, mode, g, p, c);
    } else if op.Branch? {
      ArmsForced(w, lv, mode, g, ops, p, c, needed);
    } else {
      LineForced(w, lv, mode, g, ops, p, c, needed);
    }
  }

  lemma CadenceForced(w: World, lv: nat, mode: Mode, g: Gamma, p: Pen, c: State)
    requires Ready(w, g, c) && (p.prev.Some? ==> Numbered(p.prev.value, p.vars)) && Forced(c)
    requires Infer(w, lv, mode, g, Return(mode, PrevExpr(p.prev)), c).Ok?
    ensures Forced(Infer(w, lv, mode, g, Return(mode, PrevExpr(p.prev)), c).val.1)
  {
    hide Infer, Inference.Expect, Acyclic, Extends, Forced, PrevExpr, GammaIn;
    var m := PrevExpr(p.prev);
    PrevQuiet(p);
    ReturnSteps(w, lv, mode, g, m, c);
    ExpectForced(w, lv, mode, g, m, w.result, c);
    QuietForced(w, lv, mode, g, m, c);
    var c1 := Inference.Expect(w, lv, mode, g, m, w.result, c).val.1;
    ForcedOn(c1, Fresh(c1).1);
  }

  lemma ReturnSteps(w: World, lv: nat, mode: Mode, g: Gamma, m: Expr, c: State)
    requires Ready(w, g, c) && Infer(w, lv, mode, g, Return(mode, m), c).Ok?
    ensures var q := Inference.Expect(w, lv, mode, g, m, w.result, c);
            q.Ok? && Infer(w, lv, mode, g, Return(mode, m), c).val.1 == Fresh(q.val.1).1
  {
    hide Inference.Expect, Acyclic, Extends;
  }

  lemma IfSteps(w: World, lv: nat, mode: Mode, g: Gamma, b: Expr, p: Expr, q: Expr, c: State)
    requires Ready(w, g, c) && Infer(w, lv, mode, g, If(b, p, q), c).Ok?
    ensures var r0 := Inference.Expect(w, lv, mode, g, b, TBool, c);
            && r0.Ok? && Ready(w, g, r0.val.1)
            && var r1 := Infer(w, lv, mode, g, p, r0.val.1);
            && r1.Ok? && Ready(w, g, r1.val.1)
            && var r2 := Agree(w, lv, mode, g, q, r1.val.0, r1.val.1);
            && r2.Ok? && Infer(w, lv, mode, g, If(b, p, q), c).val.1 == r2.val
  {
    hide Inference.Expect, Agree, Acyclic, WorldIn, Extends;
    var c1 := Inference.Expect(w, lv, mode, g, b, TBool, c).val.1;
    GrowsOn(w, g, c, c1);
    GrowsOn(w, g, c1, Infer(w, lv, mode, g, p, c1).val.1);
  }

  lemma {:induction false} ArmsForced(w: World, lv: nat, mode: Mode, g: Gamma, ops: seq<RenderOp>, p: Pen,
          c: State, needed: bool)
    requires p.pos < |ops| && ops[p.pos].Branch? && Block(ops, mode, p).Took? && (Block(ops, mode, p).val.needsFugue ==> needed)
    requires Hosts(w, needed) && Ready(w, g, c) && Named(g, p.vars) && (p.prev.Some? ==> Numbered(p.prev.value, p.vars)) && Forced(c)
    requires Infer(w, lv, mode, g, BodyOf(ops, mode, p), c).Ok?
    ensures Forced(Infer(w, lv, mode, g, BodyOf(ops, mode, p), c).val.1)
    decreases |ops| - p.pos, 0
  {
    hide Infer, Inference.Expect, Agree, Ready, Forced, VarName, Named;
    var q1 := Put(p.(pos := p.pos + 1), OPEN_ARM);
    var q2 := Put(Block(ops, mode, q1).val, NEXT_ARM);
    var e := BodyOf(ops, mode, p);
    IfSteps(w, lv, mode, g, e.c, e.t, e.e, c);
    ExpectForced(w, lv, mode, g, e.c, TBool, c);
    QuietForced(w, lv, mode, g, e.c, c);
    var c1 := Inference.Expect(w, lv, mode, g, e.c, TBool, c).val.1;
    PenMoves(ops, mode, q1);
    PenMoves(ops, mode, q2);
    ArmNumbered(g, p, q2);
    BodyForced(w, lv, mode, g, ops, q1, c1, needed);
    var (t, c2) := Infer(w, lv, mode, g, e.t, c1).val;
    AgreeForced(w, lv, mode, g, e.e, t, c2);
    BodyForced(w, lv, mode, g, ops, q2, c2, needed);
  }

  lemma ArmNumbered(g: Gamma, p: Pen, q: Pen)
    requires Named(g, p.vars) && (p.prev.Some? ==> Numbered(p.prev.value, p.vars)) && p.vars <= q.vars
    requires q.vars == p.vars ==> q.prev == p.prev
    requires q.vars > p.vars ==> exists n :: p.vars < n <= q.vars && q.prev == Some(VarName(n))
    ensures Named(g, q.vars) && (q.prev.Some? ==> Numbered(q.prev.value, q.vars))
  {
    hide VarName;
    NamedMore(g, p.vars, q.vars);
    if q.vars > p.vars {
      var n :| p.vars < n <= q.vars && q.prev == Some(VarName(n));
      assert Numbered(q.prev.value, q.vars);
    }
  }

  lemma BindSteps(w: World, lv: nat, mode: Mode, g: Gamma, m: Expr, x: Sym, k: Expr, c: State)
    requires Ready(w, g, c) && Infer(w, lv, mode, g, Bind(mode, m, x, k), c).Ok?
    ensures var r0 := InferStmt(w, lv, mode, g, m, c);
            && r0.Ok? && Ready(w, g + [Entry(x, r0.val.bound)], r0.val.c)
            && var r1 := Infer(w, lv, mode, g + [Entry(x, r0.val.bound)], k, r0.val.c);
            && r1.Ok? && Infer(w, lv, mode, g, Bind(mode, m, x, k), c).val.1 == r1.val.1
  {
    hide InferStmt, Acyclic, Extends;
    GrowsOn(w, g, c, InferStmt(w, lv, mode, g, m, c).val.c);
  }

  lemma {:induction false} LineForced(w: World, lv: nat, mode: Mode, g: Gamma, ops: seq<RenderOp>, p: Pen,
          c: State, needed: bool)
    requires p.pos < |ops| && !ops[p.pos].Cadence? && !ops[p.pos].Branch? && Block(ops, mode, p).Took?
    requires Block(ops, mode, p).val.needsFugue ==> needed
    requires Hosts(w, needed) && Ready(w, g, c) && Named(g, p.vars) && (p.prev.Some? ==> Numbered(p.prev.value, p.vars)) && Forced(c)
    requires Infer(w, lv, mode, g, BodyOf(ops, mode, p), c).Ok?
    ensures Forced(Infer(w, lv, mode, g, BodyOf(ops, mode, p), c).val.1)
    decreases |ops| - p.pos, 0
  {
    hide Infer, InferStmt, Ready, Forced, PrevExpr, BoundExpr, EffectExpr, VarName, Named, Write;
    var op, q := ops[p.pos], Write(mode, ops[p.pos], p);
    var e := BodyOf(ops, mode, p);
    PenMoves(ops, mode, q);
    WriteNeeds(mode, op, p);
    BindSteps(w, lv, mode, g, e.m, e.x, e.k, c);
    if Effectful(mode, op) {
      EffectForced(w, lv, mode, g, p, c, needed);
    } else {
      BoundForcedStmt(w, lv, mode, g, p, op, c, needed);
    }
    var stmt := InferStmt(w, lv, mode, g, e.m, c).val;
    LineNumbered(mode, g, p, op, stmt.bound);
    BodyForced(w, lv, mode, g + [Entry(e.x, stmt.bound)], ops, q, stmt.c, needed);
  }

  lemma BoundForcedStmt(w: World, lv: nat, mode: Mode, g: Gamma, p: Pen, op: RenderOp, c: State, needed: bool)
    requires Hosts(w, needed) && Ready(w, g, c) && Named(g, p.vars) && (p.prev.Some? ==> Numbered(p.prev.value, p.vars)) && Forced(c)
    requires !op.Cadence? && !op.Branch? && (op.ResolveOp? ==> needed)
    requires InferStmt(w, lv, mode, g, BoundExpr(op, p.prev), c).Ok?
    ensures Forced(InferStmt(w, lv, mode, g, BoundExpr(op, p.prev), c).val.c)
  {
    hide Infer, Inference.Expect, Ready, Forced, PrevExpr, Named;
    PrevQuiet(p);
    assert !BoundExpr(op, p.prev).Pone? && !BoundExpr(op, p.prev).Mitte?;
    BoundForced(w, lv, mode, g, p, op, c, needed);
  }

  lemma LineNumbered(mode: Mode, g: Gamma, p: Pen, op: RenderOp, u: Type)
    requires Named(g, p.vars) && (p.prev.Some? ==> Numbered(p.prev.value, p.vars)) && !op.Cadence? && !op.Branch?
    ensures var q := Write(mode, op, p);
            && Named(g + [Entry(if Effectful(mode, op) then "_" else VarName(p.vars + 1), u)], q.vars)
            && (q.prev.Some? ==> Numbered(q.prev.value, q.vars))
  {
    hide VarName, BoundToks, EffectToks;
    NamedMore(g, p.vars, p.vars + 1);
    assert Numbered(VarName(p.vars + 1), p.vars + 1);
  }

  // --- the theorem ---

  /** The checker accepts a transcript's body, with the fugue emitted for it, exactly when its
      values are in scope and its kinds agree. */
  lemma AcceptedExactly(ops: seq<RenderOp>, mode: Mode, tone: Scalar, name: Sym)
    requires Block(ops, mode, BLANK).Took?
    ensures var v := Versus(name, mode, BodyOf(ops, mode, BLANK), []);
            (exists c :: Checks(FuguesOf(Block(ops, mode, BLANK).val.needsFugue, tone), v, Checked.Ok(c)))
            <==> Agreeable(mode, UseOf(ops, mode, BLANK, Cold))
  {
    hide Block, BodyOf, UseOf, Agreeable, CheckVersus, HasType, Forced, Meets;
    var needed := Block(ops, mode, BLANK).val.needsFugue;
    var fugues, v, u := FuguesOf(needed, tone), Versus(name, mode, BodyOf(ops, mode, BLANK), []), UseOf(ops, mode, BLANK, Cold);
    if c :| Checks(fugues, v, Checked.Ok(c)) {
      var lv: nat :| CheckVersus(fugues, lv, v) == Checked.Ok(c);
      CheckUp(fugues, lv, lv + 1, v);
      AcceptedAgrees(ops, mode, tone, lv + 1, v);
    }
    if Agreeable(mode, u) {
      var w := AgreesMeets(fugues, mode, u);
      assert Hosts(w, needed) && Knows(w, Some(ONLY), [], BLANK, Cold);
      MetIsTyped(w, ONLY, 1, mode, [], ops, BLANK, Cold, TUnit, needed);
      var th := TypableIsAccepted(fugues, 1, v, w, TUnit);
      var c := CheckVersus(fugues, 1, v).val;
      assert Checks(fugues, v, Checked.Ok(c)) by { assert CheckVersus(fugues, 1, v) == Checked.Ok(c); }
    }
  }

  lemma AcceptedAgrees(ops: seq<RenderOp>, mode: Mode, tone: Scalar, lv: nat, v: Versus)
    requires Block(ops, mode, BLANK).Took? && lv > 0 && v.rhymes == [] && v.mode == mode && v.body == BodyOf(ops, mode, BLANK)
    requires CheckVersus(FuguesOf(Block(ops, mode, BLANK).val.needsFugue, tone), lv, v).Ok?
    ensures Agreeable(mode, UseOf(ops, mode, BLANK, Cold))
  {
    hide Block, BodyOf, UseOf, Agreeable, HasType, Infer, Meets, CheckPreds, Acyclic;
    var needed := Block(ops, mode, BLANK).val.needsFugue;
    var fugues := FuguesOf(needed, tone);
    var own := OwnWorld(fugues);
    StartReady(fugues);
    assert Hosts(own, needed) && Forced(START);
    var c := CheckVersus(fugues, lv, v).val;
    BodyForced(own, lv, mode, [], ops, BLANK, START, needed);
    var th := Full(c.st);
    FullSolves(c.st);
    AcceptedIsTyped(fugues, lv, v, th);
    var w := SubW(th, own);
    var tau :| HasType(w, lv, mode, [], v.body, tau);
    assert Hosts(w, needed) && Knows(w, None, [], BLANK, Cold);
    TypedMeets(w, lv, mode, [], ops, BLANK, Cold, tau, needed);
    MeetsAgrees(w, mode, UseOf(ops, mode, BLANK, Cold));
  }

  /** So a phrase's transcript, parsed and checked, is accepted exactly under that condition; the
      transcriber promises it always. */
  lemma TranscriptAccepted(pitches: seq<nat>, toks: Toks, c: Cursor, tone: Scalar, name: Sym)
    requires Transcribe(pitches).Took? && c.parens == 0 && c.depth == 0
    requires P.Reads(toks, c.pos, Transcribe(pitches).val.body)
    ensures var t := Transcribe(pitches).val;
            var r := S.ParseStmts(toks, c, t.mode);
            && r.Ok? && Block(t.ops, t.mode, BLANK).Took?
            && ((exists st :: Checks(FuguesOf(t.needsFugue, tone), Versus(name, t.mode, r.val, []), Checked.Ok(st)))
                <==> Agreeable(t.mode, UseOf(t.ops, t.mode, BLANK, Cold)))
  {
    hide Block, BodyOf, UseOf, Agreeable, Checks, S.ParseStmts, OpsFrom, Dips, FinalOfPitch, R.Played;
    var t := Transcribe(pitches).val;
    TranscribedSings(pitches, toks, c, 0, 0);
    AcceptedExactly(t.ops, t.mode, tone, name);
  }

  const LEAK: seq<RenderOp> := [Branch, ArgOp, Cadence, Cadence]
  const MIXED: seq<RenderOp> := [Modal, ResolveOp, Modal, Cadence]

  lemma PhraseRead(mode: Mode, ops: seq<RenderOp>, pitches: seq<nat>)
    requires pitches == Keys(mode, ops) && pitches != [] && FinalOfPitch(pitches[|pitches| - 1]) == Some(mode.FinalOf())
    requires pitches[|pitches| - 1] == FinalIs(mode) && FromFinal(mode.FinalOf(), Dips(pitches, FinalIs(mode))) == mode
    requires Block(ops, mode, BLANK).Took? && Block(ops, mode, BLANK).val.pos == |ops|
    ensures Transcribe(pitches).Took? && Transcribe(pitches).val.mode == mode && Transcribe(pitches).val.ops == ops
  {
    hide Block, OpsFrom, Dips, Degree, DegreeOffset;
    OpsRead(mode, ops, 0);
    assert ops[0..] == ops;
  }

  /** A phrase the transcriber takes and the checker refuses: the value of the first arm runs on
      into the second, where it is not in scope. */
  lemma ArmsLeak(tone: Scalar, name: Sym)
    ensures var t := Transcribe([74, 64, 62, 62]);
            && t.Took? && t.val.mode.Dorian? && t.val.ops == LEAK && Block(LEAK, Dorian, BLANK).Took?
            && var fugues := FuguesOf(Block(LEAK, Dorian, BLANK).val.needsFugue, tone);
               forall c :: !Checks(fugues, Versus(name, Dorian, BodyOf(LEAK, Dorian, BLANK), []), Checked.Ok(c))
  {
    hide BodyOf, VarName, Checks;
    var q1 := Put(BLANK.(pos := 1), OPEN_ARM);
    var q := Write(Dorian, ArgOp, q1);
    var p2 := Put(q.(pos := 3), Amens(q.prev));
    assert Block(LEAK, Dorian, q) == Took(p2) && Block(LEAK, Dorian, q1) == Took(p2);
    var q2 := Put(p2, NEXT_ARM);
    assert Block(LEAK, Dorian, q2) == Took(Put(q2.(pos := 4), Amens(q2.prev)));
    assert Block(LEAK, Dorian, BLANK).Took?;
    assert UseOf(LEAK, Dorian, q2, Lost).bound == false;
    assert Keys(Dorian, LEAK) == [74, 64, 62, 62] && !Dips([74, 64, 62, 62], 62);
    PhraseRead(Dorian, LEAK, [74, 64, 62, 62]);
    AcceptedExactly(LEAK, Dorian, tone, name);
  }

  /** Another: the cell is set to a number and to a function. */
  lemma CellsMix(tone: Scalar, name: Sym)
    ensures var t := Transcribe([74, 76, 74, 65]);
            && t.Took? && t.val.mode.Lydian? && t.val.ops == MIXED && Block(MIXED, Lydian, BLANK).Took?
            && var fugues := FuguesOf(Block(MIXED, Lydian, BLANK).val.needsFugue, tone);
               forall c :: !Checks(fugues, Versus(name, Lydian, BodyOf(MIXED, Lydian, BLANK), []), Checked.Ok(c))
  {
    hide BodyOf, VarName, Checks;
    var q1 := Write(Lydian, Modal, BLANK);
    var q2 := Write(Lydian, ResolveOp, q1);
    var q3 := Write(Lydian, Modal, q2);
    assert Block(MIXED, Lydian, q3) == Took(Put(q3.(pos := 4), Amens(q3.prev)));
    assert Block(MIXED, Lydian, q2) == Block(MIXED, Lydian, q3) && Block(MIXED, Lydian, q1) == Block(MIXED, Lydian, q2);
    assert Block(MIXED, Lydian, BLANK) == Block(MIXED, Lydian, q1);
    var u3 := UseOf(MIXED, Lydian, q3, InScope(KFun));
    var u2 := UseOf(MIXED, Lydian, q2, InScope(KFun));
    assert u2.mod == u3.mod + {KFun} && UseOf(MIXED, Lydian, q1, Cold).mod == u2.mod;
    assert KNum in UseOf(MIXED, Lydian, BLANK, Cold).mod && KFun in UseOf(MIXED, Lydian, BLANK, Cold).mod;
    assert Keys(Lydian, MIXED) == [74, 76, 74, 65] && !Dips([74, 76, 74, 65], 65);
    PhraseRead(Lydian, MIXED, [74, 76, 74, 65]);
    AcceptedExactly(MIXED, Lydian, tone, name);
  }
}
