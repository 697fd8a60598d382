/** The builtin table: pure host functions callable from a score (builtins.rs). */
module Builtins {
  import opened Core

  datatype Prim =
    | Add | Sub | Mul | Div | Eq | Le | Lt | Not
    | Dist | Mass | GenusOf | Outgassing | Safe | Solve | Deflect
    | Target | DvOf | At | MakeCmd | PlanOf | Corpus

  function PrimOf(name: Sym): Option<Prim> {
    match name
    case "add" => Some(Add)
    case "sub" => Some(Sub)
    case "mul" => Some(Mul)
    case "div" => Some(Div)
    case "eq" => Some(Eq)
    case "le" => Some(Le)
    case "lt" => Some(Lt)
    case "not" => Some(Not)
    case "dist" => Some(Dist)
    case "mass" => Some(Mass)
    case "genus" => Some(GenusOf)
    case "outgassing" => Some(Outgassing)
    case "safe" => Some(Safe)
    case "solve" => Some(Solve)
    case "deflect" => Some(Deflect)
    case "target" => Some(Target)
    case "dv_of" => Some(DvOf)
    case "at" => Some(At)
    case "cmd" => Some(MakeCmd)
    case "plan_of" => Some(PlanOf)
    case "corpus" => Some(Corpus)
    case _ => None
  }

  function ArityOf(p: Prim): nat {
    match p
    case Add | Sub | Mul | Div | Eq | Le | Lt | Safe | Solve => 2
    case Not | Dist | Mass | GenusOf | Outgassing | Deflect | Target | DvOf | At | PlanOf => 1
    case MakeCmd => 3
    case Corpus => 4
  }

  /** `arity(name).unwrap_or(0)`. */
  function Want(name: Sym): nat {
    match PrimOf(name)
    case Some(p) => ArityOf(p)
    case None => 0
  }

  /** A builtin with no arguments applied yet. */
  function ValueOf(name: Sym): Option<Value> {
    if PrimOf(name).Some? then Some(Builtin(name, [])) else None
  }

  datatype Result<T> = Ok(value: T) | Err(d: Dissonance)
  {
    predicate IsFailure() { Err? }
    function PropagateFailure<U>(): Result<U> requires Err? { Err(d) }
    function Extract(): T requires Ok? { value }
  }

  /** A value, or a request to apply a function and finish with the Δv step. */
  datatype Called = Done(v: Value) | ApplyThen(f: Value, arg: Value) | Fail(d: Dissonance)

  function Lower(r: Result<Value>): Called {
    match r
    case Ok(v) => Done(v)
    case Err(d) => Fail(d)
  }

  function NumOf(v: Value): Result<Scalar> {
    if v.Num? then Ok(v.num) else Err(Dissonant(NumH, v.Ty()))
  }

  function RecordGet(v: Value, key: Sym): Result<Value> {
    if !v.Record? then Err(Dissonant(RecordH, v.Ty()))
    else if key in v.entries then Ok(v.entries[key])
    else Err(UnboundVar(key))
  }

  function FieldOf(v: Value): Result<Field> {
    if v.FieldV? then Ok(v.field) else Err(Dissonant(FieldH, v.Ty()))
  }

  function AlongX(ph: Physics, x: Scalar): Vec3 {
    Vec3(x, ph.zero, ph.zero)
  }

  function MakeCorpus(id: Scalar, genus: Sym, mass: Scalar, dist: Scalar): Value {
    Record(map["id" := Num(id), "genus" := Genus(genus), "mass" := Num(mass), "dist" := Num(dist)])
  }

  // --- equality as the `eq` builtin sees it: closures never compare equal ---

  predicate VecEq(ph: Physics, a: Vec3, b: Vec3) {
    ph.eq(a.x, b.x) && ph.eq(a.y, b.y) && ph.eq(a.z, b.z)
  }

  predicate CmdEq(ph: Physics, a: GravityCmd, b: GravityCmd) {
    a.target == b.target && VecEq(ph, a.dv, b.dv) && a.at == b.at
  }

  predicate PlanEq(ph: Physics, a: Plan, b: Plan) {
    |a| == |b| && forall i :: 0 <= i < |a| ==> CmdEq(ph, a[i], b[i])
  }

  predicate ValueEq(ph: Physics, a: Value, b: Value) {
    match (a, b)
    case (Unit, Unit) => true
    case (Num(x), Num(y)) => ph.eq(x, y)
    case (Bool(x), Bool(y)) => x == y
    case (Genus(x), Genus(y)) => x == y
    case (Str(x), Str(y)) => x == y
    case (CmdV(x), CmdV(y)) => CmdEq(ph, x, y)
    case (PlanV(x), PlanV(y)) => PlanEq(ph, x, y)
    case (FieldV(x), FieldV(y)) => x.target == y.target && VecEq(ph, x.dv, y.dv) && x.at == y.at
    case (Record(x), Record(y)) =>
      x.Keys == y.Keys && forall k :: k in x.Keys ==> ValueEq(ph, x[k], y[k])
    case _ => false
  }

  // --- calls ---

  function Arith(op: (Scalar, Scalar) -> Scalar, a: Value, b: Value): Result<Value> {
    var x :- NumOf(a);
    var y :- NumOf(b);
    Ok(Num(op(x, y)))
  }

  function Compare(op: (Scalar, Scalar) -> bool, a: Value, b: Value): Result<Value> {
    var x :- NumOf(a);
    var y :- NumOf(b);
    Ok(Bool(op(x, y)))
  }

  function IsSafe(ph: Physics, body: Value, g: Value): Result<Value> {
    var mv :- RecordGet(body, "mass");
    var m :- NumOf(mv);
    var dv :- RecordGet(body, "dist");
    var d :- NumOf(dv);
    var gn :- NumOf(g);
    Ok(Bool(ph.lt(ph.div(ph.mul(gn, m), ph.mul(d, d)), ph.safeForce)))
  }

  function CallCmd(ph: Physics, t: Value, dv: Value, at: Value): Result<Value> {
    var tn :- NumOf(t);
    var d :- NumOf(dv);
    var an :- NumOf(at);
    Ok(CmdV(GravityCmd(ph.toNat(tn), AlongX(ph, d), ph.toNat(an))))
  }

  function CallCorpus(ph: Physics, id: Value, genus: Value, mass: Value, dist: Value): Result<Value> {
    var i :- NumOf(id);
    var g :- if genus.Genus? then Ok(genus.genus)
             else if genus.Str? then Ok(genus.str)
             else Err(Dissonant(GenusH, genus.Ty()));
    var m :- NumOf(mass);
    var d :- NumOf(dist);
    Ok(MakeCorpus(ph.ofNat(ph.toNat(i)), g, m, d))
  }

  function CallField(f: Value, project: Field -> Value): Result<Value> {
    var fl :- FieldOf(f);
    Ok(project(fl))
  }

  function CallDeflect(ph: Physics, a: Value): Result<Value> {
    var x :- NumOf(a);
    Ok(FieldV(Field(1, AlongX(ph, x), 0)))
  }

  /** Only `solve` asks for an application, of its first argument; no call throws. */
  function Call(ph: Physics, p: Prim, args: seq<Value>): (r: Called)
    requires |args| >= ArityOf(p)
    ensures r.ApplyThen? <==> p.Solve?
    ensures r.ApplyThen? ==> r.f == args[0] && r.arg == args[1]
    ensures r.Fail? ==> !r.d.User? && !r.d.WrongMode?
  {
    match p
    case Add => Lower(Arith(ph.add, args[0], args[1]))
    case Sub => Lower(Arith(ph.sub, args[0], args[1]))
    case Mul => Lower(Arith(ph.mul, args[0], args[1]))
    case Div => Lower(Arith(ph.div, args[0], args[1]))
    case Eq => Done(Bool(ValueEq(ph, args[0], args[1])))
    case Le => Lower(Compare(ph.le, args[0], args[1]))
    case Lt => Lower(Compare(ph.lt, args[0], args[1]))
    case Not => if args[0].Bool? then Done(Bool(!args[0].b)) else Fail(Dissonant(BoolH, args[0].Ty()))
    case Dist => Lower(RecordGet(args[0], "dist"))
    case Mass => Lower(RecordGet(args[0], "mass"))
    case GenusOf => Lower(RecordGet(args[0], "genus"))
    case Outgassing =>
      (match RecordGet(args[0], "outgassing")
       case Ok(v) => Done(v)
       case Err(_) => Done(Num(ph.vent)))
    case Safe => Lower(IsSafe(ph, args[0], args[1]))
    case Solve => ApplyThen(args[0], args[1])
    case Deflect => Lower(CallDeflect(ph, args[0]))
    case Target => Lower(CallField(args[0], (f: Field) => Num(ph.ofNat(f.target))))
    case DvOf => Lower(CallField(args[0], (f: Field) => Num(f.dv.x)))
    case At => Lower(CallField(args[0], (f: Field) => Num(ph.ofNat(f.at))))
    case MakeCmd => Lower(CallCmd(ph, args[0], args[1], args[2]))
    case PlanOf => Lower(CallField(args[0], (f: Field) => PlanV([GravityCmd(f.target, f.dv, f.at)])))
    case Corpus => Lower(CallCorpus(ph, args[0], args[1], args[2], args[3]))
  }

  /** Finish `solve`: the closure returned the force, turn it into a Δv. */
  function ApplyPost(ph: Physics, v: Value): Result<Value> {
    if v.Num? then Ok(Num(ph.mul(v.num, ph.solveK))) else Err(Dissonant(NumH, v.Ty()))
  }

  // --- what the table promises ---

  predicate HasNum(v: Value, key: Sym) {
    v.Record? && key in v.entries && v.entries[key].Num?
  }

  predicate AreNums(vs: seq<Value>, n: nat)
    requires n <= |vs|
  {
    forall i :: 0 <= i < n ==> vs[i].Num?
  }

  /** The arguments a builtin takes. */
  predicate Takes(p: Prim, args: seq<Value>)
    requires |args| >= ArityOf(p)
  {
    match p
    case Add | Sub | Mul | Div | Le | Lt | Deflect | MakeCmd => AreNums(args, ArityOf(p))
    case Eq | Solve | Outgassing => true
    case Not => args[0].Bool?
    case Dist => args[0].Record? && "dist" in args[0].entries
    case Mass => args[0].Record? && "mass" in args[0].entries
    case GenusOf => args[0].Record? && "genus" in args[0].entries
    case Safe => HasNum(args[0], "mass") && HasNum(args[0], "dist") && args[1].Num?
    case Target | DvOf | At | PlanOf => args[0].FieldV?
    case Corpus => (args[1].Genus? || args[1].Str?) && args[0].Num? && args[2].Num? && args[3].Num?
  }

  /** The kind of value a builtin gives; a record's field may hold any. */
  function Gives(p: Prim): TyHint {
    match p
    case Add | Sub | Mul | Div | Solve | Target | DvOf | At => NumH
    case Eq | Le | Lt | Not | Safe => BoolH
    case Deflect => FieldH
    case MakeCmd => CmdH
    case PlanOf => PlanH
    case Corpus => RecordH
    case Dist | Mass | GenusOf | Outgassing => AnyH
  }

  /** A call fails exactly on arguments the builtin does not take, and otherwise gives its kind. */
  lemma CallsExactly(ph: Physics, p: Prim, args: seq<Value>)
    requires |args| >= ArityOf(p)
    ensures Call(ph, p, args).Fail? <==> !Takes(p, args)
    ensures Call(ph, p, args).Done? ==> Gives(p) == AnyH || Call(ph, p, args).v.Ty() == Gives(p)
  {
    hide ValueEq;
    if p.MakeCmd? && !Takes(p, args) {
      var i :| 0 <= i < 3 && !args[i].Num?;
      assert i == 0 || i == 1 || i == 2;
    }
  }

  /** A call by name. */
  function Named(ph: Physics, name: Sym, args: seq<Value>): Option<Called>
    requires |args| >= Want(name)
  {
    match PrimOf(name)
    case Some(p) => Some(Call(ph, p, args))
    case None => None
  }

  /** Each name of an operation on numbers and truths is that operation, its arguments in order. */
  lemma NamesCompute(ph: Physics, x: Scalar, y: Scalar, b: bool)
    ensures Named(ph, "add", [Num(x), Num(y)]) == Some(Done(Num(ph.add(x, y))))
    ensures Named(ph, "sub", [Num(x), Num(y)]) == Some(Done(Num(ph.sub(x, y))))
    ensures Named(ph, "mul", [Num(x), Num(y)]) == Some(Done(Num(ph.mul(x, y))))
    ensures Named(ph, "div", [Num(x), Num(y)]) == Some(Done(Num(ph.div(x, y))))
    ensures Named(ph, "le", [Num(x), Num(y)]) == Some(Done(Bool(ph.le(x, y))))
    ensures Named(ph, "lt", [Num(x), Num(y)]) == Some(Done(Bool(ph.lt(x, y))))
    ensures Named(ph, "eq", [Num(x), Num(y)]) == Some(Done(Bool(ph.eq(x, y))))
    ensures Named(ph, "not", [Bool(b)]) == Some(Done(Bool(!b)))
    ensures ApplyPost(ph, Num(x)) == Ok(Num(ph.mul(x, ph.solveK)))
  {
    hide IsSafe, CallCmd, CallCorpus, CallField, CallDeflect, RecordGet;
  }

  /** An operation on numbers blames its first argument that is none. */
  lemma BlamesFirst(ph: Physics, p: Prim, a: Value, b: Value)
    requires p in {Add, Sub, Mul, Div, Le, Lt}
    ensures !a.Num? ==> Call(ph, p, [a, b]) == Fail(Dissonant(NumH, a.Ty()))
    ensures a.Num? && !b.Num? ==> Call(ph, p, [a, b]) == Fail(Dissonant(NumH, b.Ty()))
  {
    hide IsSafe, CallCmd, CallCorpus, CallField, CallDeflect, RecordGet, ValueEq;
  }

  /** What is read of a value that is no record is blamed on it, and a field it lacks on the field;
      but a body without a venting rate has the default. */
  lemma BlamesField(ph: Physics, v: Value)
    ensures forall p, key :: (p, key) in {(Dist, "dist"), (Mass, "mass"), (GenusOf, "genus")} ==>
              Call(ph, p, [v]) == if !v.Record? then Fail(Dissonant(RecordH, v.Ty()))
                                  else if key in v.entries then Done(v.entries[key])
                                  else Fail(UnboundVar(key))
    ensures Call(ph, Outgassing, [v])
         == Done(if v.Record? && "outgassing" in v.entries then v.entries["outgassing"] else Num(ph.vent))
  {
    hide IsSafe, CallCmd, CallCorpus, CallField, CallDeflect, ValueEq, Arith, Compare;
  }

  /** And of a body, the force on it under a constant `g` decides whether it is safe. */
  lemma SafeComputes(ph: Physics, g: Scalar, id: Scalar, genus: Sym, mass: Scalar, dist: Scalar)
    ensures Named(ph, "safe", [MakeCorpus(id, genus, mass, dist), Num(g)])
         == Some(Done(Bool(ph.lt(ph.div(ph.mul(g, mass), ph.mul(dist, dist)), ph.safeForce))))
    ensures Named(ph, "dist", [MakeCorpus(id, genus, mass, dist)]) == Some(Done(Num(dist)))
    ensures Named(ph, "mass", [MakeCorpus(id, genus, mass, dist)]) == Some(Done(Num(mass)))
    ensures Named(ph, "genus", [MakeCorpus(id, genus, mass, dist)]) == Some(Done(Genus(genus)))
  {
    hide ValueEq, CallCmd, CallCorpus, CallField, CallDeflect, Arith, Compare;
  }

  /** What a body was built of is read back from it: `id` through a counter, the rest as it was given. */
  lemma CorpusReadsBack(ph: Physics, id: Scalar, genus: Value, mass: Scalar, dist: Scalar)
    requires genus.Genus? || genus.Str?
    ensures var made := Call(ph, Corpus, [Num(id), genus, Num(mass), Num(dist)]);
            && made.Done?
            && Call(ph, Dist, [made.v]) == Done(Num(dist)) && Call(ph, Mass, [made.v]) == Done(Num(mass))
            && Call(ph, GenusOf, [made.v]) == Done(Genus(if genus.Genus? then genus.genus else genus.str))
            && Call(ph, Outgassing, [made.v]) == Done(Num(ph.vent))
            && made.v.entries.Keys == {"id", "genus", "mass", "dist"}
            && made.v.entries["id"] == Num(ph.ofNat(ph.toNat(id)))
  {
    hide ValueEq, IsSafe, CallCmd, CallField, CallDeflect, Arith, Compare;
    var made := MakeCorpus(ph.ofNat(ph.toNat(id)), if genus.Genus? then genus.genus else genus.str, mass, dist);
    assert Call(ph, Corpus, [Num(id), genus, Num(mass), Num(dist)]) == Done(made);
  }

  /** A deflection read back field by field and made into a command is the one command of its plan,
      when counters survive being numbers. */
  lemma PlanOfDeflection(ph: Physics, x: Scalar)
    requires forall n :: ph.toNat(ph.ofNat(n)) == n
    ensures var d := Call(ph, Deflect, [Num(x)]);
            && d.Done? && d.v.FieldV? && d.v.field.dv == Vec3(x, ph.zero, ph.zero)
            && var t, v, a := Call(ph, Target, [d.v]), Call(ph, DvOf, [d.v]), Call(ph, At, [d.v]);
            && t == Done(Num(ph.ofNat(1))) && v == Done(Num(x)) && a == Done(Num(ph.ofNat(0)))
            && var c := Call(ph, MakeCmd, [t.v, v.v, a.v]);
            && c.Done? && c.v.CmdV? && Call(ph, PlanOf, [d.v]) == Done(PlanV([c.v.cmd]))
  {
    hide ValueEq, IsSafe, Arith, Compare, CallCorpus, RecordGet;
  }

  /** No function anywhere inside. */
  predicate IsData(v: Value) {
    match v
    case Closure(_, _, _) => false
    case Builtin(_, _) => false
    case Record(es) => forall k :: k in es.Keys ==> IsData(es[k])
    case _ => true
  }

  /** Numbers equal as numbers are equal in all. */
  ghost predicate ByBits(ph: Physics) {
    forall x, y :: ph.eq(x, y) <==> x == y
  }

  lemma PlansAlike(ph: Physics, a: Plan, b: Plan)
    requires ByBits(ph)
    ensures PlanEq(ph, a, b) <==> a == b
  {
    if PlanEq(ph, a, b) {
      forall i | 0 <= i < |a| ensures a[i] == b[i] { assert CmdEq(ph, a[i], b[i]); }
    }
  }

  /** `eq` is equality on data, where equality of numbers is. */
  lemma {:induction false} EqIsEquality(ph: Physics, a: Value, b: Value)
    requires ByBits(ph)
    ensures ValueEq(ph, a, b) <==> a == b && IsData(a)
  {
    hide PlanEq;
    if a.PlanV? && b.PlanV? { PlansAlike(ph, a.plan, b.plan); }
    if a.Record? && b.Record? && a.entries.Keys == b.entries.Keys {
      hide ValueEq, IsData, ByBits;
      forall k | k in a.entries.Keys
        ensures ValueEq(ph, a.entries[k], b.entries[k]) <==> a.entries[k] == b.entries[k] && IsData(a.entries[k])
      {
        EqIsEquality(ph, a.entries[k], b.entries[k]);
      }
      RecordsAlike(ph, a, b);
    }
  }

  lemma RecordsAlike(ph: Physics, a: Value, b: Value)
    requires a.Record? && b.Record? && a.entries.Keys == b.entries.Keys
    requires forall k :: k in a.entries.Keys ==>
               (ValueEq(ph, a.entries[k], b.entries[k]) <==> a.entries[k] == b.entries[k] && IsData(a.entries[k]))
    ensures ValueEq(ph, a, b) <==> a == b && IsData(a)
  {
    if forall k :: k in a.entries.Keys ==> a.entries[k] == b.entries[k] { assert a.entries == b.entries; }
  }

  ghost predicate Symmetric(ph: Physics) {
    forall x, y :: ph.eq(x, y) == ph.eq(y, x)
  }

  ghost predicate Reflexive(ph: Physics) {
    forall x :: ph.eq(x, x)
  }

  lemma PlansMirror(ph: Physics, a: Plan, b: Plan)
    requires Symmetric(ph)
    ensures PlanEq(ph, a, b) == PlanEq(ph, b, a)
    ensures Reflexive(ph) ==> PlanEq(ph, a, a)
  {
  }

  /** `eq` is symmetric if it is so on numbers; it finds a value equal to itself exactly if the value
      holds no function, when every number equals itself. */
  lemma {:induction false} EqOfData(ph: Physics, a: Value, b: Value)
    requires Symmetric(ph)
    ensures ValueEq(ph, a, b) == ValueEq(ph, b, a)
    ensures ValueEq(ph, a, b) ==> IsData(a) && IsData(b)
    ensures a == b && Reflexive(ph) ==> (ValueEq(ph, a, b) <==> IsData(a))
  {
    hide PlanEq;
    if a.PlanV? && b.PlanV? { PlansMirror(ph, a.plan, b.plan); }
    if a.Record? && b.Record? && a.entries.Keys == b.entries.Keys {
      hide ValueEq, IsData, Symmetric, Reflexive;
      forall k | k in a.entries.Keys
        ensures ValueEq(ph, a.entries[k], b.entries[k]) == ValueEq(ph, b.entries[k], a.entries[k])
        ensures ValueEq(ph, a.entries[k], b.entries[k]) ==> IsData(a.entries[k]) && IsData(b.entries[k])
        ensures a == b && Reflexive(ph) ==> (ValueEq(ph, a.entries[k], b.entries[k]) <==> IsData(a.entries[k]))
      {
        EqOfData(ph, a.entries[k], b.entries[k]);
      }
    }
  }
}
