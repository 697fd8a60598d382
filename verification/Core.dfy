/** The data of the Officium core: modes and their towers, values, scopes, and the
    intermediate representation that every surface lowers to. */
module Core {
  type Sym = string

  datatype Option<+T> = None | Some(value: T)

  // --- the eight modes and the effect layers they run in ---

  datatype Final = Re | Mi | Fa | Sol

  datatype LayerKind = MaybeK | ExceptK | StateK | WriterK | CommitK

  datatype OpKind = OpNihil | OpClama | OpRecipe | OpLege | OpPone | OpMitte | OpPerage | OpLift

  datatype Mode =
    | Dorian | Hypodorian | Phrygian | Hypophrygian
    | Lydian | Hypolydian | Mixolydian | Hypomixolydian
  {
    function FinalOf(): Final {
      match this
      case Dorian | Hypodorian => Re
      case Phrygian | Hypophrygian => Mi
      case Lydian | Hypolydian => Fa
      case Mixolydian | Hypomixolydian => Sol
    }

    predicate IsPlagal() {
      Hypodorian? || Hypophrygian? || Hypolydian? || Hypomixolydian?
    }

    /** The monad stack of the mode, top layer first. */
    function Tower(): seq<LayerKind> {
      match this
      case Dorian => [MaybeK]
      case Hypodorian => [MaybeK, MaybeK]
      case Phrygian => [ExceptK]
      case Hypophrygian => [ExceptK, ExceptK]
      case Lydian => [StateK]
      case Hypolydian => [StateK, StateK]
      case Mixolydian => [CommitK]
      case Hypomixolydian => [WriterK]
    }

    predicate Allows(op: OpKind) {
      match op
      case OpNihil => MaybeK in Tower()
      case OpClama | OpRecipe => ExceptK in Tower()
      case OpLege | OpPone => StateK in Tower()
      case OpMitte => WriterK in Tower()
      case OpPerage => CommitK in Tower()
      case OpLift => |Tower()| > 1
    }
  }

  function FromFinal(f: Final, plagal: bool): Mode {
    match f
    case Re => if plagal then Hypodorian else Dorian
    case Mi => if plagal then Hypophrygian else Phrygian
    case Fa => if plagal then Hypolydian else Lydian
    case Sol => if plagal then Hypomixolydian else Mixolydian
  }

  /** The mode a lifted body is checked in. */
  function Base(m: Mode): Mode {
    FromFinal(m.FinalOf(), false)
  }

  // --- scalars and plans ---

  /** A 64-bit float, known only by its bits: the arithmetic on it is a parameter. */
  datatype Scalar = F64(bits: int)

  datatype Vec3 = Vec3(x: Scalar, y: Scalar, z: Scalar)

  datatype GravityCmd = GravityCmd(target: nat, dv: Vec3, at: nat)

  type Plan = seq<GravityCmd>

  /** A computed deflection: pure data, not yet a plan. */
  datatype Field = Field(target: nat, dv: Vec3, at: nat)

  // --- values, scopes, expressions ---

  datatype Value =
    | Unit
    | Num(num: Scalar)
    | Bool(b: bool)
    | Genus(genus: Sym)
    | Str(str: string)
    | Closure(param: Sym, body: Expr, env: Scope)
    | Builtin(name: Sym, args: seq<Value>)
    | CmdV(cmd: GravityCmd)
    | PlanV(plan: Plan)
    | FieldV(field: Field)
    | Record(entries: map<Sym, Value>)
  {
    /** The tag that diagnostics print. */
    function Ty(): TyHint {
      match this
      case Unit => UnitH
      case Num(_) => NumH
      case Bool(_) => BoolH
      case Genus(_) => GenusH
      case Str(_) => StrH
      case Closure(_, _, _) => ClosureH
      case Builtin(_, _) => BuiltinH
      case CmdV(_) => CmdH
      case PlanV(_) => PlanH
      case FieldV(_) => FieldH
      case Record(_) => RecordH
    }
  }

  datatype TyHint =
    | UnitH | NumH | BoolH | GenusH | StrH | ClosureH | BuiltinH | CmdH | PlanH | FieldH | RecordH | AnyH

  /** Lexical scope: a persistent list, newest binding first. */
  datatype Scope = Empty | Node(name: Sym, value: Value, next: Scope)
  {
    function Bind(x: Sym, v: Value): Scope {
      Node(x, v, this)
    }

    function Lookup(x: Sym): Option<Value> {
      if Empty? then None
      else if name == x then Some(value)
      else next.Lookup(x)
    }

    method Find(x: Sym) returns (r: Option<Value>)
      ensures r == Lookup(x)
    {
      var cur := this;
      while cur.Node?
        invariant cur.Lookup(x) == Lookup(x)
        decreases cur
      {
        if cur.name == x {
          return Some(cur.value);
        }
        cur := cur.next;
      }
      r := None;
    }
  }

  datatype Expr =
    | Var(x: Sym)
    | Lam(x: Sym, body: Expr)
    | App(f: Expr, a: Expr)
    | Lit(v: Value)
    | If(c: Expr, t: Expr, e: Expr)
    | Fix(f: Expr)
    | Pure(mode: Mode, m: Expr)
    | Return(mode: Mode, m: Expr)
    | Bind(mode: Mode, m: Expr, x: Sym, k: Expr)
    | Arg
    | Ask(x: Sym)
    | Resolve(x: Sym, g: Expr)
    | Nihil
    | Clama(m: Expr)
    | Recipe(m: Expr, x: Sym, h: Expr)
    | Lege
    | Pone(m: Expr)
    | Mitte(m: Expr)
    | Perage(m: Expr)
    | Lift(m: Expr)

  datatype Dissonance =
    | WrongMode(mode: Mode, op: OpKind)
    | Unresolved(name: Sym, genus: Sym)
    | Silent
    | User(v: Value)
    | Dissonant(want: TyHint, got: TyHint)
    | Premature
    | Unconsecrated
    | UnboundVar(name: Sym)

  // --- the environment compiled from the fugues ---

  datatype Pedal = Pedal(name: Sym, value: Value)

  datatype Overload = Overload(name: Sym, genus: Sym, body: Expr)

  datatype Subject = Subject(name: Sym, param: Sym, body: Expr)

  datatype Fugue = Fugue(pedals: seq<Pedal>, answers: seq<Overload>, tonals: seq<Overload>, contra: seq<Expr>,
                         subject: Option<Subject>)

  /** Floating-point arithmetic and the constants of the mock physics. */
  datatype Physics = Physics(
    add: (Scalar, Scalar) -> Scalar, sub: (Scalar, Scalar) -> Scalar,
    mul: (Scalar, Scalar) -> Scalar, div: (Scalar, Scalar) -> Scalar,
    eq: (Scalar, Scalar) -> bool, le: (Scalar, Scalar) -> bool, lt: (Scalar, Scalar) -> bool,
    ofNat: nat -> Scalar, toNat: Scalar -> nat,
    zero: Scalar, vent: Scalar, safeForce: Scalar, solveK: Scalar)

  datatype Env = Env(pedals: seq<Pedal>, answers: seq<Overload>, tonals: seq<Overload>, contra: seq<Expr>,
                     subjects: seq<Subject>, phys: Physics)

  function FindPedal(ps: seq<Pedal>, x: Sym): Option<Value> {
    if ps == [] then None
    else if ps[0].name == x then Some(ps[0].value)
    else FindPedal(ps[1..], x)
  }

  function FindOverload(os: seq<Overload>, x: Sym, g: Sym): Option<Expr> {
    if os == [] then None
    else if os[0].name == x && os[0].genus == g then Some(os[0].body)
    else FindOverload(os[1..], x, g)
  }

  /** A real answer first, then a tonal one. */
  function ResolveIn(env: Env, x: Sym, g: Sym): Option<Expr> {
    match FindOverload(env.answers, x, g)
    case Some(e) => Some(e)
    case None => FindOverload(env.tonals, x, g)
  }

  /** The first overload of the name and genus in a list. */
  predicate FirstOf(os: seq<Overload>, x: Sym, g: Sym, i: nat) {
    && i < |os| && os[i].name == x && os[i].genus == g
    && forall j :: 0 <= j < i ==> !(os[j].name == x && os[j].genus == g)
  }

  lemma {:induction false} FindsFirst(os: seq<Overload>, x: Sym, g: Sym)
    ensures match FindOverload(os, x, g)
            case Some(e) => exists i: nat :: FirstOf(os, x, g, i) && os[i].body == e
            case None => forall i :: 0 <= i < |os| ==> !(os[i].name == x && os[i].genus == g)
  {
    if os != [] {
      FindsFirst(os[1..], x, g);
      if os[0].name == x && os[0].genus == g {
        assert FirstOf(os, x, g, 0);
      } else if FindOverload(os[1..], x, g).Some? {
        var i: nat :| FirstOf(os[1..], x, g, i) && os[1..][i].body == FindOverload(os[1..], x, g).value;
        assert FirstOf(os, x, g, i + 1) by {
          forall j | 0 <= j < i + 1 ensures !(os[j].name == x && os[j].genus == g) { if j > 0 { assert os[1..][j - 1] == os[j]; } }
        }
      } else {
        forall i | 0 <= i < |os| ensures !(os[i].name == x && os[i].genus == g) { if i > 0 { assert os[1..][i - 1] == os[i]; } }
      }
    }
  }

  /** A real answer is preferred: the first of the name and genus, and only if there is none the first
      tonal one. */
  lemma RealBeforeTonal(env: Env, x: Sym, g: Sym)
    ensures match ResolveIn(env, x, g)
            case Some(e) =>
              || (exists i: nat :: FirstOf(env.answers, x, g, i) && env.answers[i].body == e)
              || ((forall i :: 0 <= i < |env.answers| ==> !(env.answers[i].name == x && env.answers[i].genus == g))
                  && exists i: nat :: FirstOf(env.tonals, x, g, i) && env.tonals[i].body == e)
            case None =>
              && (forall i :: 0 <= i < |env.answers| ==> !(env.answers[i].name == x && env.answers[i].genus == g))
              && (forall i :: 0 <= i < |env.tonals| ==> !(env.tonals[i].name == x && env.tonals[i].genus == g))
  {
    FindsFirst(env.answers, x, g);
    FindsFirst(env.tonals, x, g);
  }

  method FromFugues(fugues: seq<Fugue>, phys: Physics) returns (env: Env)
    ensures env == EnvOf(fugues, phys)
  {
    env := Env([], [], [], [], [], phys);
    for i := 0 to |fugues|
      invariant env == EnvOf(fugues[..i], phys)
    {
      var f := fugues[i];
      EnvOfSnoc(fugues[..i], f, phys);
      assert fugues[..i] + [f] == fugues[..i + 1];
      env := env.(pedals := env.pedals + f.pedals, answers := env.answers + f.answers, tonals := env.tonals + f.tonals,
                  contra := env.contra + f.contra);
      if f.subject.Some? { env := env.(subjects := env.subjects + [f.subject.value]); }
    }
    assert fugues[..|fugues|] == fugues;
  }

  function SubjectOf(f: Fugue): seq<Subject> {
    if f.subject.Some? then [f.subject.value] else []
  }

  function EnvOf(fugues: seq<Fugue>, phys: Physics): Env {
    if fugues == [] then Env([], [], [], [], [], phys)
    else
      var f, rest := fugues[0], EnvOf(fugues[1..], phys);
      Env(f.pedals + rest.pedals, f.answers + rest.answers, f.tonals + rest.tonals, f.contra + rest.contra,
          SubjectOf(f) + rest.subjects, phys)
  }

  lemma {:induction false} EnvOfSnoc(fs: seq<Fugue>, f: Fugue, phys: Physics)
    ensures var e := EnvOf(fs, phys);
            EnvOf(fs + [f], phys) == Env(e.pedals + f.pedals, e.answers + f.answers, e.tonals + f.tonals,
                                         e.contra + f.contra, e.subjects + SubjectOf(f), phys)
  {
    if fs == [] {
      assert fs + [f] == [f];
      assert EnvOf([f][1..], phys) == Env([], [], [], [], [], phys);
      Alone(f.pedals);
      Alone(f.answers);
      Alone(f.tonals);
      Alone(f.contra);
      Alone(SubjectOf(f));
    } else {
      EnvOfSnoc(fs[1..], f, phys);
      assert (fs + [f])[1..] == fs[1..] + [f];
      var g, r := fs[0], EnvOf(fs[1..], phys);
      Regroup(g.pedals, r.pedals, f.pedals);
      Regroup(g.answers, r.answers, f.answers);
      Regroup(g.tonals, r.tonals, f.tonals);
      Regroup(g.contra, r.contra, f.contra);
      Regroup(SubjectOf(g), r.subjects, SubjectOf(f));
    }
  }

  /** Every fugue's share stands whole in the environment, between those of the fugues around it. */
  lemma {:induction false} EnvOfJoin(a: seq<Fugue>, b: seq<Fugue>, phys: Physics)
    ensures var p, q, r := EnvOf(a, phys), EnvOf(b, phys), EnvOf(a + b, phys);
            && r.pedals == p.pedals + q.pedals && r.answers == p.answers + q.answers && r.tonals == p.tonals + q.tonals
            && r.contra == p.contra + q.contra && r.subjects == p.subjects + q.subjects
    decreases |a|
  {
    var q := EnvOf(b, phys);
    if a == [] {
      assert a + b == b;
      Alone(q.pedals);
      Alone(q.answers);
      Alone(q.tonals);
      Alone(q.contra);
      Alone(q.subjects);
    } else {
      hide SubjectOf;
      assert (a + b)[0] == a[0] && (a + b)[1..] == a[1..] + b;
      EnvOfJoin(a[1..], b, phys);
      var f, p := a[0], EnvOf(a[1..], phys);
      Regroup(f.pedals, p.pedals, q.pedals);
      Regroup(f.answers, p.answers, q.answers);
      Regroup(f.tonals, p.tonals, q.tonals);
      Regroup(f.contra, p.contra, q.contra);
      Regroup(SubjectOf(f), p.subjects, q.subjects);
    }
  }

  lemma EnvOfOne(f: Fugue, phys: Physics)
    ensures EnvOf([f], phys) == Env(f.pedals, f.answers, f.tonals, f.contra, SubjectOf(f), phys)
  {
    EnvOfSnoc([], f, phys);
    assert [] + [f] == [f];
  }

  lemma Alone<T>(s: seq<T>)
    ensures s + [] == s == [] + s
  {
  }

  lemma Regroup<T>(a: seq<T>, b: seq<T>, c: seq<T>)
    ensures a + (b + c) == a + b + c
  {
  }
}
