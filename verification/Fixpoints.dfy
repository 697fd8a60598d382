/** The typing that asks every fixpoint to be of functions, beside the one that does not. */
module Fixpoints {
  import opened Core
  import opened Unification
  import opened Inference
  import opened Typing
  import opened Syntax

  /** The same types, with other extras. */
  predicate SameTypes(w: World, w': World) {
    w'.fugues == w.fugues && w'.arg == w.arg && w'.state == w.state && w'.throw == w.throw && w'.result == w.result
  }

  /** What `w` types `w'` types too: unless it asks more, and there are fixpoints to ask it of. */
  predicate Carries(w: World, w': World, e: Expr) {
    SameTypes(w, w') && (w'.tied ==> w.tied || (FixFree(e) && FixFreeProgram(w.fugues)))
  }

  lemma CarriesParts(w: World, w': World, e: Expr)
    requires Carries(w, w', e)
    ensures forall m :: m in Subs(e) ==> Carries(w, w', m)
  {
    hide Subs, FixFreeProgram;
  }

  /** The typing of a verse does not look at what no check looks at, and asks for functions only
      at fixpoints. */
  lemma {:induction false} Retied(w: World, w': World, lv: nat, mode: Mode, g: Gamma, e: Expr, t: Type)
    requires Carries(w, w', e) && HasType(w, lv, mode, g, e, t)
    ensures HasType(w', lv, mode, g, e, t)
    decreases lv, 0, e, 1
  {
    hide OpHasType, AnswersHave, Carries, Answers, NameHas;
    CarriesParts(w, w', e);
    SameNames(w, w', g, e, t);
    match e
    case Lit(_) | Var(_) | Arg | Ask(_) =>
    case Pure(_, m) => Retied(w, w', lv, mode, g, m, t);
    case Lift(m) => Retied(w, w', lv, Base(mode), g, m, t);
    case Lam(x, b) => Retied(w, w', lv, mode, g + [Entry(x, t.a)], b, t.r);
    case Fix(f) => Retied(w, w', lv, mode, g, f, Fun(t, t));
    case Return(_, m) => Retied(w, w', lv, mode, g, m, w.result);
    case App(_, _) | If(_, _, _) => BranchRetied(w, w', lv, mode, g, e, t);
    case Bind(_, _, _, _) | Resolve(_, _) => SequelRetied(w, w', lv, mode, g, e, t);
    case _ =>
      OpTyped(w, lv, mode, g, e, t);
      OpTyped(w', lv, mode, g, e, t);
      OpRetied(w, w', lv, mode, g, e, t);
  }

  lemma {:induction false} BranchRetied(w: World, w': World, lv: nat, mode: Mode, g: Gamma, e: Expr, t: Type)
    requires (e.App? || e.If?) && Carries(w, w', e) && HasType(w, lv, mode, g, e, t)
    ensures HasType(w', lv, mode, g, e, t)
    decreases lv, 0, e, 0
  {
    hide HasType, Carries;
    CarriesParts(w, w', e);
    if e.App? {
      var u := AppParts(w, lv, mode, g, e, t);
      Retied(w, w', lv, mode, g, e.f, Fun(u, t));
      Retied(w, w', lv, mode, g, e.a, u);
      AppWhole(w', lv, mode, g, e, t, u);
    } else {
      IfParts(w, lv, mode, g, e, t);
      Retied(w, w', lv, mode, g, e.c, TBool);
      Retied(w, w', lv, mode, g, e.t, t);
      Retied(w, w', lv, mode, g, e.e, t);
      IfParts(w', lv, mode, g, e, t);
    }
  }

  lemma {:induction false} SequelRetied(w: World, w': World, lv: nat, mode: Mode, g: Gamma, e: Expr, t: Type)
    requires (e.Bind? || e.Resolve?) && Carries(w, w', e) && HasType(w, lv, mode, g, e, t)
    ensures HasType(w', lv, mode, g, e, t)
    decreases lv, 0, e, 0
  {
    hide HasType, AnswersHave, Carries, Answers;
    CarriesParts(w, w', e);
    SameNames(w, w', g, e, t);
    if e.Bind? {
      var u := BindParts(w, lv, mode, g, e, t);
      Retied(w, w', lv, mode, g, e.m, u);
      Retied(w, w', lv, mode, g + [Entry(e.x, u)], e.k, t);
      BindWhole(w', lv, mode, g, e, t, u);
    } else {
      ResolveParts(w, lv, mode, g, e, t);
      Retied(w, w', lv, mode, g, e.g, TGenus);
      if Mentions(Answers(w.fugues), e.x) {
        AnswersCarried(w, w', e);
        AnswersRetied(w, w', lv - 1, mode, g, Answers(w.fugues), e.x, t);
      }
      ResolveParts(w', lv, mode, g, e, t);
    }
  }

  /** The world of the code's own check. */
  function Untied(w: World): World {
    w.(tied := false, dark := 0)
  }

  lemma SameNames(w: World, w': World, g: Gamma, e: Expr, t: Type)
    requires Carries(w, w', e)
    ensures SameTypes(w, w')
    ensures forall x :: NameHas(w, g, x, t) == NameHas(w', g, x, t)
    ensures e.Fix? ==> (w'.tied ==> w.tied)
  {
    hide FixFreeProgram;
  }

  lemma AnswersCarried(w: World, w': World, e: Expr)
    requires Carries(w, w', e)
    ensures forall i :: 0 <= i < |Answers(w.fugues)| ==> Carries(w, w', Answers(w.fugues)[i].body)
  {
    hide Answers, Subs;
  }

  lemma {:induction false} AnswersRetied(w: World, w': World, lv: nat, mode: Mode, g: Gamma, os: seq<Overload>,
          x: Sym, t: Type)
    requires forall i :: 0 <= i < |os| ==> Carries(w, w', os[i].body)
    requires AnswersHave(w, lv, mode, g, os, x, t)
    ensures AnswersHave(w', lv, mode, g, os, x, t)
    decreases lv, 1, |os|
  {
    hide HasType, Carries;
    if os != [] {
      if os[0].name == x { Retied(w, w', lv, mode, g, os[0].body, t); }
      AnswersRetied(w, w', lv, mode, g, os[1..], x, t);
    }
  }

  lemma {:induction false} OpRetied(w: World, w': World, lv: nat, mode: Mode, g: Gamma, e: Expr, t: Type)
    requires IsOp(e) && SameTypes(w, w') && forall m :: m in Subs(e) ==> Carries(w, w', m)
    requires OpHasType(w, lv, mode, g, e, t)
    ensures OpHasType(w', lv, mode, g, e, t)
    decreases lv, 0, e, 0
  {
    hide HasType, Carries;
    match e
    case Nihil | Lege =>
    case Clama(m) => Retied(w, w', lv, mode, g, m, w.throw);
    case Recipe(m, x, h) =>
      Retied(w, w', lv, mode, g, m, t);
      Retied(w, w', lv, mode, g + [Entry(x, w.throw)], h, t);
    case Pone(m) => Retied(w, w', lv, mode, g, m, w.state);
    case Mitte(m) => Retied(w, w', lv, mode, g, m, if HasType(w, lv, mode, g, m, TCmd) then TCmd else TPlan);
    case Perage(m) => Retied(w, w', lv, mode, g, m, TPlan);
  }
}
