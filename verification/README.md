# Officium and its kernel, verified

Officium is a small functional language whose scores are parsed from a plain or a sung form,
checked, run on an explicit-stack machine over a tower of effect layers, and rendered to and
transcribed from melodies. It runs inside a kernel with interrupt-driven sound, a cooperative
executor and a framebuffer console. This project models that code in Dafny and proves what it
promises.

The main results, by part:

- **Machine** (`Machine`, `Trampoline`, `Meaning`, `Adequacy`, `Budget`, `Invariant`, `Fuel`,
  `Erasure`, `Laws`, `Lifting`, `Harvest`). The machine is a step function on configurations; a class with
  the program's own fields and loops refines it. Independently, `Meaning` gives the language a
  recursive transformer semantics with no stack, no depth cursor and no unwinding, and
  `Adequacy.DenoteAgrees` proves that the machine computes it for every expression, scope,
  tower, depth, rest of the stack and budget. On top of it: the step invariant, throw and
  catch, slicing of fuel, the monad laws, the lift laws, the simulation of the base mode by
  a lifted run, and what a run hands back: a planner's verse exactly what it sent, in order.
- **Checker** (`Unification`, `Inference`, `Typing`, `Principal`, `Verses`, `Checker`, `Cycles`,
  `Closings`, `Levels`, `Syntax`, `TypedValues`, `Soundness`, `Assignment`, `Fixpoints`, `Accepted`,
  `Overtrust`, `ModeSafety`, `Legality`). Unification is exact and most general; inference is sound and complete
  for a declarative typing; the check ends exactly if no overload a verse reaches leads back to
  itself or inference meets a clash first; a plain verse has a typing exactly if it is accepted and
  no two deferred predicates ask different things of one unresolved variable; rhymes only narrow. An
  accepted verse does not go wrong at run time if that last condition holds, its fixpoints are of
  functions and it reads no cell that is neither of the state type nor written before, and it raises
  no mode error if its lifts stand where they find a layer; for each condition an accepted program
  that breaks it goes wrong. An op is refused for its mode exactly where the machine would break.
- **Surfaces** (`Lexing`, `Grammar`, `Printing`, `Guard`, `Signs`, `Complaints`, `Score`, `Liturgy`,
  `Descent`, `Degrees`, `Organ`, `Transcription`, `Phrases`, `Audition`, `Performance`). Lexing is
  the source line by line; printing and parsing undo each
  other for expressions and for bodies, and neither parser returns anything unprintable; the nesting
  guard is exact; stripping the sung form leaves the plain form; a transcribed phrase renders back
  to itself up to octave exactly when no note of it degrades; the mode of a rendered verse is
  recovered exactly when it is authentic or some line lies under the final; which phrases are taken,
  and the note the others are refused at, is exact; a transcript passes the checker exactly under
  a condition read off its notes. `Performance.ParsedVersesGoRight`
  joins parser, checker and machine, and `Performance.ParsedDataGoesRight` decides its conditions
  before the run.
- **Kernel** (`Wakeups`, `Executor`, `Ring`, `Synth`, `Screen`, `Terminal`, `Page`). In every interleaving no
  refill or scancode is lost, and the CPU never halts on work its task waits for; of the four
  designs with or without the second look of a poll and the emptiness test before the halt, only
  the code's own has that property. Every wake is answered before the halt; the refill mask is
  exact up to a condition on how late the handler is; synthesis is seamless and never clips, of
  a table that is a sine; the framebuffer is always the drawing of a character grid, which is a window
  on an unbounded page.

Floating-point numbers are opaque bits and their arithmetic a record of functions (`Physics`),
so every theorem holds for every such arithmetic. The bound `lv` on how deep overloads resolve
overloads, which `Inference` and the typing carry, is discharged in `Levels`. Where the
repository's comments and its code disagree the model follows the code; the cases found are listed
after the table.

Each class or method of the code's own form (`Trampoline.Continuation`, `Checker.Checker`,
`Descent.Parser`, `Organ.Scribe`, `Transcription.Transcriber`, `Executor.Executor`,
`Ring.Driver`, `Synth.Card`, `Terminal.Console`) is proved against the functions the lemmas are about.

## Model

| member | source | states |
|---|---|---|
| `Core.Scope.Find` | officium/crates/officium-core/src/types.rs:208-217 | the loop over the scope chain finds the newest binding of the name, or none |
| `Core.FromFugues` | officium/crates/officium-core/src/env.rs:79-92 | the environment is the pedals, answers, tonals, countersubjects and subjects of the fugues in order |
| `Core.EnvOfJoin` | officium/crates/officium-core/src/env.rs:79-92 | every fugue's share of each list stands whole, between those of the fugues around it |
| `Core.RealBeforeTonal` | officium/crates/officium-core/src/env.rs:112-131 | a name and genus resolve to the first real answer for them, and only if there is none to the first tonal one |
| `Builtins.CallsExactly` | officium/crates/officium-core/src/builtins.rs:94-174 | a call fails exactly on arguments its builtin does not take, and otherwise gives a value of its kind |
| `Builtins.NamesCompute` | officium/crates/officium-core/src/builtins.rs:94-107 | each name of an operation on numbers and truths is that operation, its arguments in order |
| `Builtins.BlamesFirst` | officium/crates/officium-core/src/builtins.rs:58-65 | an operation on numbers blames its first argument that is none |
| `Builtins.BlamesField` | officium/crates/officium-core/src/builtins.rs:67-76 | what is read of no record is blamed on the value, a field it lacks on the field, and a body without a venting rate has the default |
| `Builtins.SafeComputes` | officium/crates/officium-core/src/builtins.rs:109-123 | whether a body is safe is decided by the force on it, and its accessors read their own fields |
| `Builtins.CorpusReadsBack` | officium/crates/officium-core/src/builtins.rs:83-165 | a body built of four values gives its distance, mass and genus back as they were, and vents the default |
| `Builtins.PlanOfDeflection` | officium/crates/officium-core/src/builtins.rs:134-158 | a deflection read back field by field and made into a command is the one command of its plan |
| `Builtins.EqOfData` | officium/crates/officium-core/src/types.rs:260-276 | `eq` is as symmetric as it is on numbers, holds only between values free of functions, and finds each of those equal to itself |
| `Builtins.EqIsEquality` | officium/crates/officium-core/src/types.rs:260-276 | where equal numbers are identical, `eq` is equality on data and false on anything with a function in it |
| `Machine.FirstFrom` | officium/crates/officium-core/src/machine.rs:240-248 | an op binds to the topmost layer of its kind at or below a depth |
| `Legality.TowersByFinal` | officium/crates/officium-core/src/types.rs:97-109 | a base mode is its final's one layer, a plagal mode its base's layer twice, and the planner a writer alone |
| `Legality.OpsByFinal` | officium/crates/officium-core/src/types.rs:114-125 | the ops of a mode are those of its final's effect, and lift where there are two layers |
| `Legality.AllowedIsLegal` | officium/crates/officium-core/src/types.rs:114-125 | the checker allows an op in a mode exactly if a layer of the mode's tower, however seeded, provides it |
| `Legality.AllowedIsTaken` | officium/crates/officium-core/src/machine.rs:240-371 | and exactly if the machine, come to the op outside any lift, does not break there for the mode |
| `Adequacy.DenoteAgrees` | officium/crates/officium-core/src/machine.rs:149-371 | for every expression, scope, tower, depth, rest of the stack and budget the machine reaches exactly the value, throw, halt or abort of the recursive semantics, with stack and depth restored and the layers above untouched |
| `Adequacy.ApplyAgrees` | officium/crates/officium-core/src/machine.rs:497-520 | the same for applying any function value, builtins and their post step included |
| `Adequacy.RunIsMeaning` | officium/crates/officium-core/src/machine.rs:128-210 | a verse run ends, and ends so, exactly when its meaning is that |
| `Harvest.FinishReads` | officium/crates/officium-core/src/machine.rs:188-208 | the state and the plan handed back are those of the first layer of their kind, or unit and the empty plan |
| `Harvest.CadenceHandsBack` | officium/crates/officium-core/src/machine.rs:128-208 | so for every run that cadences, with its meaning's value and commit |
| `Harvest.PlanIsOutput` | officium/crates/officium-core/src/machine.rs:426-440 | what was sent before changes nothing in a run of the planner but the front of its plan |
| `Harvest.SpineSends` | officium/crates/officium-core/src/machine.rs:426-440 | a spine of sends of commands and plans sends exactly those commands, in order |
| `Harvest.VerseSends` | officium/crates/officium-core/src/machine.rs:128-208 | so a verse of them cadences with exactly that plan and commits nothing |
| `Harvest.ConsiliumSends` | officium/scores/meteor.off:26-30 | the reference score's planner makes of a deflection the plan of its one command |
| `Harvest.ExecutioCommits` | officium/scores/meteor.off:32-35 | its committing verse commits exactly the plan it is given, and refuses an empty one and what is no plan |
| `Harvest.DeflectionIsCommitted` | kernel/src/celebrare.rs:157-176 | run one after the other they commit that one command |
| `Budget.More` | officium/crates/officium-core/src/machine.rs:149-186 | a larger budget changes no finished meaning and is handed back unspent |
| `Budget.Determined` | officium/crates/officium-core/src/machine.rs:149-186 | finished results under any two budgets agree |
| `Invariant.StepKeepsInv` | officium/crates/officium-core/src/machine.rs:149-186 | every step keeps: layer kinds are the mode's tower, depth counts the lift frames and stays under the tower, every frame names a layer of its kind |
| `Invariant.RunsKeepInv` | officium/crates/officium-core/src/machine.rs:149-186 | the invariant holds after any number of steps, and no run panics |
| `Invariant.VersesNeverPanic` | officium/crates/officium-core/src/machine.rs:128-147 | no verse reaches an arm the code calls unreachable or an index out of a vector |
| `Invariant.LiftsSaveTheirDepth` | officium/crates/officium-core/src/machine.rs:359-368 | the lift frames save 0, 1, 2, … from the bottom of the stack |
| `Invariant.ThrowMeetsItsHandler` | officium/crates/officium-core/src/machine.rs:216-238 | a throw is caught by the innermost recipe of its channel, at the depth and scope that recipe was entered with |
| `Invariant.ThrowPassesOtherLayers` | officium/crates/officium-core/src/machine.rs:216-238 | without a recipe of its channel on the stack a throw passes every other one |
| `Trampoline.Continuation.Turn` | officium/crates/officium-core/src/machine.rs:149-186 | one turn of the in-place loop is one step of the step function, the thrown channel included |
| `Trampoline.Continuation.UnwindUser` | officium/crates/officium-core/src/machine.rs:216-238 | the popping loop finds what the recursive unwinding finds |
| `Trampoline.Continuation.Run` | officium/crates/officium-core/src/machine.rs:149-186 | the resume loop runs the step function for its fuel |
| `Trampoline.RunVerse` | officium/crates/officium-core/src/machine.rs:128-147 | the in-place machine started on a verse ends as the specification does |
| `Fuel.Split` | officium/crates/officium-core/src/machine.rs:149-186 | running with f1 and resuming with f2 is running with f1 + f2 |
| `Fuel.SlicesAgree` | officium/crates/officium-core/src/machine.rs:149-186 | any slicing of the same total agrees |
| `Fuel.ExtraFuelIsIdle` | officium/crates/officium-core/src/machine.rs:149-186 | a finished result is independent of extra fuel |
| `Fuel.RunFull` | kernel/src/celebrare.rs:181-203 | the slice loop is one run of FUEL_SLICE times MAX_SLICES steps, or gives up |
| `Fuel.EternalIsLow` | officium/crates/officium-core/src/machine.rs:471-483 | the eternal stretto stays within a fixed height of stack for every budget |
| `Fuel.EternalNeverCadences` | officium/crates/officium-core/src/machine.rs:471-483 | and never ends |
| `Erasure.Irrelevant` | officium/crates/officium-core/src/types.rs:199-217 | a binding that is not free in an expression, nor in an overload it may resolve, changes nothing but what closures carry along |
| `Laws.LeftIdentity` | officium/crates/officium-core/src/machine.rs:295-305 | binding a pure value is applying the lambda, in every mode |
| `Laws.RightIdentity` | officium/crates/officium-core/src/machine.rs:295-305 | binding into pure is the computation itself |
| `Laws.Associativity` | officium/crates/officium-core/src/machine.rs:295-305 | nested binds reassociate when the inner binder is not free in the last continuation, up to what closures carry |
| `Laws.AssociativityOfVerses` | officium/crates/officium-core/src/machine.rs:128-210 | and so do whole verse runs, alike in how they end |
| `Laws.AssociativityNeedsFreshness` | officium/crates/officium-core/src/machine.rs:295-305 | and do not when it is free: a program whose two nestings differ |
| `Laws.LeftIdentityOnMachine` | officium/crates/officium-core/src/machine.rs:295-305 | the first law on machine configurations, for any stack and depth |
| `Laws.RightIdentityOfVerses` | officium/crates/officium-core/src/machine.rs:128-210 | the second law on whole verse runs |
| `Lifting.LiftOfBind` | officium/crates/officium-core/src/machine.rs:359-368 | lift commutes with bind |
| `Lifting.LiftTouchesNothingAbove` | officium/crates/officium-core/src/machine.rs:359-368 | on the machine, from any configuration with a lift open and for any number of steps under it, the layers the lift hides are as they were |
| `Lifting.InnerThrowPassesOuterRecipe` | officium/crates/officium-core/src/machine.rs:216-238 | on the machine, whatever else is on the stack, a throw is caught by the innermost recipe entered at its own lift depth and passes every recipe entered at another |
| `Lifting.ModeIsAName` | officium/crates/officium-core/src/machine.rs:240-248 | the mode a run is under shows only in its mode errors |
| `Lifting.LiftedRunIsBaseRun` | officium/crates/officium-core/src/machine.rs:359-368 | a lifted run of a plagal mode is the base mode's run on the layers below, under any stack |
| `Unification.UnifyIsExact` | officium/crates/officium-core/src/check.rs:202-239 | unification succeeds with exactly the solutions of the equation, and fails only when there is none |
| `Unification.UnifyIsMostGeneral` | officium/crates/officium-core/src/check.rs:202-239 | on success both sides resolve to one type and every unifier factors through the result |
| `Unification.BindKeepsAcyclic` | officium/crates/officium-core/src/check.rs:212-239 | the occurs check keeps the substitution free of cycles |
| `Unification.FullResolves` | officium/crates/officium-core/src/check.rs:202-210 | resolving a type fully is closing it with the substitution's own solution |
| `Inference.Infer` | officium/crates/officium-core/src/check.rs:349-491 | inference only adds: equations, variables and predicates, in an acyclic state |
| `Typing.InferSound` | officium/crates/officium-core/src/check.rs:349-491 | every closing of the final state that meets the deferred predicates is a typing |
| `Principal.InferComplete` | officium/crates/officium-core/src/check.rs:349-491 | every typing is such a closing: inference succeeds and loses none |
| `Verses.SpineIsInference` | officium/crates/officium-core/src/check.rs:126-146 | the walk that pins types to sung lines ends as plain inference does |
| `Verses.CheckPreds` | officium/crates/officium-core/src/check.rs:249-263 | the deferred predicates pass exactly when each is met or on an unresolved variable |
| `Verses.FirstPredClashes` | officium/crates/officium-core/src/check.rs:249-263 | a refusal for a predicate names what the first that fails wants and the type it got |
| `Verses.RhymesOnlyNarrow` | officium/crates/officium-core/src/check.rs:115-176 | a sung verse accepted is accepted with its rhymes erased |
| `Verses.RhymesResolveAlike` | officium/crates/officium-core/src/check.rs:147-170 | on acceptance all lines that share a label resolve to one type |
| `Verses.LinesAreTyped` | officium/crates/officium-core/src/check.rs:126-158 | on acceptance a sung line before the couplet carries the type of what its statement sings about, in the scope of the lines before it, and the couplet that of the result |
| `Verses.AcceptedIsTyped` | officium/crates/officium-core/src/check.rs:115-176 | every closing of an accepted verse types its body |
| `Verses.RhymedIsAccepted` | officium/crates/officium-core/src/check.rs:115-176 | a typing that gives rhyming lines one type makes the sung verse accepted |
| `Levels.LevelUp` | officium/crates/officium-core/src/check.rs:424-441 | inference that is not cut off comes out the same under every larger bound on the nesting of overloads |
| `Levels.CheckUp` | officium/crates/officium-core/src/check.rs:115-176 | so does the whole check |
| `Levels.ChecksOnce` | officium/crates/officium-core/src/check.rs:115-176 | the check without a bound has one outcome at most |
| `Levels.GroundedChecks` | officium/crates/officium-core/src/check.rs:424-441 | it has one whenever the overloads the verse reaches nest to a bounded depth, that of the check bounded there |
| `Cycles.GroundedExactly` | officium/crates/officium-core/src/check.rs:424-441 | they do exactly if none of them leads back to itself, and then no deeper than there are answers |
| `Levels.EndsExactly` | officium/crates/officium-core/src/check.rs:115-176 | the check of a verse, sung or plain, ends exactly if no overload it reaches leads back to itself or inference meets a clash |
| `Levels.CyclesAreNotAccepted` | officium/crates/officium-core/src/check.rs:115-176 | a verse that reaches a cycle of overloads is refused or its check does not end; any other is decided by a bound of as many as there are answers |
| `Levels.CycleNeverEnds` | officium/crates/officium-core/src/check.rs:424-441 | an overload a score can hold, resolving itself, whose check meets no clash and does not end |
| `Closings.ClosableExactly` | officium/crates/officium-core/src/check.rs:249-263 | some types satisfy a state exactly if its predicates pass and no two of them ask different things of one unresolved variable |
| `Closings.AcceptedIsClosable` | officium/crates/officium-core/src/check.rs:249-263 | so of the state an accepted verse ends in exactly the second is to be asked |
| `Closings.ClosesAtInputs` | officium/crates/officium-core/src/check.rs:212-239 | types that give the input and the cell a given type exist exactly if unifying the two leaves such a state |
| `Levels.AcceptanceIsTypability` | officium/crates/officium-core/src/check.rs:115-176 | a plain verse is accepted, without a bound, with no two predicates at odds over one variable, exactly when its body has a typing |
| `Checker.Checker.Shallow` | officium/crates/officium-core/src/check.rs:202-210 | the chasing loop finds the end of the variable chain |
| `Checker.Checker.UnifyTypes` | officium/crates/officium-core/src/check.rs:220-239 | unification in place is unification |
| `Checker.Checker.InferExpr` | officium/crates/officium-core/src/check.rs:349-491 | inference that updates the vectors and pushes and pops the scope is the inference function |
| `Checker.Checker.WalkSpine` | officium/crates/officium-core/src/check.rs:126-146 | the loop over the bind spine is the spine walk |
| `Checker.Checker.Rhyme` | officium/crates/officium-core/src/check.rs:147-170 | the two nested loops unify every pair of rhyming lines |
| `Checker.RunCheck` | officium/crates/officium-core/src/check.rs:115-176 | the whole check in place accepts and fails as the function does |
| `TypedValues.PedalFound` | officium/crates/officium-core/src/check.rs:303-311 | the checker finds a pedal where the machine does, with the type of its value |
| `TypedValues.ResolvedIsAnswer` | officium/crates/officium-core/src/env.rs:112-131 | what the machine resolves a name to is among the answers the checker inferred |
| `TypedValues.Weakening` | officium/crates/officium-core/src/check.rs:293-301 | an entry an expression cannot see changes no typing |
| `Soundness.CallSound` | officium/crates/officium-core/src/check.rs:313-346 | a builtin called on arguments of its signature succeeds with a value of its result type |
| `Soundness.SigIsWidest` | officium/crates/officium-core/src/check.rs:313-346 | data fit a builtin's signature exactly if the call succeeds on them, but that `eq` compares one type and venting asks for a body |
| `Soundness.KnotHas` | officium/crates/officium-core/src/machine.rs:471-483 | the closure a fixpoint of functions is given for itself has the fixpoint's type, whatever its operand looks like |
| `Soundness.SoundDenote` | officium/crates/officium-core/src/check.rs:349-491 | a typed expression in a typed scope over layers typed where it can read them yields, throws and returns values of the right types and never meets a wrong one, an unconsecrated commit or an unbound name |
| `Soundness.SoundApply` | officium/crates/officium-core/src/machine.rs:497-520 | the same for applying any typed function value |
| `Assignment.SoundCareful` | officium/crates/officium-core/src/machine.rs:112-124 | code that reads no dark cell before a line above has written it is as safe as code that reads none |
| `Accepted.AcceptedVersesDoNotGoWrong` | officium/crates/officium-core/src/check.rs:4-10 | an accepted verse with no two predicates at odds over one variable has closings, and at every one whose fixpoints are of functions, on an argument of its type, for any budget and from any tower whose cells are typed, out of its reach or written first, it ends in none of these |
| `Accepted.DataFits` | officium/crates/officium-core/src/check.rs:115-124 | for data and without fixpoints there is such a closing exactly if the types of the input and of the seed unify with the verse's own |
| `Accepted.FixFreeFixesFunctions` | officium/crates/officium-core/src/check.rs:384-390 | every closing is one for a program without fixpoints |
| `Accepted.TiedCheckDecides` | officium/crates/officium-core/src/check.rs:384-390 | a plain verse has a typing whose fixpoints are of functions exactly when the checker, asking that too, accepts it with no two predicates at odds |
| `Accepted.WritersMayStartEmpty` | kernel/src/celebrare.rs:181-203 | a Lydian verse that writes its cell and then reads it meets every condition from the empty record the driver seeds |
| `Accepted.SeededTower` | officium/crates/officium-core/src/machine.rs:112-124 | the seeded tower is typed, but for its lowest `dark` cells, exactly when every other cell fits: the top one the seed, the lower one an empty record |
| `Overtrust.LowerCellGoesWrong` | officium/crates/officium-core/src/check.rs:463-473 | a Hypolydian verse that is accepted, reads its lower cell and ends in a type error, for that cell starts as an empty record |
| `Overtrust.EmptyCellGoesWrong` | kernel/src/celebrare.rs:181-203 | a Lydian verse that is accepted, reads the empty record the driver seeds without writing it, and ends in a type error |
| `Overtrust.TwoMindsGoWrong` | officium/crates/officium-core/src/check.rs:249-263 | a verse the parser can read that asks its input to be a command or plan and a genus or string, is accepted, and ends in a type error whatever the input is |
| `Overtrust.FixpointGoesWrong` | officium/crates/officium-core/src/check.rs:384-390 | an accepted verse with a fixpoint of a truth value that ends in a type error, for the machine passes a closure; it has no typing whose fixpoints are of functions |
| `Overtrust.CaptureGoesWrong` | officium/crates/officium-core/src/machine.rs:471-483 | an accepted verse with a fixpoint of functions that ends in a type error, for its operand mentions the name the machine binds |
| `Fixpoints.Retied` | officium/crates/officium-core/src/check.rs:384-390 | only the fixpoints of a typing depend on whether they must be of functions |
| `Performance.ParsedVersesGoRight` | officium/crates/officium-parse/src/parser.rs:199-201 | whatever the parser returns and the checker accepts, with no two predicates at odds, no read of a cell that is neither typed nor written and its lifts at home, ends, if it ends, in a cadence of its types, silence, a premature commit, a name without an answer or a throw of its type |
| `Performance.ParsedDataGoesRight` | officium/crates/officium-parse/src/parser.rs:199-201 | on data that holds whenever the types of the input and of the seed unify with the verse's own |
| `ModeSafety.InferKept` | officium/crates/officium-core/src/check.rs:241-247 | whatever is inferred has every op on a layer kind of the mode, in the answers it may resolve to as well |
| `Legality.InferHonest` | officium/crates/officium-core/src/check.rs:241-247 | whatever inference meets, a mode clash names an op and a mode that does not allow it |
| `Legality.RefusedExactly` | officium/crates/officium-core/src/check.rs:241-247 | the checker refuses an op for its mode exactly if the machine, coming to it there outside any lift, ends in `WrongMode` |
| `ModeSafety.SafeDenote` | officium/crates/officium-core/src/machine.rs:251-371 | code whose ops fit the kind and whose lifts stand where two layers are sure to be visible never raises a mode error, in any scope of such closures |
| `ModeSafety.CheckedVersesKeepTheirMode` | officium/crates/officium-core/src/check.rs:359-365 | a checked verse never raises WrongMode: always with a one-layer tower, and with two when no lift sits where it may be called at another depth |
| `ModeSafety.HiddenLiftGoesWrong` | officium/crates/officium-core/src/check.rs:392-398 | a verse with a lift under a lambda called under a lift, accepted and ending in WrongMode |
| `Lexing.LexIsByLine` | officium/crates/officium-parse/src/lexer.rs:50-92 | the tokens are those of the lines one after the other, each numbered by its line: every text outside a comment in order, and a newline after each line that has a token |
| `Lexing.WrittenLexes` | officium/crates/officium-parse/src/lexer.rs:50-92 | any source that writes a tidy stream, white space wherever one likes, lexes to its tokens |
| `Lexing.LexIsTidy` | officium/crates/officium-parse/src/lexer.rs:61-92 | runs of newlines are one token and none comes first; a semicolon is a token only as the third of a line that begins with a rhyme label and a text |
| `Lexing.OneSemiALine` | officium/crates/officium-parse/src/lexer.rs:70-91 | a later semicolon of a line is never a token |
| `Lexing.CommentsVanish` | officium/crates/officium-parse/src/lexer.rs:86-90 | a comment can be cut from the source up to its newline without changing a token or a line number |
| `Lexing.Lex` | officium/crates/officium-parse/src/lexer.rs:50-199 | the loop over the source gives the tokens of the recursive description |
| `Printing.PrintedParses` | officium/crates/officium-parse/src/parser.rs:360-494 | parsing the precedence-aware printing of an expression within the nesting guard returns it, consumes exactly its tokens and restores both depths |
| `Printing.ParsedIsExpressible` | officium/crates/officium-parse/src/parser.rs:360-494 | whatever the expression parser returns has such a printing |
| `Printing.Parses` | officium/crates/officium-parse/src/parser.rs:371-409 | the same at every level of the grammar, where the loops of that level take over |
| `Guard.GuardIsExact` | officium/crates/officium-parse/src/parser.rs:360-369 | a printed expression parses exactly when its nesting fits the guard of 96, and is otherwise refused as too deep |
| `Signs.SignsCompute` | officium/crates/officium-parse/src/parser.rs:371-397 | a sign between two expressions combines the numbers they have by its operation, the left one first, where no binder takes the builtin's name |
| `Signs.MinusNegates` | officium/crates/officium-parse/src/parser.rs:447-452 | a minus before an atom takes its number from zero |
| `Signs.StopsExactly` | officium/crates/officium-parse/src/parser.rs:411-422 | the words that end an application are exactly the keywords of statements and headers |
| `Signs.AtomInside` | officium/crates/officium-parse/src/parser.rs:39-47 | inside parentheses an operand begins after any newlines |
| `Signs.LoopsInside` | officium/crates/officium-parse/src/parser.rs:39-47 | and so do a further argument and a sign |
| `Signs.NewlineEnds` | officium/crates/officium-parse/src/parser.rs:399-409 | outside them a newline ends an expression, and none begins with one |
| `Score.StmtsRoundTrip` | officium/crates/officium-parse/src/parser.rs:287-356 | parsing a printed body gives its bind chain back and consumes its tokens, closing brace included |
| `Score.ParsedIsShaped` | officium/crates/officium-parse/src/parser.rs:287-356 | whatever the statement parser returns has a surface form |
| `Complaints.StmtsPlaced` | officium/crates/officium-parse/src/parser.rs:34-37 | an error of the statement parser is at the line of a token from the cursor on, or of the last past the end |
| `Complaints.ErrorsAhead` | officium/crates/officium-parse/src/parser.rs:34-37 | so where lines do not go back it is reported no earlier than the parser started and no later than the end |
| `Score.WritableIsShaped` | officium/crates/officium-parse/src/parser.rs:287-369 | the bodies the printer writes are exactly those with a surface form within the nesting guard |
| `Liturgy.StripsToPlain` | officium/crates/officium-parse/src/parser.rs:223-259 | stripping a sung score leaves exactly the plain form's tokens, gathers its rhymes in order, and touches nothing before the verse or past its matching brace |
| `Liturgy.StripOfSung` | officium/crates/officium-parse/src/parser.rs:210-282 | the whole strip gives the plain verse with its rhymes, or the fault found in the rhymes |
| `Liturgy.SungIsPlain` | officium/crates/officium-parse/src/parser.rs:191-202 | a well-rhymed sung score, its last line ended or not, lowers to the same expression as the plain one, error for error; where the plain one itself begins with a label and a text the sung one is refused |
| `Liturgy.StripFault` | officium/crates/officium-parse/src/parser.rs:223-259 | all the strip complains of before it has the scheme is a sung text without its semicolon, at that text's line |
| `Liturgy.JudgedWell` | officium/crates/officium-parse/src/parser.rs:261-281 | a scheme is accepted exactly when it has eight lines, its couplet rhymes and every line is answered |
| `Liturgy.FaultsInOrder` | officium/crates/officium-parse/src/parser.rs:261-281 | a scheme is faulted for its length first, then its couplet, then the first line no other answers |
| `Descent.Parser.Expression` | officium/crates/officium-parse/src/parser.rs:360-369 | the method that counts the nesting parses as the grammar says, and leaves the position and both depths where it says |
| `Descent.Parser.Additive` | officium/crates/officium-parse/src/parser.rs:371-383 | the loop over sums is the recursive one |
| `Descent.Parser.Multiplicative` | officium/crates/officium-parse/src/parser.rs:385-397 | the loop over products is the recursive one |
| `Descent.Parser.Application` | officium/crates/officium-parse/src/parser.rs:402-409 | the loop over arguments is the recursive one |
| `Descent.Parser.Atom` | officium/crates/officium-parse/src/parser.rs:424-494 | atoms, parentheses, lambdas, signs and words as the grammar says |
| `Descent.Parser.Stmts` | officium/crates/officium-parse/src/parser.rs:287-350 | statements up to the closing brace as the grammar says |
| `Descent.Parser.LiturgicalStrip` | officium/crates/officium-parse/src/parser.rs:210-282 | draining the heads in place leaves the stripped tokens and returns the rhymes, or the fault |
| `Descent.Parser.Body` | officium/crates/officium-parse/src/parser.rs:199-201 | a verse's body is stripped and then parsed |
| `Degrees.DegreesBijective` | officium/crates/officium-audio/src/degree_op.rs:22-55 | in every mode the table is a bijection between operations and degrees 1 to 8 |
| `Degrees.DegreesInOrder` | officium/crates/officium-audio/src/degree_op.rs:22-55 | the operations from the final up: the end of the phrase, the reciting tone on the fifth or the plagal third, the branch on the octave |
| `Degrees.FinalsAreWhite` | officium/crates/officium-audio/src/degree_op.rs:58-65 | the finals are the white keys from the tone above middle C, one after the other |
| `Degrees.ScalesAreWhite` | officium/crates/officium-audio/src/degree_op.rs:67-76 | a church scale is the white keys from its final to the octave, none left out |
| `Degrees.AmbitusOf` | officium/crates/officium-audio/src/degree_op.rs:78-99 | an authentic mode climbs its octave, a plagal one spans the fourth below its final to the fifth above, all on white keys |
| `Degrees.OffsetsInjective` | officium/crates/officium-audio/src/degree_op.rs:78-99 | each degree has a pitch of its own, in MIDI range |
| `Degrees.DipsBelow` | officium/crates/officium-audio/src/degree_op.rs:78-94 | a degree lies under the final exactly in the plagal modes from the sixth up |
| `Organ.Scribe.WalkVerse` | officium/crates/officium-audio/src/render.rs:55-83 | the walk appends the notes of the body and moves the onset past them |
| `Organ.PlayedSings` | officium/crates/officium-audio/src/render.rs:55-83 | the pitches are the degrees of the body's operations in order |
| `Organ.PlayedIsSeamless` | officium/crates/officium-audio/src/render.rs:75-83 | each note starts where the one before it ends, and the melody is as long as its body |
| `Organ.LengthCounts` | officium/crates/officium-audio/src/render.rs:55-83 | a body sounds a tick for each operation and one more for each cadence, which is held |
| `Organ.PlayedInVoice` | officium/crates/officium-audio/src/render.rs:75-83 | all in one voice |
| `Transcription.BlockWrites` | officium/crates/officium-audio/src/transcribe.rs:142-218 | what a block writes is the printed form of a body that sings the block's notes, a degraded note as a plain bind |
| `Transcription.TranscribedSings` | officium/crates/officium-audio/src/transcribe.rs:31-106 | every accepted phrase's transcript parses and renders to the phrase's operations |
| `Transcription.PhraseRoundTrip` | officium/crates/officium-audio/src/transcribe.rs:31-218 | parsing and rendering a transcript gives the phrase back up to octave exactly when no note of it degrades |
| `Transcription.ModeRecovered` | officium/crates/officium-audio/src/transcribe.rs:37-61 | transcribing a rendered verse recovers its mode exactly when it is authentic or has a Modal, Resolve or Branch line, and then its operations too |
| `Transcription.ParsedModeRecovered` | officium/crates/officium-audio/src/transcribe.rs:31-106 | so for whatever the parser returns: any verse body sings to its end |
| `Transcription.Transcriber.WriteBlock` | officium/crates/officium-audio/src/transcribe.rs:144-218 | the recursive loop writes the block, the previous value running on from the first arm of a branch into the second |
| `Transcription.TranscribePhrase` | officium/crates/officium-audio/src/transcribe.rs:31-106 | the whole transcription, with the number of the note an error is at |
| `Phrases.TranscribeExactly` | officium/crates/officium-audio/src/transcribe.rs:31-80 | every phrase's fate: refused if silent or not on a final; at its first note outside the mode; past its end if it owes a cadence; at the first note after the last owed; else taken, in its mode |
| `Phrases.BlockPays` | officium/crates/officium-audio/src/transcribe.rs:142-164 | a block ends where the cadences owed, one and one more for each branch, have been sung |
| `Phrases.FugueNeeded` | officium/crates/officium-audio/src/transcribe.rs:93-101 | a fugue goes with the transcript exactly if a line asks or resolves |
| `Audition.AcceptedExactly` | officium/crates/officium-core/src/check.rs:349-491 | the checker accepts a transcript's body exactly when every value it writes is in scope and the kinds its cadences and its mode's op meet agree |
| `Audition.TranscriptAccepted` | officium/crates/officium-audio/src/transcribe.rs:16-18 | so for a phrase transcribed, parsed and checked with the fugue emitted for it |
| `Audition.ArmsLeak` | officium/crates/officium-audio/src/transcribe.rs:144-164 | a Dorian phrase whose transcript is refused: the value of the first arm runs on into the second |
| `Audition.CellsMix` | officium/crates/officium-audio/src/transcribe.rs:166-205 | a Lydian phrase whose transcript is refused: its cell is set to a number and to a function |
| `Wakeups.StepKeepsSound` | kernel/src/ac97.rs:322-339 | every step of handlers, tasks and executor, interrupts in every gap, that does not overflow the task queue keeps: a task parked in its source's poll is queued if it has work and can be woken if not |
| `Wakeups.ReachableIsSound` | kernel/src/task/executor.rs:43-84 | the invariant holds in every state of every run from boot |
| `Wakeups.NeverHaltsOnWork` | kernel/src/task/executor.rs:71-84 | while the CPU is halted the synth task has no work and is registered, and so is the shell unless it sleeps or plays elsewhere |
| `Wakeups.OnlyElsewhereSleepsOnWork` | kernel/src/task/shell.rs:100-106 | the CPU can halt on a task's work exactly while that task waits for something else |
| `Wakeups.NothingIsLost` | kernel/src/task/keyboard.rs:20-43 | what a task took and what waits for it is what its handler left, scancodes in order |
| `Wakeups.QueuesStayBounded` | kernel/src/task/keyboard.rs:20-43 | neither queue ever holds more than it has room for |
| `Wakeups.InterruptEndsHalt` | kernel/src/ac97.rs:306-309 | an interrupt with work ends the halt and queues its task exactly if that task waits for it; one that waits elsewhere has left no waker |
| `Wakeups.SecondLookMatters` | kernel/src/ac97.rs:330-338 | without the second look a run from boot halts on work |
| `Wakeups.EmptinessTestMatters` | kernel/src/task/executor.rs:71-84 | without the test under masked interrupts a run from boot halts with a task queued |
| `Wakeups.BothPrecautionsMatter` | kernel/src/task/executor.rs:71-84 | of the four designs only the code's never halts on work a task waits for |
| `Executor.HaltAnswersEveryWake` | kernel/src/task/executor.rs:36-84 | when the CPU halts every id pushed, by spawning, polls or interrupts however late, has been popped in order, and a waker is cached only for a task that is still there |
| `Executor.QueuedIsPolled` | kernel/src/task/executor.rs:51-68 | every queued task is polled before the executor is idle, whatever interrupts push meanwhile |
| `Executor.DrainedProgresses` | kernel/src/task/executor.rs:60-67 | a task is only ever taken forward, and removed only after a poll that finished it |
| `Executor.Executor.Spawn` | kernel/src/task/executor.rs:28-34 | a task is added and queued, or refused for its id or a full queue |
| `Executor.Executor.RunReadyTasks` | kernel/src/task/executor.rs:43-69 | the loop over the shared queue in place, interrupts and a full queue included, is the drain described |
| `Executor.Executor.Run` | kernel/src/task/executor.rs:36-41 | the run loop halts the CPU in the state the session described ends in, or the queue overflows |
| `Ring.MarksCompleted` | kernel/src/ac97.rs:296-305 | with fewer than 32 completions the bits set are exactly the pages that completed |
| `Ring.MarksExactly` | kernel/src/ac97.rs:296-305 | for any number of completions they are, unless the handler is a full turn late and sees fewer than four more |
| `Ring.MarkPages` | kernel/src/ac97.rs:299-304 | the loop round the ring sets the bits of the cyclic interval |
| `Ring.Driver.HandleIrq` | kernel/src/ac97.rs:282-317 | the handler marks, wakes and moves the last valid index as the protocol's interrupt step says, and leaves a foreign interrupt alone |
| `Ring.Driver.Poll` | kernel/src/ac97.rs:325-339 | a poll, an interrupt possibly falling into either gap, is the protocol's steps, and takes the whole mask or registers |
| `Synth.PiecewiseIsOne` | kernel/src/ac97.rs:258-275 | filling buffers piecewise is filling one long buffer |
| `Synth.PhaseAfter` | kernel/src/ac97.rs:261-263 | after n frames a phase has advanced n steps modulo 2^32 |
| `Synth.FrameAt` | kernel/src/ac97.rs:259-274 | frame k is the mix of the voices after k turns, on both channels |
| `Synth.Symmetries` | kernel/src/ac97.rs:364-397 | the second half of the table is the first upside down, each half its own mirror image |
| `Synth.SineTurns` | kernel/src/ac97.rs:364-397 | the first quarter climbs from zero to the peak as a sine does: squares of sine and cosine and the addition theorem hold to within the rounding of the entries |
| `Synth.MixAdds` | kernel/src/ac97.rs:258-275 | voices add up |
| `Synth.MixAlone` | kernel/src/ac97.rs:258-275 | a lone voice is its four weighted samples, fundamental and overtones |
| `Synth.OvertonesTurnFaster` | kernel/src/ac97.rs:264-268 | an overtone is the fundamental of a phase that turns so many times as fast, and a 256th of a turn is one entry |
| `Synth.NeverClips` | kernel/src/ac97.rs:270-273 | with at most eight voices the accumulator stays within 8·60·32767 and the clamp changes no sample |
| `Synth.FillsInPlayOrder` | kernel/src/ac97.rs:347-360 | up to four completed pages are filled in the order they will be played exactly when they do not run past page 3 |
| `Synth.StepsInjective` | kernel/src/ac97.rs:215-217 | different frequencies below the sample rate are different notes |
| `Synth.StepIsFrequency` | kernel/src/ac97.rs:215-217 | a second of frames turns a note's phase as many times as its frequency, but for less than a frame |
| `Synth.Card.Synthesize` | kernel/src/ac97.rs:258-275 | fills the slice with the played frames, turns the phases, leaves the rest of the buffer alone |
| `Synth.Card.RefillPages` | kernel/src/ac97.rs:343-361 | the pages of the mask hold consecutive stretches of one long fill, the others what they held |
| `Synth.Card.NoteOn` | kernel/src/ac97.rs:220-234 | the note sounds afterwards, from the start of its period, unless no slot was free, no note sounds twice, and no other voice changes |
| `Synth.Card.NoteOff` | kernel/src/ac97.rs:236-247 | the note is silent afterwards and no other voice changes |
| `Screen.PlacesApart` | kernel/src/console.rs:63-65 | no two pixels share a byte |
| `Screen.EveryBytePlaced` | kernel/src/console.rs:63-65 | every byte is some pixel's, so nothing is left unsaid |
| `Screen.VisiblePlaced` | kernel/src/console.rs:63-71 | every visible pixel's bytes are in bounds |
| `Screen.ThreeBytes` | kernel/src/console.rs:66-84 | each format writes a colour's three bytes in its order, or only the brightest, and nothing past them |
| `Screen.DotsFromTheLeft` | kernel/src/console.rs:87-100 | the bits of a glyph's row from the lowest on are its dots from the left |
| `Screen.CellsFill` | kernel/src/console.rs:49-55 | the cells fill the screen but for less than one either way |
| `Screen.ShiftDropsRow` | kernel/src/console.rs:118-124 | moving the bytes up by a text row is dropping the top row of the grid, for any stride and any height |
| `Terminal.InkedAll` | kernel/src/console.rs:87-100 | a glyph drawn dot by dot is the drawing of the grid with that cell changed |
| `Terminal.Console.SetPixel` | kernel/src/console.rs:63-85 | exactly the pixel's written channels change |
| `Terminal.Console.DrawGlyph` | kernel/src/console.rs:87-100 | the buffer becomes the drawing of the grid with the glyph in its cell |
| `Terminal.Console.Scroll` | kernel/src/console.rs:118-124 | the bytes move up and the buffer stays the drawing of the grid without its top row |
| `Terminal.Console.PutChar` | kernel/src/console.rs:126-143 | newline, carriage return, backspace and deferred wrap act on the grid and the cursor, and the buffer stays their drawing |
| `Terminal.Console.WriteStr` | kernel/src/console.rs:146-153 | whatever is written the cursor and every index stay in bounds and the buffer is the drawing of the grid it leads to, zero elsewhere |
| `Page.WrittenIsWindow` | kernel/src/console.rs:102-153 | whatever is written, the screen shows the last rows of what an unbounded page would |
| `Page.TextOnScreen` | kernel/src/console.rs:126-143 | text without control characters that fits stands in reading order, every other cell blank |
| `Page.LinesFill` | kernel/src/console.rs:102-143 | lines stand below each other on the page, each wrapped by itself |
| `Page.LinesOnScreen` | kernel/src/console.rs:102-143 | lines that fit stand one to a row, the last of them once there are more than rows, the cursor after the last |
| `Page.BackspaceUndoes` | kernel/src/console.rs:111-116 | a character and a backspace leave the cursor where it was and the cell blank |
| `Page.ReturnOverwrites` | kernel/src/console.rs:126-143 | a carriage return and a text overwrite the row from its start, what the text does not reach stays |
| `Page.UnknownCharacters` | kernel/src/console.rs:131-141 | a character the font lacks shows as the question mark does |

Places where the code does less than its comments say, each shown by a member above:

- The checker is said to mirror the machine (check.rs:4-10); it does not for the lower state
  cell (`Overtrust.LowerCellGoesWrong`), for a cell seeded with the empty record
  (`Overtrust.EmptyCellGoesWrong`), for fixpoints of non-functions
  (`Overtrust.FixpointGoesWrong`), for fixpoints whose operand mentions `$stretto`, the name the
  machine binds (`Overtrust.CaptureGoesWrong`), for two predicates that ask different things of one
  variable nothing resolves, which both pass (`Overtrust.TwoMindsGoWrong`), and for lifts under lambdas (`ModeSafety.HiddenLiftGoesWrong`).
- The checker need not end: an overload that leads back to itself is unfolded until inference meets
  a clash, or for ever (`Levels.EndsExactly`, `Levels.CycleNeverEnds`).
- A transcript is said to be well typed (transcribe.rs:16-18); it is exactly under the condition of
  `Audition.TranscriptAccepted`, and two phrases break it (`Audition.ArmsLeak`,
  `Audition.CellsMix`).
- A rendered verse is said to transcribe back to the same operations (degree_op.rs:1-5); it
  does exactly under the condition of `Transcription.ModeRecovered`.
- The refill handler is said to mark every completed page (ac97.rs:297-298); it does exactly
  under the condition of `Ring.MarksExactly`, and the synth task fills a wrapped set of pages
  out of the order of time (`Synth.FillsInPlayOrder`).
- The CPU does halt on waiting scancodes while the shell sleeps in a command
  (`Wakeups.ScancodesWaitForTheShell`).

## Left out

- Scalar arithmetic, `pitch_hz` and the constants of the mock physics: the numbers are opaque
  and their operations parameters; only the shape and the errors of the builtins are modelled.
- AcceptedVersesDoNotGoWrong: for programs whose literals are data and whose body records have
  their fields, and the operands of whose fixpoints do not mention `$stretto` freely; the parser builds no
  other. Writes count as lines of the bind spine and from the top layer down: a verse that writes
  inside an expression, or a Hypolydian one that starts from two empty records and writes the lower
  one first, and then reads it, falls under no condition.
- CheckedVersesKeepTheirMode: for first-order arguments, cells and literals.
- NothingIsLost: for runs in which the task queue does not overflow; an overflow stops the
  kernel in the code, and is an outcome of the step function here.
- PrintedParses: the printing uses no unary minus and no newline inside parentheses; what the
  parser makes of those is in `Signs`.
- Sharing through `Rc` and `Box`, 64-bit overflow of counters and onsets, and UTF-8.
- Lex: words, numbers and strings arrive whole; their bytes, number parsing and the errors in
  them are not modelled.
- TranscribePhrase: the transcript is the tokens of its body, its mode and whether a fugue goes
  with it; the header and the text of that fugue are not produced.
- TranscribedSings: of the tokens of the body; the header and the emitted fugue are outside them
  (the fugue's meaning is in `Audition.FuguesOf`).
- RunReadyTasks: what a poll does, and what interrupts push before each look at the queue, are
  scripts given beforehand.
- Fugue headers, pedal literals and the top level of a program in the parser.
- Ports, PCI, descriptors in memory and locks: the wake, register, push and pop of the shared
  queues are atomic steps.
- The shell's commands, key maps, messages, the three-verse pipeline of `celebrare` and the mock organ.
