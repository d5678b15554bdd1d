/** The rule-expression evaluator of lib/sim.ts (`resolveOperand`, `evalExpr`). */
module Evaluator {
  import opened Numeric
  import opened Types

  /** The stop-loss and take-profit flags of the position being evaluated. */
  datatype Flags = Flags(stop: bool, take: bool)

  /** An evaluation context: the session index, the symbol's indicator series by id, and the risk
      flags. The symbol itself is carried by the source but never read by the evaluator. */
  datatype Context = Context(index: nat, indicators: map<string, seq<Num>>, flags: Flags)

  /** `resolveOperand`: a literal is itself; a reference is the indicator's value at the context's
      index, NaN when the id is undeclared and `undefined` (non-finite) past the series' end. */
  function Resolve(op: Operand, ctx: Context): (v: Num)
    ensures op.Lit? ==> v == Some(op.value)
    ensures op.Ref? && op.name !in ctx.indicators ==> v == None
  {
    match op
    case Lit(x) => Some(x)
    case Ref(name) =>
      if name !in ctx.indicators then None
      else
        var series := ctx.indicators[name];
        if ctx.index < |series| then series[ctx.index] else None
  }

  /** The context of the previous session; the index clamps at 0. */
  function Previous(ctx: Context): (p: Context)
    ensures p.index == if ctx.index > 0 then ctx.index - 1 else 0
    ensures p.indicators == ctx.indicators && p.flags == ctx.flags
  {
    ctx.(index := if ctx.index > 0 then ctx.index - 1 else 0)
  }

  /** Both operands finite and the first greater than the second. */
  predicate Above(l: Num, r: Num) {
    IsFinite(l) && IsFinite(r) && l.value > r.value
  }

  /** Both operands finite and the first less than the second. */
  predicate Below(l: Num, r: Num) {
    IsFinite(l) && IsFinite(r) && l.value < r.value
  }

  /** `evalExpr`: `all` is `every` (true when empty), `any` is `some` (false when empty), and an
      object with none of the known keys is false. */
  predicate Eval(e: BoolExpr, ctx: Context)
    decreases e
  {
    match e
    case All(cs) => forall c | c in cs :: Eval(c, ctx)
    case Any(cs) => exists c | c in cs :: Eval(c, ctx)
    case Gt(l, r) => Above(Resolve(l, ctx), Resolve(r, ctx))
    case Lt(l, r) => Below(Resolve(l, ctx), Resolve(r, ctx))
    case CrossOver(l, r) =>
      var prev := Previous(ctx);
      && IsFinite(Resolve(l, ctx)) && IsFinite(Resolve(r, ctx))
      && IsFinite(Resolve(l, prev)) && IsFinite(Resolve(r, prev))
      && Resolve(l, prev).value <= Resolve(r, prev).value
      && Resolve(l, ctx).value > Resolve(r, ctx).value
    case CrossUnder(l, r) =>
      var prev := Previous(ctx);
      && IsFinite(Resolve(l, ctx)) && IsFinite(Resolve(r, ctx))
      && IsFinite(Resolve(l, prev)) && IsFinite(Resolve(r, prev))
      && Resolve(l, prev).value >= Resolve(r, prev).value
      && Resolve(l, ctx).value < Resolve(r, ctx).value
    case RiskStop => ctx.flags.stop
    case RiskTake => ctx.flags.take
    case Unrecognised => false
  }

  /** A comparison or crossing with a non-finite operand, for instance an undeclared indicator id,
      is false. */
  lemma NonFiniteIsFalse(e: BoolExpr, ctx: Context)
    requires e.Gt? || e.Lt? || e.CrossOver? || e.CrossUnder?
    requires !IsFinite(Resolve(e.left, ctx)) || !IsFinite(Resolve(e.right, ctx))
    ensures !Eval(e, ctx)
  {
  }

  /** On one pair and one day, a crossing above and a crossing below exclude each other, and at the
      first session neither can hold, since the previous session is the same session. */
  lemma CrossingsExclusive(l: Operand, r: Operand, ctx: Context)
    ensures !(Eval(CrossOver(l, r), ctx) && Eval(CrossUnder(l, r), ctx))
    ensures ctx.index == 0 ==> !Eval(CrossOver(l, r), ctx) && !Eval(CrossUnder(l, r), ctx)
  {
    if ctx.index == 0 {
      assert Previous(ctx) == ctx;
    }
  }

  /** A crossing above at a session after the first is a `gt` today that was not a `gt` yesterday,
      with all four values finite. */
  lemma CrossOverIsRise(l: Operand, r: Operand, ctx: Context)
    ensures Eval(CrossOver(l, r), ctx) <==>
      && Eval(Gt(l, r), ctx)
      && IsFinite(Resolve(l, Previous(ctx))) && IsFinite(Resolve(r, Previous(ctx)))
      && !Eval(Gt(l, r), Previous(ctx))
  {
  }

  /** The indicator ids an expression refers to through its comparison and crossing leaves. */
  function Refs(e: BoolExpr): set<string>
    decreases e, 1
  {
    match e
    case All(cs) => RefsOfAll(cs)
    case Any(cs) => RefsOfAll(cs)
    case Gt(l, r) => OperandRefs(l, r)
    case Lt(l, r) => OperandRefs(l, r)
    case CrossOver(l, r) => OperandRefs(l, r)
    case CrossUnder(l, r) => OperandRefs(l, r)
    case _ => {}
  }

  function RefsOfAll(cs: seq<BoolExpr>): set<string>
    decreases cs, 0
  {
    if cs == [] then {} else Refs(cs[0]) + RefsOfAll(cs[1..])
  }

  function OperandRefs(l: Operand, r: Operand): set<string> {
    (if l.Ref? then {l.name} else {}) + (if r.Ref? then {r.name} else {})
  }

  lemma {:induction false} RefsOfAllMember(cs: seq<BoolExpr>, i: nat)
    requires i < |cs|
    ensures Refs(cs[i]) <= RefsOfAll(cs)
    decreases i
  {
    if i > 0 {
      RefsOfAllMember(cs[1..], i - 1);
      assert cs[1..][i - 1] == cs[i];
    }
  }

  /** Two contexts that agree on the index, the flags and every indicator the expression refers to
      give the expression the same value. */
  lemma {:induction false} EvalFrame(e: BoolExpr, a: Context, b: Context)
    requires a.index == b.index && a.flags == b.flags
    requires forall n | n in Refs(e) ::
      (n in a.indicators <==> n in b.indicators) && (n in a.indicators ==> a.indicators[n] == b.indicators[n])
    ensures Eval(e, a) == Eval(e, b)
    decreases e
  {
    match e
    case All(cs) =>
      forall i | 0 <= i < |cs|
        ensures Eval(cs[i], a) == Eval(cs[i], b)
      {
        RefsOfAllMember(cs, i);
        EvalFrame(cs[i], a, b);
      }
      assert Eval(e, a) == Eval(e, b) by {
        if Eval(e, a) {
          forall c | c in cs ensures Eval(c, b) {
            var i :| 0 <= i < |cs| && cs[i] == c;
          }
        } else {
          var c :| c in cs && !Eval(c, a);
          var i :| 0 <= i < |cs| && cs[i] == c;
        }
      }
    case Any(cs) =>
      forall i | 0 <= i < |cs|
        ensures Eval(cs[i], a) == Eval(cs[i], b)
      {
        RefsOfAllMember(cs, i);
        EvalFrame(cs[i], a, b);
      }
      assert Eval(e, a) == Eval(e, b) by {
        if Eval(e, a) {
          var c :| c in cs && Eval(c, a);
          var i :| 0 <= i < |cs| && cs[i] == c;
        } else {
          forall c | c in cs ensures !Eval(c, b) {
            var i :| 0 <= i < |cs| && cs[i] == c;
          }
        }
      }
    case Gt(l, r) => OperandFrame(l, r, a, b);
    case Lt(l, r) => OperandFrame(l, r, a, b);
    case CrossOver(l, r) => OperandFrame(l, r, a, b);
    case CrossUnder(l, r) => OperandFrame(l, r, a, b);
    case _ =>
  }

  lemma OperandFrame(l: Operand, r: Operand, a: Context, b: Context)
    requires a.index == b.index
    requires forall n | n in OperandRefs(l, r) ::
      (n in a.indicators <==> n in b.indicators) && (n in a.indicators ==> a.indicators[n] == b.indicators[n])
    ensures Resolve(l, a) == Resolve(l, b) && Resolve(r, a) == Resolve(r, b)
    ensures Resolve(l, Previous(a)) == Resolve(l, Previous(b)) && Resolve(r, Previous(a)) == Resolve(r, Previous(b))
  {
    if l.Ref? { assert l.name in OperandRefs(l, r); }
    if r.Ref? { assert r.name in OperandRefs(l, r); }
  }
}
