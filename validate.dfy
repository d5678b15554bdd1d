/** The strategy validator of lib/validate.ts: the schema the request body must satisfy, the
    reference collector, and the ordered checks of `validateStrategy`. */
module Validate {
  import opened Numeric
  import opened Types
  import opened Text
  import Host
  import Indicators
  import Evaluator
  import Positions

  // -----------------------------------------------------------------------------------------------
  // Indicator ids and the rule expressions the schema parses (lib/validate.ts:5-28)

  predicate IdChar(c: char) {
    'a' <= c <= 'z' || 'A' <= c <= 'Z' || '0' <= c <= '9' || c == '_' || c == '-'
  }

  /** The pattern `^@[a-zA-Z0-9_\-]+$` of indicator ids and string operands. */
  predicate IdShape(s: string) {
    |s| >= 2 && s[0] == '@' && forall i | 1 <= i < |s| :: IdChar(s[i])
  }

  /** A literal (always finite here) or a string of the id pattern. */
  predicate OperandShape(o: Operand) {
    o.Ref? ==> IdShape(o.name)
  }

  /** The expressions the options of the `boolExpr` union accept as they are: `all`/`any` with at
      least one child, comparisons of well-shaped operands, `{ risk_stop: true }` and `{}`. */
  predicate Shaped(e: BoolExpr)
    decreases e
  {
    match e
    case All(cs) => |cs| >= 1 && forall c | c in cs :: Shaped(c)
    case Any(cs) => |cs| >= 1 && forall c | c in cs :: Shaped(c)
    case Gt(l, r) => OperandShape(l) && OperandShape(r)
    case Lt(l, r) => OperandShape(l) && OperandShape(r)
    case CrossOver(l, r) => OperandShape(l) && OperandShape(r)
    case CrossUnder(l, r) => OperandShape(l) && OperandShape(r)
    case RiskStop => true
    case RiskTake => false
    case Unrecognised => true
  }

  /** The value the `boolExpr` union parses an expression to. The union returns the first option
      that accepts the object, and every option drops the keys it does not declare, so the option
      `{ risk_stop?: true }`, which has no required key, accepts every object: what the earlier
      options refuse parses to `{}`, and so does `{ risk_take: true }`, whose own option comes
      later. Every expression here is an object, and for an object the union therefore never
      reports an issue; a `when` that is not an object at all is not a `BoolExpr`. */
  function Parsed(e: BoolExpr): (p: BoolExpr)
    ensures Shaped(p)
    decreases e
  {
    match e
    case All(cs) =>
      if |cs| >= 1 then
        var ps := seq(|cs|, i requires 0 <= i < |cs| => Parsed(cs[i]));
        assert forall c | c in ps :: Shaped(c) by {
          forall c | c in ps ensures Shaped(c) {
            var i :| 0 <= i < |ps| && ps[i] == c;
          }
        }
        All(ps)
      else Unrecognised
    case Any(cs) =>
      if |cs| >= 1 then
        var ps := seq(|cs|, i requires 0 <= i < |cs| => Parsed(cs[i]));
        assert forall c | c in ps :: Shaped(c) by {
          forall c | c in ps ensures Shaped(c) {
            var i :| 0 <= i < |ps| && ps[i] == c;
          }
        }
        Any(ps)
      else Unrecognised
    case Gt(l, r) => if OperandShape(l) && OperandShape(r) then e else Unrecognised
    case Lt(l, r) => if OperandShape(l) && OperandShape(r) then e else Unrecognised
    case CrossOver(l, r) => if OperandShape(l) && OperandShape(r) then e else Unrecognised
    case CrossUnder(l, r) => if OperandShape(l) && OperandShape(r) then e else Unrecognised
    case RiskStop => RiskStop
    case RiskTake => Unrecognised
    case Unrecognised => Unrecognised
  }

  /** A well-shaped expression parses to itself, so parsing is idempotent. */
  lemma {:induction false} ParsedFixes(e: BoolExpr)
    requires Shaped(e)
    ensures Parsed(e) == e
    decreases e
  {
    match e
    case All(cs) =>
      forall i | 0 <= i < |cs| ensures Parsed(cs[i]) == cs[i] {
        ParsedFixes(cs[i]);
      }
      assert seq(|cs|, i requires 0 <= i < |cs| => Parsed(cs[i])) == cs;
    case Any(cs) =>
      forall i | 0 <= i < |cs| ensures Parsed(cs[i]) == cs[i] {
        ParsedFixes(cs[i]);
      }
      assert seq(|cs|, i requires 0 <= i < |cs| => Parsed(cs[i])) == cs;
    case _ =>
  }

  lemma ParsedIdempotent(e: BoolExpr)
    ensures Parsed(Parsed(e)) == Parsed(e)
  {
    ParsedFixes(Parsed(e));
  }

  // -----------------------------------------------------------------------------------------------
  // collectOperands (lib/validate.ts:114-132)

  /** A string operand starting with `@` joins the set unless it is there already. */
  function AddOperand(bucket: seq<string>, o: Operand): seq<string> {
    if o.Ref? && StartsWith(o.name, "@") && o.name !in bucket then bucket + [o.name] else bucket
  }

  /** `collectOperands(expr, bucket)` on the set's contents in insertion order: `all` and `any`
      visit their children in order, a comparison or crossing adds its `@` operands, left first,
      and the other leaves add nothing. */
  function Collect(bucket: seq<string>, e: BoolExpr): seq<string>
    decreases e, 1
  {
    match e
    case All(cs) => CollectAll(bucket, cs)
    case Any(cs) => CollectAll(bucket, cs)
    case Gt(l, r) => AddOperand(AddOperand(bucket, l), r)
    case Lt(l, r) => AddOperand(AddOperand(bucket, l), r)
    case CrossOver(l, r) => AddOperand(AddOperand(bucket, l), r)
    case CrossUnder(l, r) => AddOperand(AddOperand(bucket, l), r)
    case _ => bucket
  }

  /** `cs.forEach((child) => collectOperands(child, bucket))` */
  function CollectAll(bucket: seq<string>, cs: seq<BoolExpr>): seq<string>
    decreases cs, 0
  {
    if cs == [] then bucket else Collect(CollectAll(bucket, cs[..|cs| - 1]), cs[|cs| - 1])
  }

  /** The evaluator's references of a list of expressions, taken last element off. */
  lemma {:induction false} RefsOfAllSnoc(cs: seq<BoolExpr>)
    requires cs != []
    ensures Evaluator.RefsOfAll(cs) == Evaluator.RefsOfAll(cs[..|cs| - 1]) + Evaluator.Refs(cs[|cs| - 1])
  {
    if |cs| > 1 {
      RefsOfAllSnoc(cs[1..]);
      assert cs[1..][..|cs| - 2] == cs[..|cs| - 1][1..];
    } else {
      assert cs[..0] == [];
    }
  }

  /** Exactly the strings starting with `@` among the expression's operand references join the
      bucket. */
  lemma {:induction false} CollectMembers(bucket: seq<string>, e: BoolExpr)
    ensures forall x :: x in Collect(bucket, e) <==>
      x in bucket || (StartsWith(x, "@") && x in Evaluator.Refs(e))
    decreases e, 1
  {
    match e
    case All(cs) => CollectAllMembers(bucket, cs);
    case Any(cs) => CollectAllMembers(bucket, cs);
    case _ =>
  }

  lemma {:induction false} CollectAllMembers(bucket: seq<string>, cs: seq<BoolExpr>)
    ensures forall x :: x in CollectAll(bucket, cs) <==>
      x in bucket || (StartsWith(x, "@") && x in Evaluator.RefsOfAll(cs))
    decreases cs, 0
  {
    if cs != [] {
      CollectAllMembers(bucket, cs[..|cs| - 1]);
      CollectMembers(CollectAll(bucket, cs[..|cs| - 1]), cs[|cs| - 1]);
      RefsOfAllSnoc(cs);
    }
  }

  /** The bucket only grows at its end, and it never lists a string twice. */
  lemma {:induction false} CollectExtends(bucket: seq<string>, e: BoolExpr)
    requires Positions.Distinct(bucket)
    ensures |bucket| <= |Collect(bucket, e)| && Collect(bucket, e)[..|bucket|] == bucket
    ensures Positions.Distinct(Collect(bucket, e))
    decreases e, 1
  {
    match e
    case All(cs) => CollectAllExtends(bucket, cs);
    case Any(cs) => CollectAllExtends(bucket, cs);
    case Gt(l, r) => AddPairExtends(bucket, l, r);
    case Lt(l, r) => AddPairExtends(bucket, l, r);
    case CrossOver(l, r) => AddPairExtends(bucket, l, r);
    case CrossUnder(l, r) => AddPairExtends(bucket, l, r);
    case _ =>
  }

  lemma {:induction false} CollectAllExtends(bucket: seq<string>, cs: seq<BoolExpr>)
    requires Positions.Distinct(bucket)
    ensures |bucket| <= |CollectAll(bucket, cs)| && CollectAll(bucket, cs)[..|bucket|] == bucket
    ensures Positions.Distinct(CollectAll(bucket, cs))
    decreases cs, 0
  {
    if cs != [] {
      var mid := CollectAll(bucket, cs[..|cs| - 1]);
      CollectAllExtends(bucket, cs[..|cs| - 1]);
      CollectExtends(mid, cs[|cs| - 1]);
      var r := Collect(mid, cs[|cs| - 1]);
      assert r[..|bucket|] == r[..|mid|][..|bucket|];
    }
  }

  /** Collecting two lists one after the other is collecting their concatenation. */
  lemma {:induction false} CollectAllAppend(bucket: seq<string>, xs: seq<BoolExpr>, ys: seq<BoolExpr>)
    ensures CollectAll(bucket, xs + ys) == CollectAll(CollectAll(bucket, xs), ys)
    decreases |ys|
  {
    if ys == [] {
      assert xs + ys == xs;
    } else {
      var init := ys[..|ys| - 1];
      CollectAllAppend(bucket, xs, init);
      assert (xs + ys)[..|xs + ys| - 1] == xs + init;
      assert (xs + ys)[|xs + ys| - 1] == ys[|ys| - 1];
    }
  }

  lemma AddOperandExtends(bucket: seq<string>, o: Operand)
    requires Positions.Distinct(bucket)
    ensures |bucket| <= |AddOperand(bucket, o)| && AddOperand(bucket, o)[..|bucket|] == bucket
    ensures Positions.Distinct(AddOperand(bucket, o))
  {
    if o.Ref? && StartsWith(o.name, "@") && o.name !in bucket {
      Positions.ElemsMembers(bucket);
      Positions.DistinctSnoc(bucket, o.name);
      assert (bucket + [o.name])[..|bucket|] == bucket;
    }
  }

  lemma AddPairExtends(bucket: seq<string>, l: Operand, r: Operand)
    requires Positions.Distinct(bucket)
    ensures |bucket| <= |AddOperand(AddOperand(bucket, l), r)|
    ensures AddOperand(AddOperand(bucket, l), r)[..|bucket|] == bucket
    ensures Positions.Distinct(AddOperand(AddOperand(bucket, l), r))
  {
    var mid := AddOperand(bucket, l);
    AddOperandExtends(bucket, l);
    AddOperandExtends(mid, r);
    var res := AddOperand(mid, r);
    assert res[..|bucket|] == res[..|mid|][..|bucket|];
  }

  /** A `Set<string>`, as its contents in insertion order, which is the order `for ... of` visits. */
  class Bucket {
    var items: seq<string>

    constructor ()
      ensures items == []
    {
      items := [];
    }

    /** `Set.prototype.add` */
    method Add(x: string)
      modifies this
      ensures items == if x in old(items) then old(items) else old(items) + [x]
    {
      if x !in items {
        items := items + [x];
      }
    }
  }

  /** `collectOperands(expr, bucket)`, which adds to the set in place. */
  method CollectOperands(e: BoolExpr, bucket: Bucket)
    modifies bucket
    ensures bucket.items == Collect(old(bucket.items), e)
    decreases e, 1
  {
    match e {
      case All(cs) => CollectEach(cs, bucket);
      case Any(cs) => CollectEach(cs, bucket);
      case Gt(l, r) => AddOperands(l, r, bucket);
      case Lt(l, r) => AddOperands(l, r, bucket);
      case CrossOver(l, r) => AddOperands(l, r, bucket);
      case CrossUnder(l, r) => AddOperands(l, r, bucket);
      case _ =>
    }
  }

  /** `children.forEach((child) => collectOperands(child, bucket))` */
  method CollectEach(cs: seq<BoolExpr>, bucket: Bucket)
    modifies bucket
    ensures bucket.items == CollectAll(old(bucket.items), cs)
    decreases cs, 0
  {
    ghost var start := bucket.items;
    for i := 0 to |cs|
      invariant bucket.items == CollectAll(start, cs[..i])
    {
      assert cs[..i + 1][..i] == cs[..i];
      CollectOperands(cs[i], bucket);
    }
    assert cs[..|cs|] == cs;
  }

  /** `tuple.forEach(...)`: each string operand starting with `@` is added, left first. */
  method AddOperands(l: Operand, r: Operand, bucket: Bucket)
    modifies bucket
    ensures bucket.items == AddOperand(AddOperand(old(bucket.items), l), r)
  {
    if l.Ref? && StartsWith(l.name, "@") {
      bucket.Add(l.name);
    }
    if r.Ref? && StartsWith(r.name, "@") {
      bucket.Add(r.name);
    }
  }

  // -----------------------------------------------------------------------------------------------
  // The schema (lib/validate.ts:5-112)

  /** A schema issue: where it is and what it says. */
  datatype Issue = Issue(path: seq<string>, message: string)

  /** Stands for the message zod writes for a failed built-in check (lengths and bounds). */
  const Invalid := "Invalid input"
  const IdMessage := "Indicator id must start with @ and contain alphanumerics"
  const DateMessage := "Invalid ISO date"
  const OutcomeMessage := "Entry action must include at least one outcome"
  const CloseMessage := "Exit action must include close"

  const DuplicateHead := "Duplicate indicator id: "

  function DuplicateMessage(id: string): string {
    DuplicateHead + id
  }

  /** One check: no issue when it passes, its issue when it fails. */
  function Check(ok: bool, path: seq<string>, message: string): (r: seq<Issue>)
    ensures r == [] <==> ok
  {
    if ok then [] else [Issue(path, message)]
  }

  /** The issues of every element of an array, in order; `check` gets the index too. */
  function Each<T>(xs: seq<T>, check: (nat, T) -> seq<Issue>): seq<Issue> {
    if xs == [] then [] else Each(xs[..|xs| - 1], check) + check(|xs| - 1, xs[|xs| - 1])
  }

  lemma {:induction false} EachNone<T>(xs: seq<T>, check: (nat, T) -> seq<Issue>)
    ensures Each(xs, check) == [] <==> forall i | 0 <= i < |xs| :: check(i, xs[i]) == []
  {
    if xs != [] {
      var init := xs[..|xs| - 1];
      EachNone(init, check);
      if Each(xs, check) == [] {
        forall i | 0 <= i < |xs| ensures check(i, xs[i]) == [] {
          if i < |init| {
            assert init[i] == xs[i];
          }
        }
      } else if Each(init, check) != [] {
        var i :| 0 <= i < |init| && check(i, init[i]) != [];
        assert init[i] == xs[i];
      }
    }
  }

  lemma {:induction false} EachHas<T>(xs: seq<T>, check: (nat, T) -> seq<Issue>, i: nat, x: Issue)
    requires i < |xs| && x in check(i, xs[i])
    ensures x in Each(xs, check)
  {
    var init := xs[..|xs| - 1];
    if i < |init| {
      assert init[i] == xs[i];
      EachHas(init, check, i, x);
    }
  }

  predicate Fraction(p: Option<real>) {
    p.Some? ==> 0.0 <= p.value <= 1.0
  }

  /** A bound in [0, 1] on an optional number, each side a check of its own. */
  function FractionIssues(p: Option<real>, path: seq<string>): (r: seq<Issue>)
    ensures r == [] <==> Fraction(p)
  {
    if p.None? then [] else Check(p.value >= 0.0, path, Invalid) + Check(p.value <= 1.0, path, Invalid)
  }

  predicate MetaOk(m: Meta) {
    |m.name| >= 1 && m.version >= 1
  }

  function MetaIssues(m: Meta): (r: seq<Issue>)
    ensures r == [] <==> MetaOk(m)
  {
    Check(|m.name| >= 1, ["meta", "name"], Invalid) + Check(m.version >= 1, ["meta", "version"], Invalid)
  }

  /** One to fifty symbols, none of them empty. */
  predicate UniverseOk(u: seq<string>) {
    1 <= |u| <= 50 && forall i | 0 <= i < |u| :: u[i] != ""
  }

  function SymbolIssues(i: nat, sym: string): (r: seq<Issue>)
    ensures r == [] <==> sym != ""
  {
    Check(|sym| >= 1, ["universe", NatToString(i)], Invalid)
  }

  /** The array's length is checked before its elements. */
  function UniverseIssues(u: seq<string>): (r: seq<Issue>)
    ensures r == [] <==> UniverseOk(u)
  {
    EachNone(u, SymbolIssues);
    Check(|u| >= 1, ["universe"], Invalid) + Check(|u| <= 50, ["universe"], Invalid) + Each(u, SymbolIssues)
  }

  /** Both dates are ones `Date.parse` reads. */
  predicate WindowOk(w: Window, rt: Host.Runtime) {
    rt.parseDate(w.start).Some? && rt.parseDate(w.end).Some?
  }

  function WindowIssues(w: Window, rt: Host.Runtime): (r: seq<Issue>)
    ensures r == [] <==> WindowOk(w, rt)
  {
    Check(rt.parseDate(w.start).Some?, ["window", "start"], DateMessage)
    + Check(rt.parseDate(w.end).Some?, ["window", "end"], DateMessage)
  }

  predicate CapitalOk(c: Capital) {
    c.startingCash > 0.0 && c.commission >= 0.0 && 0.0 <= c.slippagePct <= 0.05
  }

  function CapitalIssues(c: Capital): (r: seq<Issue>)
    ensures r == [] <==> CapitalOk(c)
  {
    Check(c.startingCash > 0.0, ["capital", "starting_cash"], Invalid)
    + Check(c.commission >= 0.0, ["capital", "commission"], Invalid)
    + Check(c.slippagePct >= 0.0, ["capital", "slippage_pct"], Invalid)
    + Check(c.slippagePct <= 0.05, ["capital", "slippage_pct"], Invalid)
  }

  predicate RiskOk(r: Risk) {
    && 0.0 <= r.maxAllocationPct <= 1.0 && r.maxPositions >= 1
    && Fraction(r.stopLossPct) && Fraction(r.takeProfitPct)
  }

  function RiskIssues(r: Risk): (issues: seq<Issue>)
    ensures issues == [] <==> RiskOk(r)
  {
    Check(r.maxAllocationPct >= 0.0, ["risk", "max_allocation_pct"], Invalid)
    + Check(r.maxAllocationPct <= 1.0, ["risk", "max_allocation_pct"], Invalid)
    + Check(r.maxPositions >= 1, ["risk", "max_positions"], Invalid)
    + FractionIssues(r.stopLossPct, ["risk", "stop_loss_pct"])
    + FractionIssues(r.takeProfitPct, ["risk", "take_profit_pct"])
  }

  /** An id is checked for length, then against the pattern. */
  function IdIssues(i: nat, d: IndicatorDef): (r: seq<Issue>)
    ensures r == [] <==> IdShape(d.id)
  {
    Check(|d.id| >= 1, ["indicators", NatToString(i), "id"], Invalid)
    + Check(IdShape(d.id), ["indicators", NatToString(i), "id"], IdMessage)
  }

  /** No two definitions share an id. */
  predicate DistinctIds(defs: seq<IndicatorDef>) {
    forall i, j | 0 <= i < j < |defs| :: defs[i].id != defs[j].id
  }

  /** The `superRefine` over the definitions: one issue for every definition whose id an earlier one
      already has. */
  function DuplicateIssues(defs: seq<IndicatorDef>): seq<Issue> {
    if defs == [] then []
    else
      var init := defs[..|defs| - 1];
      var id := defs[|defs| - 1].id;
      DuplicateIssues(init) + (if id in Ids(init) then [Issue(["indicators"], DuplicateMessage(id))] else [])
  }

  /** The duplicate check reports nothing exactly when the ids are distinct. */
  lemma {:induction false} DuplicateIssuesNone(defs: seq<IndicatorDef>)
    ensures DuplicateIssues(defs) == [] <==> DistinctIds(defs)
  {
    if defs != [] {
      var init := defs[..|defs| - 1];
      var last := |defs| - 1;
      DuplicateIssuesNone(init);
      IdsMembers(init);
      if DuplicateIssues(defs) == [] {
        forall i, j | 0 <= i < j < |defs| ensures defs[i].id != defs[j].id {
          assert defs[i] == init[i];
          if j < last {
            assert defs[j] == init[j];
          }
        }
      } else if DuplicateIssues(init) == [] {
        var i :| 0 <= i < |init| && init[i].id == defs[last].id;
        assert defs[i] == init[i];
      } else {
        var i, j :| 0 <= i < j < |init| && init[i].id == init[j].id;
        assert defs[i] == init[i] && defs[j] == init[j];
      }
    }
  }

  /** A definition whose id an earlier one has produces a duplicate issue naming the id. */
  lemma {:induction false} DuplicateReported(defs: seq<IndicatorDef>, i: nat, j: nat)
    requires i < j < |defs| && defs[i].id == defs[j].id
    ensures Issue(["indicators"], DuplicateMessage(defs[j].id)) in DuplicateIssues(defs)
  {
    var init := defs[..|defs| - 1];
    if j < |defs| - 1 {
      assert init[i] == defs[i] && init[j] == defs[j];
      DuplicateReported(init, i, j);
    } else {
      IdsMembers(init);
      assert init[i] == defs[i];
    }
  }

  /** The `superRefine` loop: a `seen` set and the issues found so far. */
  method CheckDuplicates(defs: seq<IndicatorDef>) returns (issues: seq<Issue>)
    ensures issues == DuplicateIssues(defs)
  {
    var seen: set<string> := {};
    issues := [];
    for k := 0 to |defs|
      invariant seen == Ids(defs[..k])
      invariant issues == DuplicateIssues(defs[..k])
    {
      assert defs[..k + 1][..k] == defs[..k];
      if defs[k].id in seen {
        issues := issues + [Issue(["indicators"], DuplicateMessage(defs[k].id))];
      }
      seen := seen + {defs[k].id};
    }
    assert defs[..|defs|] == defs;
  }

  /** Every id has the pattern, and no two are equal. */
  predicate IndicatorsOk(defs: seq<IndicatorDef>) {
    (forall i | 0 <= i < |defs| :: IdShape(defs[i].id)) && DistinctIds(defs)
  }

  function IndicatorIssues(defs: seq<IndicatorDef>): (r: seq<Issue>)
    ensures r == [] <==> IndicatorsOk(defs)
  {
    EachNone(defs, IdIssues);
    DuplicateIssuesNone(defs);
    Each(defs, IdIssues) + DuplicateIssues(defs)
  }

  function TickerIssues(ticker: string, path: seq<string>): (r: seq<Issue>)
    ensures r == [] <==> ticker != ""
  {
    Check(ticker != "", path + ["ticker"], Invalid)
  }

  /** An entry's `then`: its tickers are non-empty, its percentage is a fraction, and it does
      something. */
  predicate EntryActionOk(a: EntryAction) {
    && (a.buy.Some? ==> a.buy.value.ticker != "" && Fraction(a.buy.value.sizing.pct))
    && (a.close.Some? ==> a.close.value.ticker != "")
    && (a.buy.Some? || a.close.Some? || a.rebalance)
  }

  function BuyIssues(b: Option<ActionBuy>, path: seq<string>): (r: seq<Issue>)
    ensures r == [] <==> (b.Some? ==> b.value.ticker != "" && Fraction(b.value.sizing.pct))
  {
    if b.None? then []
    else TickerIssues(b.value.ticker, path + ["buy"]) + FractionIssues(b.value.sizing.pct, path + ["buy", "sizing", "pct"])
  }

  function CloseIssues(c: Option<ActionClose>, path: seq<string>): (r: seq<Issue>)
    ensures r == [] <==> (c.Some? ==> c.value.ticker != "")
  {
    if c.None? then [] else TickerIssues(c.value.ticker, path + ["close"])
  }

  /** The keys of `then` in schema order (`buy`, `rebalance`, `close`), then its refinement. */
  function EntryIssues(i: nat, e: EntryRule): (r: seq<Issue>)
    ensures r == [] <==> EntryActionOk(e.act)
  {
    var path := ["entries", NatToString(i), "then"];
    BuyIssues(e.act.buy, path) + CloseIssues(e.act.close, path)
    + Check(e.act.buy.Some? || e.act.close.Some? || e.act.rebalance, path, OutcomeMessage)
  }

  predicate EntriesOk(entries: seq<EntryRule>) {
    forall i | 0 <= i < |entries| :: EntryActionOk(entries[i].act)
  }

  function EntriesIssues(entries: seq<EntryRule>): (r: seq<Issue>)
    ensures r == [] <==> EntriesOk(entries)
  {
    EachNone(entries, EntryIssues);
    Each(entries, EntryIssues)
  }

  /** An exit's `then` closes a non-empty ticker. */
  predicate ExitActionOk(a: ExitAction) {
    a.close.Some? && a.close.value.ticker != ""
  }

  function ExitIssues(i: nat, x: ExitRule): (r: seq<Issue>)
    ensures r == [] <==> ExitActionOk(x.act)
  {
    var path := ["exits", NatToString(i), "then"];
    CloseIssues(x.act.close, path) + Check(x.act.close.Some?, path, CloseMessage)
  }

  predicate ExitsOk(exits: seq<ExitRule>) {
    forall i | 0 <= i < |exits| :: ExitActionOk(exits[i].act)
  }

  function ExitsIssues(exits: seq<ExitRule>): (r: seq<Issue>)
    ensures r == [] <==> ExitsOk(exits)
  {
    EachNone(exits, ExitIssues);
    Each(exits, ExitIssues)
  }

  /** What the schema demands of a strategy, part by part. */
  predicate WellFormed(s: Strategy, rt: Host.Runtime) {
    && MetaOk(s.meta) && UniverseOk(s.universe) && WindowOk(s.window, rt) && CapitalOk(s.capital)
    && RiskOk(s.risk) && IndicatorsOk(s.indicators) && EntriesOk(s.entries) && ExitsOk(s.exits)
  }

  /** `strategySchema.safeParse(strategy).error.issues`, key by key in schema order. `schedule` and
      the rule expressions never fail here. The schema reports nothing exactly when the strategy is
      well formed. */
  function Issues(s: Strategy, rt: Host.Runtime): (r: seq<Issue>)
    ensures r == [] <==> WellFormed(s, rt)
  {
    MetaIssues(s.meta) + UniverseIssues(s.universe) + WindowIssues(s.window, rt)
    + CapitalIssues(s.capital) + RiskIssues(s.risk) + IndicatorIssues(s.indicators)
    + EntriesIssues(s.entries) + ExitsIssues(s.exits)
  }

  // -----------------------------------------------------------------------------------------------
  // validateStrategy (lib/validate.ts:134-170)

  /** `{ ok: true }` or `{ ok: false, errors }`. */
  datatype Verdict = Accepted | Rejected(errors: seq<string>)

  /** `${issue.path.join(".") || "root"}: ${issue.message}` */
  function Format(issue: Issue): string {
    (if issue.path == [] then "root" else Join(issue.path, ".")) + ": " + issue.message
  }

  function Messages(issues: seq<Issue>): seq<string> {
    seq(|issues|, k requires 0 <= k < |issues| => Format(issues[k]))
  }

  /** How the issues these lemmas name read once formatted. */
  lemma DuplicateLine(id: string)
    ensures Format(Issue(["indicators"], DuplicateMessage(id))) == "indicators: " + DuplicateHead + id
  {
  }

  lemma ThenLine(rules: string, i: nat, message: string)
    ensures Format(Issue([rules, NatToString(i), "then"], message))
      == rules + "." + NatToString(i) + ".then: " + message
  {
    var path := [rules, NatToString(i), "then"];
    assert path[..2][..1] == [rules] && path[..2] == [rules, NatToString(i)];
    assert Join(path[..1], ".") == rules;
    assert Join(path[..2], ".") == rules + "." + NatToString(i);
    assert Join(path, ".") == rules + "." + NatToString(i) + "." + "then";
  }

  const WindowMessage := "window.end must be after window.start"

  const UndeclaredHead := "Reference to undefined indicator "

  function UndeclaredMessage(ref: string): string {
    UndeclaredHead + ref
  }

  const LengthHead := "window length must be at least "
  const LengthTail := " days to cover indicator warmup + 252 sessions"

  function LengthMessage(need: int): string {
    LengthHead + IntToString(need) + LengthTail
  }

  /** The parsed `when` of each rule, in order. */
  function Conditions<A>(rules: seq<Rule<A>>): (cs: seq<BoolExpr>)
    ensures |cs| == |rules|
    ensures forall i | 0 <= i < |rules| :: cs[i] == Parsed(rules[i].when)
  {
    if rules == [] then [] else [Parsed(rules[0].when)] + Conditions(rules[1..])
  }

  /** The parsed rule expressions, those of the entries before those of the exits. */
  function Whens(s: Strategy): (ws: seq<BoolExpr>)
    ensures |ws| == |s.entries| + |s.exits|
  {
    Conditions(s.entries) + Conditions(s.exits)
  }

  /** The `referenced` set, in insertion order. */
  function Referenced(s: Strategy): seq<string> {
    CollectAll([], Whens(s))
  }

  /** The first string of `refs` that is not in `ids`. */
  function FirstUndeclared(refs: seq<string>, ids: set<string>): (r: Option<string>)
    ensures r.None? <==> forall k | 0 <= k < |refs| :: refs[k] in ids
    ensures r.Some? ==> r.value in refs && r.value !in ids
  {
    if refs == [] then None
    else if refs[0] !in ids then Some(refs[0])
    else
      var rest := FirstUndeclared(refs[1..], ids);
      assert forall k | 1 <= k < |refs| :: refs[k] == refs[1..][k - 1];
      rest
  }

  /** `indicators.reduce((max, ind) => Math.max(max, warmupPeriods[ind.fn](ind.args)), 0)` */
  function MaxWarmup(defs: seq<IndicatorDef>): (m: int)
    ensures m >= 0
    ensures forall i | 0 <= i < |defs| :: Indicators.Warmup(defs[i].fn, defs[i].period) <= m
    ensures m == 0 || exists i | 0 <= i < |defs| :: Indicators.Warmup(defs[i].fn, defs[i].period) == m
  {
    if defs == [] then 0
    else
      var init := defs[..|defs| - 1];
      var w := Indicators.Warmup(defs[|defs| - 1].fn, defs[|defs| - 1].period);
      var m := MaxWarmup(init);
      assert forall i | 0 <= i < |init| :: init[i] == defs[i];
      if w > m then w else m
  }

  /** The milliseconds of a day, `1000 * 60 * 60 * 24`. */
  const DayMs := 86_400_000

  /** `validateStrategy(strategy)`: the schema first; the other checks see the window's instants,
      which the schema has made sure `Date.parse` reads (0 stands in otherwise). */
  function Validation(s: Strategy, rt: Host.Runtime): Verdict {
    var issues := Issues(s, rt);
    if issues != [] then Rejected(Messages(issues))
    else OrderedChecks(s, rt.parseDate(s.window.start).GetOr(0), rt.parseDate(s.window.end).GetOr(0))
  }

  /** After the schema: the window's order, then the references in the order they were collected,
      then the window's length in whole days; the first failure is the verdict. */
  function OrderedChecks(s: Strategy, start: int, end: int): Verdict {
    if end <= start then Rejected([WindowMessage])
    else
      match FirstUndeclared(Referenced(s), Ids(s.indicators))
      case Some(ref) => Rejected([UndeclaredMessage(ref)])
      case None => LengthCheck(MaxWarmup(s.indicators), (end - start) / DayMs)
  }

  /** The window must span the longest warmup and 252 sessions more. */
  function LengthCheck(maxWarmup: int, days: int): (v: Verdict)
    ensures v == Accepted <==> days >= maxWarmup + 252
  {
    if days < maxWarmup + 252 then Rejected([LengthMessage(maxWarmup + 252)]) else Accepted
  }

  method ValidateStrategy(s: Strategy, rt: Host.Runtime) returns (v: Verdict)
    ensures v == Validation(s, rt)
  {
    var issues := Issues(s, rt);
    if issues != [] {
      return Rejected(Messages(issues));
    }
    var start := rt.parseDate(s.window.start).GetOr(0);
    var end := rt.parseDate(s.window.end).GetOr(0);
    v := CheckOrdered(s, start, end);
  }

  /** The checks of `validateStrategy` after the schema, each returning on the first failure. */
  method CheckOrdered(s: Strategy, start: int, end: int) returns (v: Verdict)
    ensures v == OrderedChecks(s, start, end)
  {
    if end <= start {
      return Rejected([WindowMessage]);
    }
    var referenced := CollectReferences(s);
    var undeclared := FindUndeclared(referenced, Ids(s.indicators));
    if undeclared.Some? {
      return Rejected([UndeclaredMessage(undeclared.value)]);
    }
    var days := (end - start) / DayMs;
    var maxWarmup := MaxWarmup(s.indicators);
    if days < maxWarmup + 252 {
      return Rejected([LengthMessage(maxWarmup + 252)]);
    }
    return Accepted;
  }

  /** `entries.forEach(...)` then `exits.forEach(...)` into a fresh `referenced` set. */
  method CollectReferences(s: Strategy) returns (refs: seq<string>)
    ensures refs == Referenced(s)
  {
    var referenced := new Bucket();
    CollectRules(s.entries, referenced);
    CollectRules(s.exits, referenced);
    refs := referenced.items;
    CollectAllAppend([], Conditions(s.entries), Conditions(s.exits));
  }

  /** `entries.forEach(...)` or `exits.forEach(...)`: each rule's references, in order. */
  method CollectRules<A>(rules: seq<Rule<A>>, bucket: Bucket)
    modifies bucket
    ensures bucket.items == CollectAll(old(bucket.items), Conditions(rules))
  {
    ghost var start := bucket.items;
    ghost var conds := Conditions(rules);
    for i := 0 to |rules|
      invariant bucket.items == CollectAll(start, conds[..i])
    {
      CollectRule(start, conds, i, Parsed(rules[i].when), bucket);
    }
    assert conds[..|rules|] == conds;
  }

  /** The references of the rule `ws[i]` go into the bucket the rules before it filled. */
  method CollectRule(ghost start: seq<string>, ghost ws: seq<BoolExpr>, ghost i: int, e: BoolExpr,
                     bucket: Bucket)
    requires 0 <= i < |ws| && e == ws[i]
    requires bucket.items == CollectAll(start, ws[..i])
    modifies bucket
    ensures bucket.items == CollectAll(start, ws[..i + 1])
  {
    assert ws[..i + 1][..i] == ws[..i];
    CollectOperands(e, bucket);
  }

  /** `for (const ref of referenced) if (!indicatorIds.has(ref)) return ...` */
  method FindUndeclared(refs: seq<string>, ids: set<string>) returns (r: Option<string>)
    ensures r == FirstUndeclared(refs, ids)
  {
    var k := 0;
    while k < |refs|
      invariant k <= |refs|
      invariant FirstUndeclared(refs[k..], ids) == FirstUndeclared(refs, ids)
    {
      if refs[k] !in ids {
        return Some(refs[k]);
      }
      assert refs[k..][1..] == refs[k + 1..];
      k := k + 1;
    }
    return None;
  }

  // -----------------------------------------------------------------------------------------------
  // What an accepted strategy satisfies, and which message each failure produces

  /** A `@` string is referenced exactly when it is among the references of a parsed rule. */
  predicate InRules(s: Strategy, x: string) {
    exists k | 0 <= k < |Whens(s)| :: x in Evaluator.Refs(Whens(s)[k])
  }

  lemma {:induction false} RefsOfAllExists(cs: seq<BoolExpr>, x: string)
    ensures x in Evaluator.RefsOfAll(cs) <==> exists k | 0 <= k < |cs| :: x in Evaluator.Refs(cs[k])
  {
    if cs != [] {
      RefsOfAllExists(cs[1..], x);
      if exists k | 0 <= k < |cs| :: x in Evaluator.Refs(cs[k]) {
        var k :| 0 <= k < |cs| && x in Evaluator.Refs(cs[k]);
        if k > 0 {
          assert cs[1..][k - 1] == cs[k];
        }
      }
      if x in Evaluator.RefsOfAll(cs[1..]) {
        var k :| 0 <= k < |cs[1..]| && x in Evaluator.Refs(cs[1..][k]);
        assert cs[1..][k] == cs[k + 1];
      }
    }
  }

  lemma ReferencedMembers(s: Strategy, x: string)
    ensures x in Referenced(s) <==> StartsWith(x, "@") && InRules(s, x)
  {
    CollectAllMembers([], Whens(s));
    RefsOfAllExists(Whens(s), x);
  }

  /** Every `@` reference of the parsed rules names a declared indicator. */
  predicate Declared(s: Strategy) {
    forall k, x | 0 <= k < |Whens(s)| && x in Evaluator.Refs(Whens(s)[k]) && StartsWith(x, "@") ::
      x in Ids(s.indicators)
  }

  lemma DeclaredIff(s: Strategy)
    ensures Declared(s) <==> FirstUndeclared(Referenced(s), Ids(s.indicators)).None?
  {
    var refs := Referenced(s);
    if Declared(s) {
      forall k | 0 <= k < |refs| ensures refs[k] in Ids(s.indicators) {
        ReferencedMembers(s, refs[k]);
      }
    } else {
      var k, x :| 0 <= k < |Whens(s)| && x in Evaluator.Refs(Whens(s)[k]) && StartsWith(x, "@")
        && x !in Ids(s.indicators);
      ReferencedMembers(s, x);
      var m :| 0 <= m < |refs| && refs[m] == x;
    }
  }

  /** What `{ ok: true }` guarantees: the schema holds, the window runs forwards, every reference is
      declared, and the window spans the longest warmup and 252 sessions more, in whole days. */
  predicate Admissible(s: Strategy, rt: Host.Runtime) {
    && WellFormed(s, rt)
    && rt.parseDate(s.window.start).value < rt.parseDate(s.window.end).value
    && Declared(s)
    && (rt.parseDate(s.window.end).value - rt.parseDate(s.window.start).value) / DayMs
         >= MaxWarmup(s.indicators) + 252
  }

  /** Once the schema passes, the verdict is that of the ordered checks. */
  lemma SchemaPassed(s: Strategy, rt: Host.Runtime)
    requires WellFormed(s, rt)
    ensures Validation(s, rt) ==
      OrderedChecks(s, rt.parseDate(s.window.start).value, rt.parseDate(s.window.end).value)
  {
  }

  lemma OrderedAccepted(s: Strategy, start: int, end: int)
    ensures OrderedChecks(s, start, end) == Accepted <==>
      start < end && Declared(s) && (end - start) / DayMs >= MaxWarmup(s.indicators) + 252
  {
    DeclaredIff(s);
  }

  lemma ValidationAccepted(s: Strategy, rt: Host.Runtime)
    ensures Validation(s, rt) == Accepted <==> Admissible(s, rt)
  {
    if WellFormed(s, rt) {
      SchemaPassed(s, rt);
      OrderedAccepted(s, rt.parseDate(s.window.start).value, rt.parseDate(s.window.end).value);
    }
  }

  /** Every rule is checked by the schema: an issue anywhere rejects the strategy with one message
      per issue. */
  lemma IssueRejected(s: Strategy, rt: Host.Runtime, x: Issue)
    requires x in Issues(s, rt)
    ensures Validation(s, rt).Rejected? && Format(x) in Validation(s, rt).errors
  {
    var m :| 0 <= m < |Issues(s, rt)| && Issues(s, rt)[m] == x;
    assert Messages(Issues(s, rt))[m] == Format(x);
  }

  /** A repeated indicator id is reported under `indicators`. */
  lemma DuplicateRejected(s: Strategy, rt: Host.Runtime, i: nat, j: nat)
    requires i < j < |s.indicators| && s.indicators[i].id == s.indicators[j].id
    ensures Validation(s, rt).Rejected?
    ensures "indicators: " + DuplicateHead + s.indicators[j].id in Validation(s, rt).errors
  {
    var x := Issue(["indicators"], DuplicateMessage(s.indicators[j].id));
    DuplicateReported(s.indicators, i, j);
    IssueRejected(s, rt, x);
    DuplicateLine(s.indicators[j].id);
  }

  lemma OutcomeIssue(i: nat, e: EntryRule)
    requires e.act.buy.None? && e.act.close.None? && !e.act.rebalance
    ensures Issue(["entries", NatToString(i), "then"], OutcomeMessage) in EntryIssues(i, e)
  {
  }

  lemma CloseIssue(i: nat, x: ExitRule)
    requires x.act.close.None?
    ensures Issue(["exits", NatToString(i), "then"], CloseMessage) in ExitIssues(i, x)
  {
  }

  /** An entry that neither buys, closes nor rebalances is reported under its `then`. */
  lemma NoOutcomeRejected(s: Strategy, rt: Host.Runtime, i: nat)
    requires i < |s.entries|
    requires var a := s.entries[i].act; a.buy.None? && a.close.None? && !a.rebalance
    ensures Validation(s, rt).Rejected?
    ensures "entries." + NatToString(i) + ".then: " + OutcomeMessage in Validation(s, rt).errors
  {
    var x := Issue(["entries", NatToString(i), "then"], OutcomeMessage);
    assert Format(x) == "entries." + NatToString(i) + ".then: " + OutcomeMessage by {
      ThenLine("entries", i, OutcomeMessage);
      assert "entries" + "." == "entries.";
    }
    OutcomeIssue(i, s.entries[i]);
    EachHas(s.entries, EntryIssues, i, x);
    IssueRejected(s, rt, x);
  }

  /** An exit without `close` is reported under its `then`. */
  lemma NoCloseRejected(s: Strategy, rt: Host.Runtime, i: nat)
    requires i < |s.exits| && s.exits[i].act.close.None?
    ensures Validation(s, rt).Rejected?
    ensures "exits." + NatToString(i) + ".then: " + CloseMessage in Validation(s, rt).errors
  {
    var x := Issue(["exits", NatToString(i), "then"], CloseMessage);
    assert Format(x) == "exits." + NatToString(i) + ".then: " + CloseMessage by {
      ThenLine("exits", i, CloseMessage);
      assert "exits" + "." == "exits.";
    }
    CloseIssue(i, s.exits[i]);
    EachHas(s.exits, ExitIssues, i, x);
    IssueRejected(s, rt, x);
  }

  /** A well-formed strategy whose window does not run forwards gets the window message alone. */
  lemma WindowRejected(s: Strategy, rt: Host.Runtime)
    requires WellFormed(s, rt)
    requires rt.parseDate(s.window.end).value <= rt.parseDate(s.window.start).value
    ensures Validation(s, rt) == Rejected([WindowMessage])
  {
    SchemaPassed(s, rt);
  }

  lemma OrderedUndeclared(s: Strategy, start: int, end: int, x: string)
    requires start < end
    requires StartsWith(x, "@") && InRules(s, x) && x !in Ids(s.indicators)
    ensures exists y | y in Referenced(s) && y !in Ids(s.indicators) ::
      OrderedChecks(s, start, end) == Rejected([UndeclaredMessage(y)])
  {
    ReferencedMembers(s, x);
    var first := FirstUndeclared(Referenced(s), Ids(s.indicators));
    assert first.Some?;
    assert OrderedChecks(s, start, end) == Rejected([UndeclaredMessage(first.value)]);
  }

  /** Otherwise an undeclared `@` reference in a parsed rule gets the message naming one undeclared
      reference: the first one collected. */
  lemma UndeclaredRejected(s: Strategy, rt: Host.Runtime, x: string)
    requires WellFormed(s, rt)
    requires rt.parseDate(s.window.start).value < rt.parseDate(s.window.end).value
    requires StartsWith(x, "@") && InRules(s, x) && x !in Ids(s.indicators)
    ensures exists y | y in Referenced(s) && y !in Ids(s.indicators) ::
      Validation(s, rt) == Rejected([UndeclaredMessage(y)])
  {
    SchemaPassed(s, rt);
    OrderedUndeclared(s, rt.parseDate(s.window.start).value, rt.parseDate(s.window.end).value, x);
  }

  lemma OrderedShort(s: Strategy, start: int, end: int)
    requires start < end && Declared(s)
    requires (end - start) / DayMs < MaxWarmup(s.indicators) + 252
    ensures OrderedChecks(s, start, end) == Rejected([LengthMessage(MaxWarmup(s.indicators) + 252)])
  {
    DeclaredIff(s);
    OrderedLength(s, start, end);
  }

  /** With the window in order and every reference declared, only the length check is left. */
  lemma OrderedLength(s: Strategy, start: int, end: int)
    requires start < end && FirstUndeclared(Referenced(s), Ids(s.indicators)).None?
    ensures OrderedChecks(s, start, end) == LengthCheck(MaxWarmup(s.indicators), (end - start) / DayMs)
  {
  }

  /** Otherwise a window shorter than the longest warmup and 252 sessions gets the length message,
      which names the days needed. */
  lemma ShortWindowRejected(s: Strategy, rt: Host.Runtime)
    requires WellFormed(s, rt) && Declared(s)
    requires rt.parseDate(s.window.start).value < rt.parseDate(s.window.end).value
    requires (rt.parseDate(s.window.end).value - rt.parseDate(s.window.start).value) / DayMs
      < MaxWarmup(s.indicators) + 252
    ensures Validation(s, rt) == Rejected([LengthMessage(MaxWarmup(s.indicators) + 252)])
  {
    SchemaPassed(s, rt);
    OrderedShort(s, rt.parseDate(s.window.start).value, rt.parseDate(s.window.end).value);
  }
}
