/** The plain-language summary of a strategy: each rule's condition read out as a sentence, and
    the sizing of its buy as a phrase. */
module Summary {
  import opened Numeric
  import opened Types
  import opened Text
  import opened Host

  const AndSep := " AND "
  const OrSep := " OR "
  const GtWords := " is greater than "
  const LtWords := " is less than "
  const AboveWords := " crosses above "
  const BelowWords := " crosses below "
  const RiskStopText := "Risk stop triggered"
  const RiskTakeText := "Risk take-profit triggered"
  const Fallback := "condition"

  const NoSizing := "no sizing"
  const EqualWeightText := "equal weight of allowed capital"
  const PercentTail := "% of cash"
  const AllInText := "all remaining cash"

  /** A number as `toString` shows it; a reference without its leading "@"; any other name as is. */
  function DescribeOperand(o: Operand, rt: Runtime): (t: string)
    ensures o.Ref? && StartsWith(o.name, "@") ==> "@" + t == o.name
    ensures o.Ref? && !StartsWith(o.name, "@") ==> t == o.name
    ensures o.Lit? ==> t == rt.showNumber(o.value)
  {
    match o
    case Lit(x) => rt.showNumber(x)
    case Ref(name) => if StartsWith(name, "@") then name[1..] else name
  }

  /** A condition as a sentence: `all` joins its children's sentences with " AND ", `any` with
      " OR ", a comparison names both operands, a risk flag is a fixed sentence, and anything else
      reads "condition". */
  function Describe(e: BoolExpr, rt: Runtime): string
    decreases e, 1
  {
    match e
    case All(cs) => Join(Describes(cs, rt), AndSep)
    case Any(cs) => Join(Describes(cs, rt), OrSep)
    case Gt(l, r) => DescribeOperand(l, rt) + GtWords + DescribeOperand(r, rt)
    case Lt(l, r) => DescribeOperand(l, rt) + LtWords + DescribeOperand(r, rt)
    case CrossOver(l, r) => DescribeOperand(l, rt) + AboveWords + DescribeOperand(r, rt)
    case CrossUnder(l, r) => DescribeOperand(l, rt) + BelowWords + DescribeOperand(r, rt)
    case RiskStop => RiskStopText
    case RiskTake => RiskTakeText
    case Unrecognised => Fallback
  }

  /** The sentences of the children, in order. */
  function Describes(cs: seq<BoolExpr>, rt: Runtime): (r: seq<string>)
    ensures |r| == |cs|
    ensures forall i | 0 <= i < |cs| :: r[i] == Describe(cs[i], rt)
    decreases cs, 0
  {
    if cs == [] then [] else Describes(cs[..|cs| - 1], rt) + [Describe(cs[|cs| - 1], rt)]
  }

  /** A missing condition reads as nothing. */
  function DescribeWhen(e: Option<BoolExpr>, rt: Runtime): (t: string)
    ensures e == None ==> t == ""
    ensures e.Some? ==> t == Describe(e.value, rt)
  {
    match e
    case None => ""
    case Some(x) => Describe(x, rt)
  }

  /** The first child's sentence comes first, joined to the rest's by " AND ". */
  lemma AllCons(c: BoolExpr, cs: seq<BoolExpr>, rt: Runtime)
    requires cs != []
    ensures Describe(All([c] + cs), rt) == Describe(c, rt) + AndSep + Describe(All(cs), rt)
  {
    assert Describes([c] + cs, rt) == [Describe(c, rt)] + Describes(cs, rt);
    JoinCons(Describe(c, rt), Describes(cs, rt), AndSep);
  }

  /** The first child's sentence comes first, joined to the rest's by " OR ". */
  lemma AnyCons(c: BoolExpr, cs: seq<BoolExpr>, rt: Runtime)
    requires cs != []
    ensures Describe(Any([c] + cs), rt) == Describe(c, rt) + OrSep + Describe(Any(cs), rt)
  {
    assert Describes([c] + cs, rt) == [Describe(c, rt)] + Describes(cs, rt);
    JoinCons(Describe(c, rt), Describes(cs, rt), OrSep);
  }

  /** A group of one reads as its only child, whichever its mode; an empty group reads as nothing. */
  lemma GroupOfOne(c: BoolExpr, rt: Runtime)
    ensures Describe(All([c]), rt) == Describe(c, rt)
    ensures Describe(Any([c]), rt) == Describe(c, rt)
    ensures Describe(All([]), rt) == "" && Describe(Any([]), rt) == ""
  {
    assert Describes([c], rt) == [Describe(c, rt)];
  }

  /** Two indicator references compared read as the indicator names without their "@". */
  lemma ComparedNames(a: string, b: string, rt: Runtime)
    ensures Describe(Gt(Ref("@" + a), Ref("@" + b)), rt) == a + GtWords + b
    ensures Describe(Lt(Ref("@" + a), Ref("@" + b)), rt) == a + LtWords + b
    ensures Describe(CrossOver(Ref("@" + a), Ref("@" + b)), rt) == a + AboveWords + b
    ensures Describe(CrossUnder(Ref("@" + a), Ref("@" + b)), rt) == a + BelowWords + b
  {
    assert DescribeOperand(Ref("@" + a), rt) == a;
    assert DescribeOperand(Ref("@" + b), rt) == b;
  }

  /** `Math.round`: the nearest integer, halves rounded up. */
  function Round(x: real): (n: int)
    ensures n as real - 0.5 <= x < n as real + 0.5
  {
    (x + 0.5).Floor
  }

  /** The sizing of a buy as a phrase: none, equal weight, a whole percentage of cash (an absent
      percentage counting as 0), or all the cash. */
  function DescribeSizing(buy: Option<ActionBuy>): string {
    match buy
    case None => NoSizing
    case Some(b) =>
      match b.sizing.kind
      case EqualWeight => EqualWeightText
      case FixedPctCash => IntToString(Round(b.sizing.pct.GetOr(0.0) * 100.0)) + PercentTail
      case AllInSingle => AllInText
  }

  /** A fraction of cash from 0 to 1 shows as a percentage from 0 to 100. */
  lemma PercentBounds(pct: real)
    requires 0.0 <= pct <= 1.0
    ensures 0 <= Round(pct * 100.0) <= 100
  {
  }

  /** A whole percentage shows exactly; an absent one shows as "0% of cash". */
  lemma PercentExact(ticker: string, k: nat)
    ensures DescribeSizing(Some(ActionBuy(ticker, Sizing(FixedPctCash, Some(k as real / 100.0))))) ==
      NatToString(k) + PercentTail
    ensures DescribeSizing(Some(ActionBuy(ticker, Sizing(FixedPctCash, None)))) == NatToString(0) + PercentTail
  {
    assert (k as real / 100.0) * 100.0 == k as real;
    assert Round(k as real) == k;
  }
}
