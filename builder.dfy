/** The strategy editor's conversions: a rule's condition tree is shown as one flat group of
    condition rows (all of them must hold, or any of them), and the group is turned back into a
    condition tree when it is edited. The universe field is typed as comma-separated text and
    tokenised into ticker symbols. */
module Builder {
  import opened Numeric
  import opened Types
  import opened Text
  import opened Host

  datatype RowKind = GtRow | LtRow | CrossOverRow | CrossUnderRow | RiskStopRow | RiskTakeRow

  /** One editable condition; the operands are the text the user sees (absent for risk rows). */
  datatype Row = Row(id: string, kind: RowKind, left: Option<string>, right: Option<string>)

  datatype Mode = AllMode | AnyMode

  datatype Group = Group(mode: Mode, rows: seq<Row>)

  /** The operand of the row a nested or unrecognised condition is replaced by. */
  const CloseRef := "@close"

  predicate Comparison(e: BoolExpr) {
    e.Gt? || e.Lt? || e.CrossOver? || e.CrossUnder?
  }

  predicate Leaf(e: BoolExpr) {
    Comparison(e) || e.RiskStop? || e.RiskTake?
  }

  /** A number is shown with `toString`, a reference by its name. */
  function FormatOperand(o: Operand, rt: Runtime): (t: string)
    ensures o.Ref? ==> t == o.name
    ensures o.Lit? ==> t == rt.showNumber(o.value)
  {
    match o
    case Lit(x) => rt.showNumber(x)
    case Ref(name) => name
  }

  /** The row shown for one child of the top-level group. */
  function ConvertRow(item: BoolExpr, id: string, rt: Runtime): (r: Row)
    ensures r.id == id
    ensures Comparison(item) ==>
      r.left == Some(FormatOperand(item.left, rt)) && r.right == Some(FormatOperand(item.right, rt))
    ensures item.Gt? || !Leaf(item) <==> r.kind == GtRow
    ensures item.Lt? <==> r.kind == LtRow
    ensures item.CrossOver? <==> r.kind == CrossOverRow
    ensures item.CrossUnder? <==> r.kind == CrossUnderRow
    ensures item.RiskStop? <==> r.kind == RiskStopRow
    ensures item.RiskTake? <==> r.kind == RiskTakeRow
    ensures item.RiskStop? || item.RiskTake? ==> r.left == None && r.right == None
    ensures !Leaf(item) ==> r.left == Some(CloseRef) && r.right == Some("0")
  {
    match item
    case Gt(l, r) => Row(id, GtRow, Some(FormatOperand(l, rt)), Some(FormatOperand(r, rt)))
    case Lt(l, r) => Row(id, LtRow, Some(FormatOperand(l, rt)), Some(FormatOperand(r, rt)))
    case CrossOver(l, r) => Row(id, CrossOverRow, Some(FormatOperand(l, rt)), Some(FormatOperand(r, rt)))
    case CrossUnder(l, r) => Row(id, CrossUnderRow, Some(FormatOperand(l, rt)), Some(FormatOperand(r, rt)))
    case RiskStop => Row(id, RiskStopRow, None, None)
    case RiskTake => Row(id, RiskTakeRow, None, None)
    case _ => Row(id, GtRow, Some(CloseRef), Some("0"))
  }

  /** The rows shown for the children of a top-level group, numbered from "0". */
  function Rows(cs: seq<BoolExpr>, rt: Runtime): (rows: seq<Row>)
    ensures |rows| == |cs|
    ensures forall i | 0 <= i < |cs| :: rows[i] == ConvertRow(cs[i], NatToString(i), rt)
  {
    seq(|cs|, i requires 0 <= i < |cs| => ConvertRow(cs[i], NatToString(i), rt))
  }

  /** A condition tree as a flat group: the children of a top-level `all`/`any` become the rows, in
      order, numbered from "0"; any other expression becomes the one row of an `all` group. */
  function ToConditionGroup(e: BoolExpr, rt: Runtime): (g: Group)
    ensures e.All? || e.Any? ==> |g.rows| == |e.children|
    ensures e.All? || e.Any? ==> forall i | 0 <= i < |g.rows| :: g.rows[i] == ConvertRow(e.children[i], NatToString(i), rt)
    ensures !(e.All? || e.Any?) ==> g.rows == [ConvertRow(e, "0", rt)]
    ensures g.mode == AnyMode <==> e.Any?
  {
    match e
    case All(cs) => Group(AllMode, Rows(cs, rt))
    case Any(cs) => Group(AnyMode, Rows(cs, rt))
    case _ => Group(AllMode, [ConvertRow(e, "0", rt)])
  }

  /** The operand typed into a row: nothing or the empty text is 0, text starting with "@" is a
      reference, anything else is a number, or 0 when it does not parse to a finite number. */
  function ParseOperand(v: Option<string>, rt: Runtime): (o: Operand)
    ensures v.Some? && StartsWith(v.value, "@") <==> o.Ref?
    ensures o.Ref? ==> o.name == v.value
    ensures (v == None || v == Some("")) ==> o == Lit(0.0)
    ensures v.Some? && v.value != "" && !StartsWith(v.value, "@") ==>
      o == Lit(rt.parseNumber(v.value).GetOr(0.0))
  {
    if v == None || v.value == "" then Lit(0.0)
    else if StartsWith(v.value, "@") then Ref(v.value)
    else
      match rt.parseNumber(v.value)
      case Some(x) => Lit(x)
      case None => Lit(0.0)
  }

  /** The condition one row stands for. */
  function RowExpr(row: Row, rt: Runtime): (e: BoolExpr)
    ensures Leaf(e)
    ensures Comparison(e) ==> e.left == ParseOperand(row.left, rt) && e.right == ParseOperand(row.right, rt)
    ensures row.kind == GtRow <==> e.Gt?
    ensures row.kind == LtRow <==> e.Lt?
    ensures row.kind == CrossOverRow <==> e.CrossOver?
    ensures row.kind == CrossUnderRow <==> e.CrossUnder?
    ensures row.kind == RiskStopRow <==> e.RiskStop?
    ensures row.kind == RiskTakeRow <==> e.RiskTake?
  {
    var l := ParseOperand(row.left, rt);
    var r := ParseOperand(row.right, rt);
    match row.kind
    case GtRow => Gt(l, r)
    case LtRow => Lt(l, r)
    case CrossOverRow => CrossOver(l, r)
    case CrossUnderRow => CrossUnder(l, r)
    case RiskStopRow => RiskStop
    case RiskTakeRow => RiskTake
  }

  /** A group as a condition tree: one leaf per row, in order, under `all` or `any` by mode. */
  function ToBoolExpr(g: Group, rt: Runtime): (e: BoolExpr)
    ensures e.All? <==> g.mode == AllMode
    ensures e.All? || e.Any?
    ensures |e.children| == |g.rows|
    ensures forall i | 0 <= i < |g.rows| :: e.children[i] == RowExpr(g.rows[i], rt)
  {
    var rows := seq(|g.rows|, i requires 0 <= i < |g.rows| => RowExpr(g.rows[i], rt));
    match g.mode
    case AllMode => All(rows)
    case AnyMode => Any(rows)
  }

  /** Operand text that reads back as itself: a reference, or a number in the runtime's own
      spelling. */
  predicate Canonical(v: Option<string>, rt: Runtime) {
    v.Some? && v.value != "" &&
    (StartsWith(v.value, "@") ||
     (rt.parseNumber(v.value).Some? && rt.showNumber(rt.parseNumber(v.value).value) == v.value))
  }

  /** A row read back from the condition it stands for keeps its kind; a comparison row keeps its
      operands when they are canonical, and a risk row loses whatever operands it carried. */
  lemma RowRoundTrip(row: Row, id: string, rt: Runtime)
    ensures ConvertRow(RowExpr(row, rt), id, rt).kind == row.kind
    ensures ConvertRow(RowExpr(row, rt), id, rt).id == id
    ensures row.kind in {RiskStopRow, RiskTakeRow} ==>
      ConvertRow(RowExpr(row, rt), id, rt) == Row(id, row.kind, None, None)
    ensures !(row.kind in {RiskStopRow, RiskTakeRow}) && Canonical(row.left, rt) && Canonical(row.right, rt) ==>
      ConvertRow(RowExpr(row, rt), id, rt) == row.(id := id)
  {
  }

  /** Showing the tree a group stands for gives back the group: the same mode and kinds, ids
      renumbered "0", "1", ..., canonical comparison operands kept, and risk rows without operands. */
  lemma {:induction false} GroupRoundTrip(g: Group, rt: Runtime)
    ensures ToConditionGroup(ToBoolExpr(g, rt), rt).mode == g.mode
    ensures |ToConditionGroup(ToBoolExpr(g, rt), rt).rows| == |g.rows|
    ensures forall i | 0 <= i < |g.rows| ::
      ToConditionGroup(ToBoolExpr(g, rt), rt).rows[i] == ConvertRow(RowExpr(g.rows[i], rt), NatToString(i), rt)
    ensures forall i | 0 <= i < |g.rows| ::
      ToConditionGroup(ToBoolExpr(g, rt), rt).rows[i].kind == g.rows[i].kind &&
      ToConditionGroup(ToBoolExpr(g, rt), rt).rows[i].id == NatToString(i)
    ensures forall i | 0 <= i < |g.rows| && !(g.rows[i].kind in {RiskStopRow, RiskTakeRow}) &&
      Canonical(g.rows[i].left, rt) && Canonical(g.rows[i].right, rt) ::
      ToConditionGroup(ToBoolExpr(g, rt), rt).rows[i] == g.rows[i].(id := NatToString(i))
  {
    var e := ToBoolExpr(g, rt);
    var h := ToConditionGroup(e, rt);
    forall i | 0 <= i < |g.rows|
      ensures h.rows[i] == ConvertRow(RowExpr(g.rows[i], rt), NatToString(i), rt)
      ensures h.rows[i].kind == g.rows[i].kind && h.rows[i].id == NatToString(i)
      ensures (!(g.rows[i].kind in {RiskStopRow, RiskTakeRow}) && Canonical(g.rows[i].left, rt) &&
               Canonical(g.rows[i].right, rt)) ==> h.rows[i] == g.rows[i].(id := NatToString(i))
    {
      RowRoundTrip(g.rows[i], NatToString(i), rt);
    }
  }

  /** An operand that survives being shown and read back: a reference whose name starts with "@",
      or a number whose spelling is not empty, does not start with "@" and parses back to it. */
  predicate Survives(o: Operand, rt: Runtime) {
    match o
    case Ref(name) => StartsWith(name, "@")
    case Lit(x) =>
      rt.showNumber(x) != "" && !StartsWith(rt.showNumber(x), "@") && rt.parseNumber(rt.showNumber(x)) == Some(x)
  }

  /** A leaf whose operands survive. */
  predicate Editable(e: BoolExpr, rt: Runtime) {
    Leaf(e) && (Comparison(e) ==> Survives(e.left, rt) && Survives(e.right, rt))
  }

  lemma LeafRoundTrip(e: BoolExpr, id: string, rt: Runtime)
    requires Editable(e, rt)
    ensures RowExpr(ConvertRow(e, id, rt), rt) == e
  {
    if Comparison(e) {
      assert ParseOperand(Some(FormatOperand(e.left, rt)), rt) == e.left;
      assert ParseOperand(Some(FormatOperand(e.right, rt)), rt) == e.right;
    }
  }

  /** Reading back the group shown for a flat `all`/`any` of editable leaves gives the same tree. */
  lemma {:induction false} TreeRoundTrip(e: BoolExpr, rt: Runtime)
    requires e.All? || e.Any?
    requires forall i | 0 <= i < |e.children| :: Editable(e.children[i], rt)
    ensures ToBoolExpr(ToConditionGroup(e, rt), rt) == e
  {
    var g := ToConditionGroup(e, rt);
    var back := ToBoolExpr(g, rt);
    forall i | 0 <= i < |e.children|
      ensures back.children[i] == e.children[i]
    {
      LeafRoundTrip(e.children[i], NatToString(i), rt);
    }
    assert back.children == e.children;
  }

  /** A top-level editable leaf comes back wrapped in a one-child `all`. */
  lemma LeafWrapped(e: BoolExpr, rt: Runtime)
    requires Editable(e, rt)
    ensures ToBoolExpr(ToConditionGroup(e, rt), rt) == All([e])
  {
    LeafRoundTrip(e, "0", rt);
    var back := ToBoolExpr(ToConditionGroup(e, rt), rt);
    assert back.children == [e];
  }

  /** A nested group or an unrecognised condition under the top level is replaced by
      "@close greater than 0". */
  lemma NestedReplaced(e: BoolExpr, i: nat, rt: Runtime)
    requires e.All? || e.Any?
    requires i < |e.children| && !Leaf(e.children[i])
    ensures ToConditionGroup(e, rt).rows[i] == Row(NatToString(i), GtRow, Some(CloseRef), Some("0"))
  {
  }

  // The universe field

  /** One comma-separated piece, trimmed and upper-cased. */
  function Clean(piece: string): string {
    ToUpper(Trim(piece))
  }

  /** A cleaned piece is trimmed. */
  lemma CleanTrimmed(piece: string)
    ensures Trimmed(Clean(piece))
  {
    var s := Trim(piece);
    var t := ToUpper(s);
    if t != [] {
      UpperSpace(s[0]);
      UpperSpace(s[|s| - 1]);
    }
  }

  /** A cleaned piece has a comma only if the piece has one. */
  lemma CleanComma(piece: string)
    requires ',' !in piece
    ensures ',' !in Clean(piece)
  {
    TrimKeeps(piece, ',');
    UpperComma(Trim(piece));
  }

  /** A symbol is its own cleaned form. */
  lemma CleanSymbol(symbol: string)
    requires Symbol(symbol)
    ensures Clean(symbol) == symbol
  {
    TrimTrimmed(symbol);
    UpperNoLower(symbol);
  }

  /** A ticker symbol as the field yields it: not empty, trimmed, upper-case. */
  predicate Symbol(s: string) {
    s != "" && Trimmed(s) && NoLower(s)
  }

  predicate Symbols(parts: seq<string>) {
    forall k | 0 <= k < |parts| :: Symbol(parts[k])
  }

  predicate CommaFree(parts: seq<string>) {
    forall k | 0 <= k < |parts| :: ',' !in parts[k]
  }

  /** `xs.map(f)`. */
  function Mapped<A, B>(f: A -> B, xs: seq<A>): (r: seq<B>)
    ensures |r| == |xs|
  {
    if xs == [] then [] else Mapped(f, xs[..|xs| - 1]) + [f(xs[|xs| - 1])]
  }

  /** The mapped sequence holds the image of each element at its position. */
  lemma {:induction false} MappedAt<A, B>(f: A -> B, xs: seq<A>)
    ensures forall k | 0 <= k < |xs| :: Mapped(f, xs)[k] == f(xs[k])
  {
    if xs != [] {
      var init := xs[..|xs| - 1];
      MappedAt(f, init);
      assert forall k | 0 <= k < |init| :: xs[k] == init[k];
    }
  }

  /** Mapping two runs one after the other is mapping their concatenation. */
  lemma {:induction false} MappedAppend<A, B>(f: A -> B, p: seq<A>, q: seq<A>)
    ensures Mapped(f, p + q) == Mapped(f, p) + Mapped(f, q)
    decreases |q|
  {
    if q == [] {
      assert p + q == p;
    } else {
      var init := q[..|q| - 1];
      MappedAppend(f, p, init);
      assert (p + q)[..|p + q| - 1] == p + init;
      assert (p + q)[|p + q| - 1] == q[|q| - 1];
    }
  }

  /** Each piece trimmed and upper-cased, in order. */
  function Cleaned(pieces: seq<string>): (r: seq<string>)
    ensures |r| == |pieces|
    ensures forall k | 0 <= k < |r| :: r[k] == Clean(pieces[k])
  {
    MappedAt(Clean, pieces);
    Mapped(Clean, pieces)
  }

  /** Cleaning two runs of pieces is cleaning each. */
  lemma CleanedAppend(p: seq<string>, q: seq<string>)
    ensures Cleaned(p + q) == Cleaned(p) + Cleaned(q)
  {
    MappedAppend(Clean, p, q);
  }

  /** Every cleaned piece is trimmed and upper-case. */
  lemma CleanedShape(pieces: seq<string>)
    ensures forall k | 0 <= k < |pieces| :: Trimmed(Cleaned(pieces)[k]) && NoLower(Cleaned(pieces)[k])
  {
    forall k | 0 <= k < |pieces|
      ensures Trimmed(Cleaned(pieces)[k])
    {
      CleanTrimmed(pieces[k]);
    }
  }

  /** No cleaned piece has a comma when no piece has one. */
  lemma CleanedCommaFree(pieces: seq<string>)
    requires CommaFree(pieces)
    ensures CommaFree(Cleaned(pieces))
  {
    forall k | 0 <= k < |pieces|
      ensures ',' !in Cleaned(pieces)[k]
    {
      CleanComma(pieces[k]);
    }
  }

  /** The texts that are not empty, in order. */
  function NonEmpty(xs: seq<string>): (r: seq<string>)
    ensures |r| <= |xs|
    ensures forall k | 0 <= k < |r| :: r[k] != ""
  {
    if xs == [] then []
    else
      var t := NonEmpty(xs[..|xs| - 1]);
      if xs[|xs| - 1] == "" then t else t + [xs[|xs| - 1]]
  }

  /** Dropping the empty texts keeps the order: those of two runs are those of the first, then
      those of the second. */
  lemma {:induction false} NonEmptyAppend(xs: seq<string>, ys: seq<string>)
    ensures NonEmpty(xs + ys) == NonEmpty(xs) + NonEmpty(ys)
    decreases |ys|
  {
    if ys == [] {
      assert xs + ys == xs;
    } else {
      var init := ys[..|ys| - 1];
      assert (xs + ys)[..|xs + ys| - 1] == xs + init;
      assert (xs + ys)[|xs + ys| - 1] == ys[|ys| - 1];
      NonEmptyAppend(xs, init);
    }
  }

  /** Dropping the empty texts keeps only texts that were there: any property of them all holds of
      what is kept. */
  lemma {:induction false} NonEmptyKeeps(xs: seq<string>, p: string -> bool)
    requires forall k | 0 <= k < |xs| :: p(xs[k])
    ensures forall k | 0 <= k < |NonEmpty(xs)| :: p(NonEmpty(xs)[k])
  {
    if xs != [] {
      var init := xs[..|xs| - 1];
      NonEmptyKeeps(init, p);
      var t := NonEmpty(init);
      if xs[|xs| - 1] != "" {
        assert forall k | 0 <= k < |t| :: (t + [xs[|xs| - 1]])[k] == t[k];
      }
    }
  }

  /** The symbols typed as `value`: split at commas, each piece trimmed and upper-cased, empty
      pieces dropped. */
  function UniverseSymbols(value: string): seq<string> {
    NonEmpty(Cleaned(Split(value, ',')))
  }

  /** Every symbol the field yields is non-empty, trimmed, upper-case and without a comma. */
  lemma UniverseNormal(value: string)
    ensures NormalSymbols(UniverseSymbols(value))
  {
    var pieces := Split(value, ',');
    SplitFree(value, ',');
    CleanedShape(pieces);
    CleanedCommaFree(pieces);
    NonEmptyKeeps(Cleaned(pieces), s => Trimmed(s) && NoLower(s) && ',' !in s);
  }

  /** A symbol list in normal form (each symbol non-empty, trimmed, upper-case, without a comma). */
  predicate NormalSymbols(symbols: seq<string>) {
    CommaFree(symbols) && Symbols(symbols)
  }

  /** A symbol typed after ", " comes out of the field as itself. */
  lemma CleanSpaced(symbol: string)
    requires Symbol(symbol)
    ensures Clean(" " + symbol) == symbol
  {
    TrimSpace(' ', symbol);
    assert [' '] + symbol == " " + symbol;
    CleanSymbol(symbol);
  }

  /** The separator ", " is a comma followed by a space. */
  lemma CommaSpace(text: string, symbol: string)
    ensures text + ", " + symbol == text + [','] + (" " + symbol)
  {
  }

  /** An empty field is an empty universe. */
  lemma UniverseEmpty()
    ensures UniverseSymbols("") == []
  {
    assert Split("", ',') == [""];
    CleanedOne("");
    assert Clean("") == "" by {
      assert Trim("") == "";
    }
    NonEmptyOne("");
  }

  lemma CleanedOne(piece: string)
    ensures Cleaned([piece]) == [Clean(piece)]
  {
  }

  lemma NonEmptyOne(x: string)
    ensures NonEmpty([x]) == if x == "" then [] else [x]
  {
    assert [x][..0] == [];
  }

  /** A field holding one symbol is that symbol. */
  lemma UniverseOne(symbol: string)
    requires Symbol(symbol) && ',' !in symbol
    ensures UniverseSymbols(Join([symbol], ", ")) == [symbol]
  {
    assert Join([symbol], ", ") == symbol;
    SplitNone(symbol, ',');
    CleanSymbol(symbol);
    CleanedOne(symbol);
    NonEmptyOne(symbol);
  }

  /** One more symbol after ", " adds one more token. */
  lemma UniverseSnoc(init: seq<string>, last: string)
    requires init != [] && UniverseSymbols(Join(init, ", ")) == init
    requires Symbol(last) && ',' !in last
    ensures UniverseSymbols(Join(init + [last], ", ")) == init + [last]
  {
    var text := Join(init, ", ");
    JoinSnoc(init, last, ", ");
    SplitSpaced(text, last);
    CleanedSpaced(Split(text, ','), last);
    NonEmptySnoc(Cleaned(Split(text, ',')), last);
  }

  /** Text, ", " and a piece without a comma split into the text's pieces and " " + that piece. */
  lemma SplitSpaced(text: string, last: string)
    requires ',' !in last
    ensures Split(text + ", " + last, ',') == Split(text, ',') + [" " + last]
  {
    CommaSpace(text, last);
    SplitAppend(text, " " + last, ',');
    assert ',' !in " " + last;
    SplitNone(" " + last, ',');
  }

  /** A symbol after a space cleans to itself. */
  lemma CleanedSpaced(pieces: seq<string>, last: string)
    requires Symbol(last)
    ensures Cleaned(pieces + [" " + last]) == Cleaned(pieces) + [last]
  {
    CleanedAppend(pieces, [" " + last]);
    CleanedOne(" " + last);
    CleanSpaced(last);
  }

  /** A non-empty text at the end is kept. */
  lemma NonEmptySnoc(xs: seq<string>, last: string)
    requires last != ""
    ensures NonEmpty(xs + [last]) == NonEmpty(xs) + [last]
  {
    NonEmptyAppend(xs, [last]);
    NonEmptyOne(last);
  }

  /** The field shows the universe joined with ", "; tokenising that text gives the universe back. */
  lemma {:induction false} UniverseRoundTrip(symbols: seq<string>)
    requires NormalSymbols(symbols)
    ensures UniverseSymbols(Join(symbols, ", ")) == symbols
  {
    if symbols == [] {
      assert Join(symbols, ", ") == "";
      UniverseEmpty();
    } else if |symbols| == 1 {
      assert symbols == [symbols[0]];
      UniverseOne(symbols[0]);
    } else {
      var init := symbols[..|symbols| - 1];
      assert symbols == init + [symbols[|symbols| - 1]];
      UniverseRoundTrip(init);
      UniverseSnoc(init, symbols[|symbols| - 1]);
    }
  }
}
