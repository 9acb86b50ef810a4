/**
 The calculator is a correct parser: an expression tree written out with the parentheses it needs, any further ones it
 asks for, and any whitespace between its tokens, evaluates to the tree's own value.
 */
module CalculatorTrees {
  import opened Domain
  import opened Calculator

  datatype Op = Add | Sub | Mul | Div {
    function Symbol(): char {
      match this case Add => '+' case Sub => '-' case Mul => '*' case Div => '/'
    }

    /** Sums bind loosest. */
    function Level(): nat {
      if Add? || Sub? then 0 else 1
    }
  }

  /**
   A tree with its layout: the whitespace before each token, and before the parentheses it may need. `Group` is a pair
   of parentheses that need not be there.
   */
  datatype Tree =
    | Num(gap: string, raw: string)
    | Sign(gap: string, minus: bool, arg: Tree)
    | Binary(op: Op, left: Tree, gap: string, right: Tree, open: string, close: string)
    | Group(open: string, inner: Tree, close: string)
  {
    function Level(): nat {
      if Binary? then op.Level() else 2
    }
  }

  /** The ASCII white space of the WHATWG Infra standard: tab, line feed, form feed, carriage return, space. */
  predicate IsBlank(c: char) {
    var n := c as int;
    n == 0x09 || n == 0x0A || n == 0x0C || n == 0x0D || n == 0x20
  }

  predicate AllSpaces(s: string) {
    forall i :: 0 <= i < |s| ==> IsBlank(s[i])
  }

  predicate DigitsAndPoints(s: string) {
    forall i :: 0 <= i < |s| ==> 0x30 <= s[i] as int <= 0x39 || s[i] as int == 0x2E
  }

  /** Gaps are whitespace and literals are numbers. */
  predicate WellLaid(m: Machine, t: Tree) {
    match t
    case Num(gap, raw) =>
      AllSpaces(gap) && raw != [] && DigitsAndPoints(raw) && m.isNumber(raw)
    case Sign(gap, _, arg) => AllSpaces(gap) && WellLaid(m, arg)
    case Group(open, inner, close) => AllSpaces(open) && AllSpaces(close) && WellLaid(m, inner)
    case Binary(_, left, gap, right, open, close) =>
      AllSpaces(gap) && AllSpaces(open) && AllSpaces(close) && WellLaid(m, left) && WellLaid(m, right)
  }

  /** Operands first, left before right; a zero divisor anywhere is an error. */
  function Value(m: Machine, t: Tree): Result<Val, Error> {
    match t
    case Num(_, raw) => Ok(Literal(raw))
    case Sign(_, minus, arg) =>
      var v := Value(m, arg);
      if v.Ok? && minus then Ok(Negated(v.value)) else v
    case Group(_, inner, _) => Value(m, inner)
    case Binary(op, left, _, right, _, _) =>
      var l, r := Value(m, left), Value(m, right);
      if l.Err? then l else if r.Err? then r
      else match op
           case Add => Ok(Sum(l.value, r.value))
           case Sub => Ok(Difference(l.value, r.value))
           case Mul => Ok(Product(l.value, r.value))
           case Div => if m.isZero(r.value) then Err(DivisionByZero) else Ok(Quotient(l.value, r.value))
  }

  // ---- writing a tree ----

  function Before(s: string, rest: Text): Text {
    if s == [] then rest else Char(s[0], Before(s[1..], rest))
  }

  /** The tree where the grammar expects something at least as tight as `min`, in front of `rest`. */
  function Shown(t: Tree, min: nat, rest: Text): Text
    decreases t, 1
  {
    if t.Binary? && t.Level() < min then Before(t.open, Char('(', Bare(t, Before(t.close, Char(')', rest)))))
    else Bare(t, rest)
  }

  /** The right operand must bind tighter than its operator: operators associate to the left. */
  function Bare(t: Tree, rest: Text): Text
    decreases t, 0
  {
    match t
    case Num(gap, raw) => Before(gap, Before(raw, rest))
    case Sign(gap, minus, arg) => Before(gap, Char(if minus then '-' else '+', Shown(arg, 2, rest)))
    case Group(open, inner, close) => Before(open, Char('(', Shown(inner, 0, Before(close, Char(')', rest)))))
    case Binary(op, left, gap, right, _, _) =>
      Shown(left, op.Level(), Before(gap, Char(op.Symbol(), Shown(right, op.Level() + 1, rest))))
  }

  function Flat(s: Text): string {
    if s.End? then [] else [s.head] + Flat(s.tail)
  }

  lemma {:induction false} FlatFrom(front: string, s: Text)
    ensures From(front + Flat(s), |front|) == s
    decreases s
  {
    if s.Char? {
      FlatFrom(front + [s.head], s.tail);
      assert front + Flat(s) == (front + [s.head]) + Flat(s.tail);
    }
  }

  // ---- reading it back ----

  /** The text does not run a literal on. */
  predicate NumberStops(rest: Text) {
    rest.Char? ==> !IsNumberChar(rest.head)
  }

  /** Nor does it continue a product. */
  predicate TermStops(rest: Text) {
    !Starts(Skip(rest), '*') && !Starts(Skip(rest), '/')
  }

  lemma {:induction false} SkipGap(gap: string, rest: Text)
    requires AllSpaces(gap)
    ensures Skip(Before(gap, rest)) == Skip(rest)
    ensures NumberStops(rest) ==> NumberStops(Before(gap, rest))
    decreases |gap|
  {
    if gap != [] {
      SkipGap(gap[1..], rest);
    }
  }

  lemma {:induction false} SkipOnce(s: Text)
    ensures Skip(Skip(s)) == Skip(s)
    decreases s
  {
    if s.Char? && IsSpace(s.head) {
      SkipOnce(s.tail);
    }
  }

  lemma LoopSkips(m: Machine, s: Text, value: Val)
    ensures ExprLoop(m, Skip(s), value) == ExprLoop(m, s, value)
  {
    SkipOnce(s);
  }

  lemma {:induction false} ReadsLiteral(raw: string, rest: Text)
    requires DigitsAndPoints(raw) && NumberStops(rest)
    ensures NumberText(Before(raw, rest)) == raw && AfterNumber(Before(raw, rest)) == rest
    decreases |raw|
  {
    if raw != [] {
      ReadsLiteral(raw[1..], rest);
      assert raw == [raw[0]] + raw[1..];
    }
  }

  /** What a factor, a term and an expression make of a tree's text. */
  function Read(v: Result<Val, Error>, rest: Text): Parse {
    if v.Err? then Fail(v.error) else Done(v.value, rest)
  }

  function ReadTerm(m: Machine, v: Result<Val, Error>, rest: Text): Parse {
    if v.Err? then Fail(v.error) else TermLoop(m, rest, v.value)
  }

  function ReadExpr(m: Machine, v: Result<Val, Error>, rest: Text): Parse {
    if v.Err? then Fail(v.error) else ExprLoop(m, rest, v.value)
  }

  /** Which of the three readings of one tree rests on which: the one at its own level comes first. */
  function Rank(t: Tree, min: nat): nat
    requires min <= 2
  {
    (t.Level() + 3 - min) % 3
  }

  lemma NumReads(m: Machine, gap: string, raw: string, rest: Text)
    requires WellLaid(m, Num(gap, raw)) && NumberStops(rest)
    ensures Factor(m, Before(gap, Before(raw, rest))) == Done(Literal(raw), rest)
  {
    SkipGap(gap, Before(raw, rest));
    ReadsLiteral(raw, rest);
  }

  lemma SignReads(m: Machine, gap: string, minus: bool, v: Result<Val, Error>, s: Text, rest: Text)
    requires AllSpaces(gap) && Factor(m, s) == Read(v, rest)
    ensures Factor(m, Before(gap, Char(if minus then '-' else '+', s))) ==
            Read(if v.Ok? && minus then Ok(Negated(v.value)) else v, rest)
  {
    SkipGap(gap, Char(if minus then '-' else '+', s));
  }

  lemma ParenReads(m: Machine, open: string, s: Text, close: string, rest: Text, v: Result<Val, Error>)
    requires AllSpaces(open) && AllSpaces(close)
    requires Expr(m, s) == ReadExpr(m, v, Before(close, Char(')', rest)))
    ensures Factor(m, Before(open, Char('(', s))) == Read(v, rest)
  {
    SkipGap(open, Char('(', s));
    SkipGap(close, Char(')', rest));
  }

  lemma {:induction false} FactorReads(m: Machine, t: Tree, rest: Text)
    requires WellLaid(m, t) && NumberStops(rest)
    ensures Factor(m, Shown(t, 2, rest)) == Read(Value(m, t), rest)
    decreases t, Rank(t, 2)
  {
    match t
    case Num(gap, raw) => NumReads(m, gap, raw, rest);
    case Sign(gap, minus, arg) =>
      FactorReads(m, arg, rest);
      SignReads(m, gap, minus, Value(m, arg), Shown(arg, 2, rest), rest);
    case Group(open, inner, close) =>
      var closing := Before(close, Char(')', rest));
      SkipGap(close, Char(')', rest));
      ExprReads(m, inner, closing);
      ParenReads(m, open, Shown(inner, 0, closing), close, rest, Value(m, inner));
    case Binary(_, _, _, _, open, close) =>
      var closing := Before(close, Char(')', rest));
      SkipGap(close, Char(')', rest));
      ExprReads(m, t, closing);
      ParenReads(m, open, Bare(t, closing), close, rest, Value(m, t));
  }

  lemma {:induction false} TermReads(m: Machine, t: Tree, rest: Text)
    requires WellLaid(m, t) && NumberStops(rest)
    ensures Term(m, Shown(t, 1, rest)) == ReadTerm(m, Value(m, t), rest)
    decreases t, Rank(t, 1)
  {
    if t.Level() == 1 {
      var right := Shown(t.right, 2, rest);
      SkipGap(t.gap, Char(t.op.Symbol(), right));
      TermReads(m, t.left, Before(t.gap, Char(t.op.Symbol(), right)));
      FactorReads(m, t.right, rest);
    } else {
      FactorReads(m, t, rest);
    }
  }

  lemma {:induction false} ExprReads(m: Machine, t: Tree, rest: Text)
    requires WellLaid(m, t) && NumberStops(rest) && TermStops(rest)
    ensures Expr(m, Shown(t, 0, rest)) == ReadExpr(m, Value(m, t), rest)
    decreases t, Rank(t, 0)
  {
    var value := Value(m, t);
    if value.Ok? {
      LoopSkips(m, rest, value.value);
    }
    if t.Level() == 0 {
      var right := Shown(t.right, 1, rest);
      SkipGap(t.gap, Char(t.op.Symbol(), right));
      ExprReads(m, t.left, Before(t.gap, Char(t.op.Symbol(), right)));
      TermReads(m, t.right, rest);
    } else {
      TermReads(m, t, rest);
    }
  }

  /** Every expression tree, however spaced, evaluates to its value, or to an error if a divisor is zero. */
  lemma EvaluatesTree(m: Machine, t: Tree, gap: string)
    requires WellLaid(m, t) && AllSpaces(gap)
    ensures Evaluated(m, Flat(Shown(t, 0, Before(gap, End)))) == Value(m, t)
  {
    var rest := Before(gap, End);
    SkipGap(gap, End);
    FlatFrom([], Shown(t, 0, rest));
    assert [] + Flat(Shown(t, 0, rest)) == Flat(Shown(t, 0, rest));
    ExprReads(m, t, rest);
    SkipOnce(rest);
  }
}
