/**
 The converse: a text that evaluates is the text of an expression tree with that value, and a text that does not is torn
 at a place where no tree could go on, for the reason the error gives.
 */
module CalculatorTexts {
  import opened Domain
  import opened Calculator
  import opened CalculatorTrees

  // ---- texts ----

  lemma {:induction false} SkipSplits(s: Text) returns (gap: string)
    ensures AllSpaces(gap) && s == Before(gap, Skip(s)) && (Skip(s).Char? ==> !IsSpace(Skip(s).head))
    decreases s
  {
    gap := [];
    if s.Char? && IsSpace(s.head) {
      var more := SkipSplits(s.tail);
      gap := [s.head] + more;
      assert gap[1..] == more;
    }
  }

  lemma {:induction false} NumberSplits(s: Text)
    ensures DigitsAndPoints(NumberText(s)) && s == Before(NumberText(s), AfterNumber(s)) && NumberStops(AfterNumber(s))
    decreases s
  {
    if s.Char? && IsNumberChar(s.head) {
      NumberSplits(s.tail);
      assert NumberText(s)[1..] == NumberText(s.tail);
    }
  }

  lemma {:induction false} BeforeJoins(a: string, b: string, rest: Text)
    ensures Before(a + b, rest) == Before(a, Before(b, rest))
    decreases |a|
  {
    if a == [] {
      assert a + b == b;
    } else {
      assert (a + b)[1..] == a[1..] + b;
      BeforeJoins(a[1..], b, rest);
    }
  }

  lemma {:induction false} FlatOfFrom(input: string, pos: nat)
    requires pos <= |input|
    ensures Flat(From(input, pos)) == input[pos..]
    decreases |input| - pos
  {
    if pos < |input| {
      FlatOfFrom(input, pos + 1);
    }
  }

  // ---- a text that is read is a tree's ----

  function OpOf(c: char): Op {
    if c == '+' then Add else if c == '-' then Sub else if c == '*' then Mul else Div
  }

  /** Operands that bind tightly enough need no parentheses. */
  lemma BinaryText(op: Op, left: Tree, gap: string, right: Tree, rest: Text)
    requires left.Level() >= op.Level() && right.Level() > op.Level()
    ensures Bare(Binary(op, left, gap, right, [], []), rest) ==
            Bare(left, Before(gap, Char(op.Symbol(), Bare(right, rest))))
  {
  }

  lemma {:induction false} FactorBuilds(m: Machine, s: Text) returns (t: Tree)
    requires Factor(m, s).Done?
    ensures WellLaid(m, t) && Value(m, t) == Ok(Factor(m, s).value) && t.Level() == 2
    ensures s == Bare(t, Factor(m, s).rest)
    decreases Length(s), 0
  {
    var u := Skip(s);
    var gap := SkipSplits(s);
    if u.head == '+' || u.head == '-' {
      var arg := FactorBuilds(m, u.tail);
      t := Sign(gap, u.head == '-', arg);
    } else if u.head == '(' {
      var inner, trail := ExprBuilds(m, u.tail);
      var after := Expr(m, u.tail).rest;
      var close := SkipSplits(after);
      BeforeJoins(trail, close, Skip(after));
      t := Group(gap, inner, trail + close);
    } else {
      NumberSplits(u);
      t := Num(gap, NumberText(u));
    }
  }

  lemma {:induction false} TermBuilds(m: Machine, s: Text) returns (t: Tree, gap: string)
    requires Term(m, s).Done?
    ensures WellLaid(m, t) && Value(m, t) == Ok(Term(m, s).value) && t.Level() >= 1 && AllSpaces(gap)
    ensures s == Bare(t, Before(gap, Term(m, s).rest))
    decreases Length(s), 1
  {
    var first := FactorBuilds(m, s);
    t, gap := TermLoopBuilds(m, Factor(m, s).rest, first, Factor(m, s).value);
  }

  lemma {:induction false} TermLoopBuilds(m: Machine, s: Text, left: Tree, value: Val) returns (t: Tree, gap: string)
    requires TermLoop(m, s, value).Done? && WellLaid(m, left) && Value(m, left) == Ok(value) && left.Level() >= 1
    ensures WellLaid(m, t) && Value(m, t) == Ok(TermLoop(m, s, value).value) && t.Level() >= 1 && AllSpaces(gap)
    ensures Bare(left, s) == Bare(t, Before(gap, TermLoop(m, s, value).rest))
    decreases Length(s), 3
  {
    var u := Skip(s);
    gap := SkipSplits(s);
    t := left;
    if Starts(u, '*') || Starts(u, '/') {
      var right := FactorBuilds(m, u.tail);
      var both := Binary(OpOf(u.head), left, gap, right, [], []);
      BinaryText(OpOf(u.head), left, gap, right, Factor(m, u.tail).rest);
      t, gap := TermLoopBuilds(m, Factor(m, u.tail).rest, both, Value(m, both).value);
    }
  }

  lemma {:induction false} ExprBuilds(m: Machine, s: Text) returns (t: Tree, gap: string)
    requires Expr(m, s).Done?
    ensures WellLaid(m, t) && Value(m, t) == Ok(Expr(m, s).value) && AllSpaces(gap)
    ensures s == Bare(t, Before(gap, Expr(m, s).rest))
    decreases Length(s), 2
  {
    var first, trail := TermBuilds(m, s);
    t, gap := ExprLoopBuilds(m, Term(m, s).rest, first, trail, Term(m, s).value);
  }

  lemma {:induction false} ExprLoopBuilds(m: Machine, s: Text, left: Tree, trail: string, value: Val)
    returns (t: Tree, gap: string)
    requires ExprLoop(m, s, value).Done? && WellLaid(m, left) && Value(m, left) == Ok(value) && AllSpaces(trail)
    ensures WellLaid(m, t) && Value(m, t) == Ok(ExprLoop(m, s, value).value) && AllSpaces(gap)
    ensures Bare(left, Before(trail, s)) == Bare(t, Before(gap, ExprLoop(m, s, value).rest))
    decreases Length(s), 3
  {
    var u := Skip(s);
    var more := SkipSplits(s);
    BeforeJoins(trail, more, u);
    t, gap := left, trail + more;
    if Starts(u, '+') || Starts(u, '-') {
      var right, after := TermBuilds(m, u.tail);
      var both := Binary(OpOf(u.head), left, gap, right, [], []);
      BinaryText(OpOf(u.head), left, gap, right, Before(after, Term(m, u.tail).rest));
      t, gap := ExprLoopBuilds(m, Term(m, u.tail).rest, both, after, Value(m, both).value);
    }
  }

  /** The input is this tree written out, with some white space at the end. */
  ghost predicate IsTextOf(m: Machine, input: string, t: Tree, gap: string) {
    WellLaid(m, t) && AllSpaces(gap) && input == Flat(Shown(t, 0, Before(gap, End)))
  }

  /** A text evaluates to a value exactly when it is the text of an expression tree that has this value. */
  lemma EvaluatesExactly(m: Machine, input: string, v: Val)
    ensures Evaluated(m, input) == Ok(v) <==> exists t, gap :: IsTextOf(m, input, t, gap) && Value(m, t) == Ok(v)
  {
    if Evaluated(m, input) == Ok(v) {
      var s := From(input, 0);
      var t, trail := ExprBuilds(m, s);
      var more := SkipSplits(Expr(m, s).rest);
      BeforeJoins(trail, more, End);
      FlatOfFrom(input, 0);
      assert IsTextOf(m, input, t, trail + more);
    }
    forall t, gap | IsTextOf(m, input, t, gap) && Value(m, t) == Ok(v) ensures Evaluated(m, input) == Ok(v) {
      EvaluatesTree(m, t, gap);
    }
  }

  // ---- a text that is not read is torn ----

  /** A tree as far as it goes: the text stops, or goes on with something that cannot belong to it. */
  datatype Torn =
    | NoOperand(gap: string)
    | NotANumber(gap: string, raw: string)
    | AfterSign(gap: string, minus: bool, arg: Torn)
    | Inside(open: string, inner: Torn)
    | Unclosed(open: string, whole: Tree, close: string)
    | RightOf(op: Op, left: Tree, gap: string, right: Torn)
    | OverZero(left: Tree, gap: string, divisor: Tree)
  {
    function Level(): nat {
      match this
      case RightOf(op, _, _, _) => op.Level()
      case OverZero(_, _, _) => 1
      case _ => 2
    }
  }

  predicate StartsOperand(rest: Text) {
    rest.Char? && (rest.head in {'+', '-', '('} || 0x30 <= rest.head as int <= 0x39 || rest.head as int == 0x2E)
  }

  /** Neither white space nor an operator: the expression before it is over. */
  predicate EndsExpression(rest: Text) {
    rest.Char? ==> !IsBlank(rest.head) && rest.head !in {'+', '-', '*', '/'}
  }

  /** What comes before the tear is in order, and `rest` cannot follow it. */
  predicate TornAt(m: Machine, f: Torn, rest: Text) {
    match f
    case NoOperand(gap) => AllSpaces(gap) && !StartsOperand(rest) && (rest.Char? ==> !IsBlank(rest.head))
    case NotANumber(gap, raw) =>
      AllSpaces(gap) && raw != [] && DigitsAndPoints(raw) && !m.isNumber(raw) && NumberStops(rest)
    case AfterSign(gap, _, arg) => AllSpaces(gap) && TornAt(m, arg, rest) && arg.Level() == 2
    case Inside(open, inner) => AllSpaces(open) && TornAt(m, inner, rest)
    case Unclosed(open, inner, close) =>
      && AllSpaces(open) && AllSpaces(close) && WellLaid(m, inner) && Value(m, inner).Ok?
      && EndsExpression(rest) && !Starts(rest, ')')
    case RightOf(op, left, gap, right) =>
      && AllSpaces(gap) && WellLaid(m, left) && Value(m, left).Ok? && left.Level() >= op.Level()
      && TornAt(m, right, rest) && right.Level() > op.Level()
    case OverZero(left, gap, right) =>
      && AllSpaces(gap) && WellLaid(m, left) && left.Level() >= 1 && WellLaid(m, right) && right.Level() == 2
      && Value(m, left).Ok? && Value(m, right).Ok? && m.isZero(Value(m, right).value)
  }

  function Reason(f: Torn, rest: Text): Error {
    match f
    case NoOperand(_) => if rest.End? then UnexpectedEnd else UnexpectedChar(rest.head)
    case NotANumber(_, raw) => InvalidNumber(raw)
    case AfterSign(_, _, arg) => Reason(arg, rest)
    case Inside(_, inner) => Reason(inner, rest)
    case Unclosed(_, _, _) => MissingParenthesis
    case RightOf(_, _, _, right) => Reason(right, rest)
    case OverZero(_, _, _) => DivisionByZero
  }

  function TextOf(f: Torn, rest: Text): Text {
    match f
    case NoOperand(gap) => Before(gap, rest)
    case NotANumber(gap, raw) => Before(gap, Before(raw, rest))
    case AfterSign(gap, minus, arg) => Before(gap, Char(if minus then '-' else '+', TextOf(arg, rest)))
    case Inside(open, inner) => Before(open, Char('(', TextOf(inner, rest)))
    case Unclosed(open, inner, close) => Before(open, Char('(', Bare(inner, Before(close, rest))))
    case RightOf(op, left, gap, right) => Bare(left, Before(gap, Char(op.Symbol(), TextOf(right, rest))))
    case OverZero(left, gap, right) => Bare(left, Before(gap, Char('/', Bare(right, rest))))
  }

  /** The text `s` is torn for the reason given. */
  ghost predicate Explains(m: Machine, f: Torn, rest: Text, s: Text, e: Error) {
    TornAt(m, f, rest) && s == TextOf(f, rest) && e == Reason(f, rest)
  }

  lemma {:induction false} ExprEnds(m: Machine, s: Text)
    requires Expr(m, s).Done?
    ensures EndsExpression(Expr(m, s).rest) && Skip(Expr(m, s).rest) == Expr(m, s).rest
  {
    TermEnds(m, s);
    ExprLoopEnds(m, Term(m, s).rest, Term(m, s).value);
  }

  predicate EndsTerm(rest: Text) {
    rest.Char? ==> !IsBlank(rest.head) && rest.head !in {'*', '/'}
  }

  lemma TermEnds(m: Machine, s: Text)
    requires Term(m, s).Done?
    ensures EndsTerm(Term(m, s).rest)
  {
    TermLoopEnds(m, Factor(m, s).rest, Factor(m, s).value);
  }

  lemma {:induction false} TermLoopEnds(m: Machine, s: Text, value: Val)
    requires TermLoop(m, s, value).Done?
    ensures EndsTerm(TermLoop(m, s, value).rest)
    decreases Length(s)
  {
    var u := Skip(s);
    var gap := SkipSplits(s);
    if Starts(u, '*') || Starts(u, '/') {
      var right := Factor(m, u.tail);
      TermLoopEnds(m, right.rest, if u.head == '*' then Product(value, right.value) else Quotient(value, right.value));
    }
  }

  lemma {:induction false} ExprLoopEnds(m: Machine, s: Text, value: Val)
    requires ExprLoop(m, s, value).Done? && EndsTerm(s)
    ensures EndsExpression(ExprLoop(m, s, value).rest)
    ensures Skip(ExprLoop(m, s, value).rest) == ExprLoop(m, s, value).rest
    decreases Length(s)
  {
    var u := Skip(s);
    if Starts(u, '+') || Starts(u, '-') {
      var right := Term(m, u.tail);
      TermEnds(m, u.tail);
      ExprLoopEnds(m, right.rest, if u.head == '+' then Sum(value, right.value) else Difference(value, right.value));
    }
  }

  lemma {:induction false} FactorTears(m: Machine, s: Text) returns (f: Torn, rest: Text)
    requires Factor(m, s).Fail?
    ensures Explains(m, f, rest, s, Factor(m, s).error) && f.Level() == 2
    decreases Length(s), 0
  {
    var u := Skip(s);
    var gap := SkipSplits(s);
    if u.Char? && (u.head == '+' || u.head == '-') {
      var arg;
      arg, rest := FactorTears(m, u.tail);
      f := AfterSign(gap, u.head == '-', arg);
    } else if u.Char? && u.head == '(' {
      if Expr(m, u.tail).Fail? {
        var inner;
        inner, rest := ExprTears(m, u.tail);
        f := Inside(gap, inner);
      } else {
        var inner, trail := ExprBuilds(m, u.tail);
        ExprEnds(m, u.tail);
        f, rest := Unclosed(gap, inner, trail), Expr(m, u.tail).rest;
      }
    } else if u.Char? && IsNumberChar(u.head) {
      NumberSplits(u);
      f, rest := NotANumber(gap, NumberText(u)), AfterNumber(u);
    } else {
      f, rest := NoOperand(gap), u;
    }
  }

  lemma {:induction false} TermTears(m: Machine, s: Text) returns (f: Torn, rest: Text)
    requires Term(m, s).Fail?
    ensures Explains(m, f, rest, s, Term(m, s).error) && f.Level() >= 1
    decreases Length(s), 1
  {
    if Factor(m, s).Fail? {
      f, rest := FactorTears(m, s);
    } else {
      var first := FactorBuilds(m, s);
      f, rest := TermLoopTears(m, Factor(m, s).rest, first, Factor(m, s).value);
    }
  }

  lemma {:induction false} TermLoopTears(m: Machine, s: Text, left: Tree, value: Val) returns (f: Torn, rest: Text)
    requires TermLoop(m, s, value).Fail? && WellLaid(m, left) && Value(m, left) == Ok(value) && left.Level() >= 1
    ensures Explains(m, f, rest, Bare(left, s), TermLoop(m, s, value).error) && f.Level() >= 1
    decreases Length(s), 3
  {
    var u := Skip(s);
    var gap := SkipSplits(s);
    if Factor(m, u.tail).Fail? {
      var right;
      right, rest := FactorTears(m, u.tail);
      f := RightOf(OpOf(u.head), left, gap, right);
      assert u == Char(OpOf(u.head).Symbol(), TextOf(right, rest));
    } else {
      var right := FactorBuilds(m, u.tail);
      if u.head == '/' && m.isZero(Factor(m, u.tail).value) {
        f, rest := OverZero(left, gap, right), Factor(m, u.tail).rest;
      } else {
        var both := Binary(OpOf(u.head), left, gap, right, [], []);
        BinaryText(OpOf(u.head), left, gap, right, Factor(m, u.tail).rest);
        f, rest := TermLoopTears(m, Factor(m, u.tail).rest, both, Value(m, both).value);
      }
    }
  }

  lemma {:induction false} ExprTears(m: Machine, s: Text) returns (f: Torn, rest: Text)
    requires Expr(m, s).Fail?
    ensures Explains(m, f, rest, s, Expr(m, s).error)
    decreases Length(s), 2
  {
    if Term(m, s).Fail? {
      f, rest := TermTears(m, s);
    } else {
      var first, trail := TermBuilds(m, s);
      f, rest := ExprLoopTears(m, Term(m, s).rest, first, trail, Term(m, s).value);
    }
  }

  lemma {:induction false} ExprLoopTears(m: Machine, s: Text, left: Tree, trail: string, value: Val)
    returns (f: Torn, rest: Text)
    requires ExprLoop(m, s, value).Fail? && WellLaid(m, left) && Value(m, left) == Ok(value) && AllSpaces(trail)
    ensures Explains(m, f, rest, Bare(left, Before(trail, s)), ExprLoop(m, s, value).error)
    decreases Length(s), 3
  {
    var u := Skip(s);
    var more := SkipSplits(s);
    BeforeJoins(trail, more, u);
    var gap := trail + more;
    if Term(m, u.tail).Fail? {
      var right;
      right, rest := TermTears(m, u.tail);
      f := RightOf(OpOf(u.head), left, gap, right);
      assert u == Char(OpOf(u.head).Symbol(), TextOf(right, rest));
    } else {
      var right, after := TermBuilds(m, u.tail);
      var both := Binary(OpOf(u.head), left, gap, right, [], []);
      BinaryText(OpOf(u.head), left, gap, right, Before(after, Term(m, u.tail).rest));
      f, rest := ExprLoopTears(m, Term(m, u.tail).rest, both, after, Value(m, both).value);
    }
  }

  lemma {:induction false} FlatBefore(a: string, rest: Text)
    ensures Flat(Before(a, rest)) == a + Flat(rest)
    decreases |a|
  {
    if a != [] {
      FlatBefore(a[1..], rest);
      assert a == [a[0]] + a[1..];
    }
  }

  /** The text `s` is `front` and then `rest`. */
  predicate Fronts(front: string, s: Text, rest: Text) {
    Flat(s) == front + Flat(rest)
  }

  lemma FrontsJoin(a: string, s: Text, b: string, t: Text, rest: Text)
    requires Fronts(a, s, t) && Fronts(b, t, rest)
    ensures Fronts(a + b, s, rest)
  {
  }

  lemma FrontsChar(gap: string, c: char, b: string, t: Text, rest: Text)
    requires Fronts(b, t, rest)
    ensures Fronts(gap + ([c] + b), Before(gap, Char(c, t)), rest)
  {
    FlatBefore(gap, Char(c, t));
  }

  lemma FrontsBefore(gap: string, rest: Text)
    ensures Fronts(gap, Before(gap, rest), rest)
  {
    FlatBefore(gap, rest);
  }

  lemma FrontsNothing(rest: Text)
    ensures Fronts([], rest, rest)
  {
  }

  /** A text in parentheses. */
  lemma FrontsParens(open: string, inner: string, s: Text, close: string, rest: Text) returns (front: string)
    requires Fronts(inner, s, Before(close, Char(')', rest)))
    ensures Fronts(front, Before(open, Char('(', s)), rest)
  {
    FrontsNothing(rest);
    FrontsChar(close, ')', [], rest, rest);
    var closing := close + ([')'] + []);
    FrontsJoin(inner, s, closing, Before(close, Char(')', rest)), rest);
    FrontsChar(open, '(', inner + closing, s, rest);
    front := open + (['('] + (inner + closing));
  }

  /** A tree's text ends with what follows the tree. */
  lemma {:induction false} BareEnds(t: Tree, rest: Text) returns (front: string)
    ensures Fronts(front, Bare(t, rest), rest)
    decreases t, 0
  {
    match t
    case Num(gap, raw) =>
      FrontsBefore(gap, Before(raw, rest));
      FrontsBefore(raw, rest);
      FrontsJoin(gap, Before(gap, Before(raw, rest)), raw, Before(raw, rest), rest);
      front := gap + raw;
    case Sign(gap, minus, arg) =>
      var more := ShownEnds(arg, 2, rest);
      FrontsChar(gap, if minus then '-' else '+', more, Shown(arg, 2, rest), rest);
      front := gap + ([if minus then '-' else '+'] + more);
    case Group(open, inner, close) =>
      var closing := Before(close, Char(')', rest));
      var more := ShownEnds(inner, 0, closing);
      front := FrontsParens(open, more, Shown(inner, 0, closing), close, rest);
    case Binary(op, left, gap, right, _, _) =>
      var text := Shown(right, op.Level() + 1, rest);
      var more := ShownEnds(right, op.Level() + 1, rest);
      FrontsChar(gap, op.Symbol(), more, text, rest);
      var tail := Before(gap, Char(op.Symbol(), text));
      var first := ShownEnds(left, op.Level(), tail);
      FrontsJoin(first, Bare(t, rest), gap + ([op.Symbol()] + more), tail, rest);
      front := first + (gap + ([op.Symbol()] + more));
  }

  lemma {:induction false} ShownEnds(t: Tree, min: nat, rest: Text) returns (front: string)
    ensures Fronts(front, Shown(t, min, rest), rest)
    decreases t, 1
  {
    if t.Binary? && t.Level() < min {
      var closing := Before(t.close, Char(')', rest));
      var more := BareEnds(t, closing);
      front := FrontsParens(t.open, more, Bare(t, closing), t.close, rest);
    } else {
      front := BareEnds(t, rest);
    }
  }

  lemma {:induction false} FlatLength(s: Text)
    ensures |Flat(s)| == Length(s)
    decreases s
  {
    if s.Char? {
      FlatLength(s.tail);
    }
  }

  lemma FrontIsFrom(input: string, front: string, rest: Text)
    requires input == front + Flat(rest)
    ensures Length(rest) <= |input| && From(input, |input| - Length(rest)) == rest
  {
    FlatLength(rest);
    FlatFrom(front, rest);
  }

  /** What follows the tree is what is left of the input at that position. */
  lemma RestIsFrom(input: string, t: Tree, gap: string, rest: Text)
    requires From(input, 0) == Bare(t, Before(gap, rest))
    ensures Length(rest) <= |input| && From(input, |input| - Length(rest)) == rest
  {
    var front := BareEnds(t, Before(gap, rest));
    FrontsBefore(gap, rest);
    FrontsJoin(front, From(input, 0), gap, Before(gap, rest), rest);
    FlatOfFrom(input, 0);
    FrontIsFrom(input, front + gap, rest);
  }

  /** A whole expression, and then something that is neither white space nor an operator, at this position. */
  ghost predicate HasTrailing(m: Machine, input: string, c: char, position: nat) {
    position < |input| && input[position] == c && !IsBlank(c) && c !in {'+', '-', '*', '/'} &&
    exists t, gap, rest ::
      && WellLaid(m, t) && Value(m, t).Ok? && AllSpaces(gap)
      && From(input, 0) == Bare(t, Before(gap, rest)) && rest == From(input, position)
  }

  /** Every error says where and why: the text is torn for that reason, or goes on after a whole expression. */
  lemma ErrorsExplained(m: Machine, input: string, e: Error)
    requires Evaluated(m, input) == Err(e)
    ensures if e.Trailing? then HasTrailing(m, input, e.c, e.position)
            else exists f, rest :: Explains(m, f, rest, From(input, 0), e)
  {
    var s := From(input, 0);
    if Expr(m, s).Fail? {
      var f, rest := ExprTears(m, s);
      NoTrailing(f, rest);
    } else {
      var t, gap := ExprBuilds(m, s);
      ExprEnds(m, s);
      var rest := Expr(m, s).rest;
      RestIsFrom(input, t, gap, rest);
      assert WellLaid(m, t) && AllSpaces(gap) && From(input, 0) == Bare(t, Before(gap, rest));
    }
  }

  lemma {:induction false} NoTrailing(f: Torn, rest: Text)
    ensures !Reason(f, rest).Trailing?
    decreases f
  {
    match f
    case AfterSign(_, _, arg) => NoTrailing(arg, rest);
    case Inside(_, inner) => NoTrailing(inner, rest);
    case RightOf(_, _, _, right) => NoTrailing(right, rest);
    case _ =>
  }
}
