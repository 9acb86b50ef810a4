/**
 The calculator tool: a recursive-descent evaluator over the bytes of an expression. The grammar is given by functions
 on the text that is left; the parser itself moves a position and is proved to follow them.

 Values are kept as the operations that compute them, so two equal values are equal in every arithmetic, rounding
 included. Of the arithmetic only two questions are asked: is this literal a number, and is this value zero.
 */
module Calculator {
  import opened Domain

  datatype Error =
    | DivisionByZero | MissingParenthesis | UnexpectedChar(c: char) | UnexpectedEnd
    | InvalidNumber(raw: string) | Trailing(c: char, position: nat)

  datatype Val =
    | Literal(raw: string)
    | Negated(arg: Val)
    | Sum(left: Val, right: Val) | Difference(left: Val, right: Val)
    | Product(left: Val, right: Val) | Quotient(left: Val, right: Val)

  datatype Machine = Machine(isNumber: string -> bool, isZero: Val -> bool)

  // ---- text ----

  /** What is left of the input. */
  datatype Text = End | Char(head: char, tail: Text)

  function Length(s: Text): nat {
    if s.End? then 0 else 1 + Length(s.tail)
  }

  predicate Starts(s: Text, c: char) {
    s.Char? && s.head == c
  }

  /** The text of a string from a position on. */
  function From(input: string, pos: nat): (s: Text)
    requires pos <= |input|
    ensures Length(s) == |input| - pos
    decreases |input| - pos
  {
    if pos == |input| then End else Char(input[pos], From(input, pos + 1))
  }

  /** ASCII whitespace as the standard library has it: no vertical tab. */
  predicate IsSpace(c: char) {
    c == ' ' || c == '\t' || c == '\n' || c == '\r' || c as int == 12
  }

  predicate IsNumberChar(c: char) {
    '0' <= c <= '9' || c == '.'
  }

  function Skip(s: Text): (r: Text)
    ensures Length(r) <= Length(s)
  {
    if s.Char? && IsSpace(s.head) then Skip(s.tail) else s
  }

  function NumberText(s: Text): string {
    if s.Char? && IsNumberChar(s.head) then [s.head] + NumberText(s.tail) else []
  }

  function AfterNumber(s: Text): (r: Text)
    ensures Length(r) <= Length(s)
  {
    if s.Char? && IsNumberChar(s.head) then AfterNumber(s.tail) else s
  }

  // ---- the grammar ----

  /** A value and the text after it, or the error that ends the evaluation. */
  datatype Parse = Fail(error: Error) | Done(value: Val, rest: Text)

  function Expr(m: Machine, s: Text): (r: Parse)
    ensures r.Done? ==> Length(r.rest) < Length(s)
    decreases Length(s), 2
  {
    match Term(m, s)
    case Fail(e) => Fail(e)
    case Done(value, rest) => ExprLoop(m, rest, value)
  }

  function ExprLoop(m: Machine, s: Text, value: Val): (r: Parse)
    ensures r.Done? ==> Length(r.rest) <= Length(s)
    decreases Length(s), 3
  {
    var t := Skip(s);
    if Starts(t, '+') || Starts(t, '-') then
      match Term(m, t.tail)
      case Fail(e) => Fail(e)
      case Done(right, rest) => ExprLoop(m, rest, if t.head == '+' then Sum(value, right) else Difference(value, right))
    else Done(value, t)
  }

  function Term(m: Machine, s: Text): (r: Parse)
    ensures r.Done? ==> Length(r.rest) < Length(s)
    decreases Length(s), 1
  {
    match Factor(m, s)
    case Fail(e) => Fail(e)
    case Done(value, rest) => TermLoop(m, rest, value)
  }

  function TermLoop(m: Machine, s: Text, value: Val): (r: Parse)
    ensures r.Done? ==> Length(r.rest) <= Length(s)
    decreases Length(s), 3
  {
    var t := Skip(s);
    if Starts(t, '*') || Starts(t, '/') then
      match Factor(m, t.tail)
      case Fail(e) => Fail(e)
      case Done(right, rest) =>
        if t.head == '*' then TermLoop(m, rest, Product(value, right))
        else if m.isZero(right) then Fail(DivisionByZero)
        else TermLoop(m, rest, Quotient(value, right))
    else Done(value, t)
  }

  function Factor(m: Machine, s: Text): (r: Parse)
    ensures r.Done? ==> Length(r.rest) < Length(s)
    decreases Length(s), 0
  {
    var t := Skip(s);
    if t.End? then Fail(UnexpectedEnd)
    else if t.head == '+' then Factor(m, t.tail)
    else if t.head == '-' then
      match Factor(m, t.tail)
      case Fail(e) => Fail(e)
      case Done(value, rest) => Done(Negated(value), rest)
    else if t.head == '(' then
      match Expr(m, t.tail)
      case Fail(e) => Fail(e)
      case Done(value, rest) =>
        if Starts(Skip(rest), ')') then Done(value, Skip(rest).tail) else Fail(MissingParenthesis)
    else if IsNumberChar(t.head) then
      if m.isNumber(NumberText(t)) then Done(Literal(NumberText(t)), AfterNumber(t))
      else Fail(InvalidNumber(NumberText(t)))
    else Fail(UnexpectedChar(t.head))
  }

  function Evaluated(m: Machine, input: string): Result<Val, Error> {
    match Expr(m, From(input, 0))
    case Fail(e) => Err(e)
    case Done(value, rest) =>
      var t := Skip(rest);
      if t.End? then Ok(value) else Err(Trailing(t.head, |input| - (1 + Length(t.tail))))
  }

  // ---- the parser ----

  /** The parser did what the grammar says. */
  predicate Agrees(expected: Parse, out: Result<Val, Error>, left: Text) {
    if expected.Fail? then out == Err(expected.error) else out == Ok(expected.value) && left == expected.rest
  }

  /** A run of number characters up to something else is the whole number. */
  lemma {:induction false} NumberEnds(input: string, start: nat, pos: nat)
    requires start <= pos <= |input| && (forall i :: start <= i < pos ==> IsNumberChar(input[i]))
    requires pos < |input| ==> !IsNumberChar(input[pos])
    ensures NumberText(From(input, start)) == input[start..pos] && AfterNumber(From(input, start)) == From(input, pos)
    decreases pos - start
  {
    if start < pos {
      NumberEnds(input, start + 1, pos);
      assert input[start..pos] == [input[start]] + input[start + 1..pos];
    }
  }

  class Parser {
    const m: Machine
    const bytes: string
    var pos: nat

    constructor (m: Machine, input: string)
      ensures this.m == m && bytes == input && pos == 0
    {
      this.m, bytes, pos := m, input, 0;
    }

    ghost predicate Valid()
      reads this
    {
      pos <= |bytes|
    }

    ghost function Left(): Text
      requires Valid()
      reads this
    {
      From(bytes, pos)
    }

    method SkipWhitespace()
      requires Valid()
      modifies this
      ensures Valid() && old(pos) <= pos && Left() == Skip(old(Left()))
    {
      while pos < |bytes| && IsSpace(bytes[pos])
        invariant Valid() && old(pos) <= pos && Skip(Left()) == Skip(old(Left()))
      {
        pos := pos + 1;
      }
    }

    /** One round of the loop of sums. */
    method NextTerm(value: Val) returns (more: bool, out: Result<Val, Error>)
      requires Valid()
      modifies this
      ensures Valid() && old(pos) <= pos && (more ==> old(pos) < pos && out.Ok?)
      ensures ExprLoop(m, old(Left()), value) ==
              if out.Err? then Fail(out.error)
              else if more then ExprLoop(m, Left(), out.value) else Done(out.value, Left())
      decreases |bytes| - pos, 3
    {
      SkipWhitespace();
      if pos < |bytes| && (bytes[pos] == '+' || bytes[pos] == '-') {
        var op := bytes[pos];
        pos := pos + 1;
        var right := ParseTerm();
        if right.Err? {
          return false, right;
        }
        return true, Ok(if op == '+' then Sum(value, right.value) else Difference(value, right.value));
      }
      return false, Ok(value);
    }

    method ParseExpr() returns (out: Result<Val, Error>)
      requires Valid()
      modifies this
      ensures Valid() && old(pos) <= pos && Agrees(Expr(m, old(Left())), out, Left())
      decreases |bytes| - pos, 2
    {
      out := ParseTerm();
      var more := out.Ok?;
      while more
        invariant Valid() && old(pos) <= pos
        invariant more ==> old(pos) < pos && out.Ok? && ExprLoop(m, Left(), out.value) == Expr(m, old(Left()))
        invariant !more ==> Agrees(Expr(m, old(Left())), out, Left())
        decreases more, |bytes| - pos
      {
        more, out := NextTerm(out.value);
      }
    }

    /** One round of the loop of products. */
    method NextFactor(value: Val) returns (more: bool, out: Result<Val, Error>)
      requires Valid()
      modifies this
      ensures Valid() && old(pos) <= pos && (more ==> old(pos) < pos && out.Ok?)
      ensures TermLoop(m, old(Left()), value) ==
              if out.Err? then Fail(out.error)
              else if more then TermLoop(m, Left(), out.value) else Done(out.value, Left())
      decreases |bytes| - pos, 3
    {
      SkipWhitespace();
      if pos < |bytes| && (bytes[pos] == '*' || bytes[pos] == '/') {
        var op := bytes[pos];
        pos := pos + 1;
        var right := ParseFactor();
        if right.Err? {
          return false, right;
        }
        if op == '*' {
          return true, Ok(Product(value, right.value));
        }
        if m.isZero(right.value) {
          return false, Err(DivisionByZero);
        }
        return true, Ok(Quotient(value, right.value));
      }
      return false, Ok(value);
    }

    method ParseTerm() returns (out: Result<Val, Error>)
      requires Valid()
      modifies this
      ensures Valid() && old(pos) <= pos && Agrees(Term(m, old(Left())), out, Left()) && (out.Ok? ==> old(pos) < pos)
      decreases |bytes| - pos, 1
    {
      out := ParseFactor();
      var more := out.Ok?;
      while more
        invariant Valid() && old(pos) <= pos && (out.Ok? ==> old(pos) < pos)
        invariant more ==> out.Ok? && TermLoop(m, Left(), out.value) == Term(m, old(Left()))
        invariant !more ==> Agrees(Term(m, old(Left())), out, Left())
        decreases more, |bytes| - pos
      {
        more, out := NextFactor(out.value);
      }
    }

    method ParseFactor() returns (out: Result<Val, Error>)
      requires Valid()
      modifies this
      ensures Valid() && old(pos) <= pos && Agrees(Factor(m, old(Left())), out, Left()) && (out.Ok? ==> old(pos) < pos)
      decreases |bytes| - pos, 0
    {
      SkipWhitespace();
      if pos == |bytes| {
        return Err(UnexpectedEnd);
      }
      var c := bytes[pos];
      if c == '+' {
        pos := pos + 1;
        out := ParseFactor();
      } else if c == '-' {
        pos := pos + 1;
        var value := ParseFactor();
        out := if value.Ok? then Ok(Negated(value.value)) else value;
      } else if c == '(' {
        pos := pos + 1;
        var value := ParseExpr();
        if value.Err? {
          return value;
        }
        SkipWhitespace();
        if pos < |bytes| && bytes[pos] == ')' {
          pos := pos + 1;
          return value;
        }
        return Err(MissingParenthesis);
      } else if IsNumberChar(c) {
        out := ParseNumber();
      } else {
        return Err(UnexpectedChar(c));
      }
    }

    method ParseNumber() returns (out: Result<Val, Error>)
      requires Valid() && pos < |bytes| && IsNumberChar(bytes[pos])
      modifies this
      ensures Valid() && old(pos) < pos && Left() == AfterNumber(old(Left()))
      ensures var raw := NumberText(old(Left()));
              out == if m.isNumber(raw) then Ok(Literal(raw)) else Err(InvalidNumber(raw))
    {
      var start := pos;
      while pos < |bytes| && IsNumberChar(bytes[pos])
        invariant Valid() && start <= pos && forall i :: start <= i < pos ==> IsNumberChar(bytes[i])
      {
        pos := pos + 1;
      }
      var raw := bytes[start..pos];
      NumberEnds(bytes, start, pos);
      out := if m.isNumber(raw) then Ok(Literal(raw)) else Err(InvalidNumber(raw));
    }
  }

  method Evaluate(m: Machine, input: string) returns (out: Result<Val, Error>)
    ensures out == Evaluated(m, input)
  {
    var parser := new Parser(m, input);
    out := parser.ParseExpr();
    if out.Ok? {
      parser.SkipWhitespace();
      if parser.pos != |parser.bytes| {
        out := Err(Trailing(parser.bytes[parser.pos], parser.pos));
      }
    }
  }
}
