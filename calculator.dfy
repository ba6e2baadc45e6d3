/**
 * The restricted calculator tool (chapter7/my_calculator_tool.py:15-96): an
 * expression is parsed to a syntax tree, and only numbers, the four operators
 * `+ - * /`, the names `sqrt` and `pi` and calls of them are evaluated; every
 * other form, and every error on the way, gives one fixed message.
 *
 * Parsing (`ast.parse`), `math.sqrt` and `str` of a float are parameters.
 * Python's int and float stay apart (`2*3` is `6`, `12/2` is `6.0`); a float is an
 * exact real.
 */
module Calculator {
  import opened Wrappers
  import opened Text

  /** The operator classes a `BinOp` node may hold. */
  datatype BinaryOp = Add | Sub | Mult | Div | FloorDiv | Mod | Pow | LShift | RShift | BitOr | BitXor | BitAnd | MatMult

  /** The operator classes of a `UnaryOp` node (`-3` is `UnaryOp(USub, Constant(3))`). */
  datatype UnaryKind = UAdd | USub | Not | Invert

  /** What an expression evaluates to: an int, a float, or the function `math.sqrt` itself. */
  datatype Value = Int(i: int) | Float(x: real) | SqrtFunction

  /** The values a numeric constant can hold. */
  type Number = v: Value | !v.SqrtFunction? witness Int(0)

  /** The expression nodes of a parsed expression; nodes of any other class are `OtherNode`. */
  datatype Expr =
    | Constant(value: Number)
    | BinOp(left: Expr, op: BinaryOp, right: Expr)
    | Call(func: Expr, args: seq<Expr>)
    | Name(id: string)
    | UnaryOp(unary: UnaryKind, operand: Expr)
    | OtherNode(kind: string)

  /** The real number an int or a float stands for. */
  function RealOf(v: Value): real
    requires !v.SqrtFunction?
  {
    if v.Int? then v.i as real else v.x
  }

  /** `math.sqrt` on a number: None where it raises (a negative argument). */
  type Sqrt = real -> Option<real>

  /** `ast.parse(expression, mode='eval').body`: None where it raises. */
  type Parser = string -> Option<Expr>

  /** `math.pi`. */
  const Pi: real := 3.141592653589793

  const EmptyMessage := "计算表达式不能为空"
  const FailMessage := "计算失败，请检查表达式格式"

  /** The `functions` table (lines 36-39): the names that have a value. */
  function Lookup(name: string): (r: Option<Value>)
    ensures r.Some? <==> name == "sqrt" || name == "pi"
  {
    if name == "sqrt" then Some(SqrtFunction)
    else if name == "pi" then Some(Float(Pi))
    else None
  }

  /**
   * `operators.get(type(node.op))` applied to the operands (lines 28-33, 75-78):
   * only the four operators, only on numbers, and no division by zero. An int
   * comes out only of `+`, `-` or `*` on two ints; `/` always gives a float.
   */
  function Apply(op: BinaryOp, a: Value, b: Value): (r: Option<Value>)
    ensures r.Some? <==> (op == Add || op == Sub || op == Mult || op == Div) && !a.SqrtFunction? && !b.SqrtFunction?
                         && !(op == Div && RealOf(b) == 0.0)
    ensures r.Some? ==> !r.value.SqrtFunction? && (r.value.Int? <==> op != Div && a.Int? && b.Int?)
  {
    if a.SqrtFunction? || b.SqrtFunction? then None
    else match op
      case Add => Some(if a.Int? && b.Int? then Int(a.i + b.i) else Float(RealOf(a) + RealOf(b)))
      case Sub => Some(if a.Int? && b.Int? then Int(a.i - b.i) else Float(RealOf(a) - RealOf(b)))
      case Mult => Some(if a.Int? && b.Int? then Int(a.i * b.i) else Float(RealOf(a) * RealOf(b)))
      case Div => if RealOf(b) == 0.0 then None else Some(Float(RealOf(a) / RealOf(b)))
      case _ => None
  }

  /** `functions[func_name](*args)` (line 87): only `sqrt` is callable, on one number, and it gives a float. */
  function CallValue(f: Value, args: seq<Value>, sqrt: Sqrt): (r: Option<Value>)
    ensures r.Some? ==> f.SqrtFunction? && |args| == 1 && !args[0].SqrtFunction? && r.value.Float?
  {
    if f.SqrtFunction? && |args| == 1 && !args[0].SqrtFunction? then
      match sqrt(RealOf(args[0]))
      case Some(y) => Some(Float(y))
      case None => None
    else None
  }

  /** `_eval_node` (lines 56-96): None where it raises. */
  function Eval(e: Expr, sqrt: Sqrt): (r: Option<Value>)
    ensures (r.Some? && r.value.SqrtFunction?) <==> e == Name("sqrt")
    decreases e
  {
    match e
    case Constant(x) => Some(x)
    case BinOp(l, op, r) =>
      (match Eval(l, sqrt)
       case None => None
       case Some(a) =>
         match Eval(r, sqrt)
         case None => None
         case Some(b) => Apply(op, a, b))
    case Call(f, args) =>
      if f.Name? && Lookup(f.id).Some? then
        (match EvalArgs(args, sqrt)
         case None => None
         case Some(vs) => CallValue(Lookup(f.id).value, vs, sqrt))
      else None
    case Name(id) => Lookup(id)
    case _ => None
  }

  /** The list of the arguments' values, left to right; None where one of them raises. */
  function EvalArgs(args: seq<Expr>, sqrt: Sqrt): (r: Option<seq<Value>>)
    ensures r.Some? ==> |r.value| == |args|
    decreases args
  {
    if args == [] then Some([])
    else match Eval(args[0], sqrt)
      case None => None
      case Some(v) =>
        match EvalArgs(args[1..], sqrt)
        case None => None
        case Some(vs) => Some([v] + vs)
  }

  /** `str(n)` for an int: a minus sign for a negative one, then the decimal digits of its magnitude. */
  function IntToString(i: int): (r: string)
    ensures r != [] && (i < 0 <==> r[0] == '-')
    ensures DigitsValue(if i < 0 then r[1..] else r) == if i < 0 then -i else i
  {
    SignedDigits(i);
    if i < 0 then "-" + NatToString(-i) else NatToString(i)
  }

  /** The text of an int starts with `-` exactly when it is negative, and its digits give the magnitude. */
  lemma {:induction false} SignedDigits(i: int)
    ensures var r := if i < 0 then "-" + NatToString(-i) else NatToString(i);
      r != [] && (i < 0 <==> r[0] == '-') && DigitsValue(if i < 0 then r[1..] else r) == if i < 0 then -i else i
  {
    var n: nat := if i < 0 then -i else i;
    var t := NatToString(n);
    NatToStringValue(n);
    assert '0' <= t[0] <= '9';
    if i < 0 {
      var r := "-" + t;
      assert r[0] == '-';
      assert r[1..] == t;
    }
  }

  /** `str(result)` (line 51): an int in decimal, a float by `showFloat`, and `math.sqrt` by its built-in name. */
  function Show(v: Value, showFloat: real -> string): string {
    match v
    case Int(i) => IntToString(i)
    case Float(x) => showFloat(x)
    case SqrtFunction => "<built-in function sqrt>"
  }

  /** `my_calculate` (lines 15-54): never raises, whatever the expression. */
  function Calculate(expression: string, parse: Parser, sqrt: Sqrt, showFloat: real -> string): (r: string)
    ensures AllSpace(expression) ==> r == EmptyMessage
    ensures !AllSpace(expression) && (parse(expression).None? || Eval(parse(expression).value, sqrt).None?) ==> r == FailMessage
    ensures !AllSpace(expression) && parse(expression).Some? && Eval(parse(expression).value, sqrt).Some? ==>
      r == Show(Eval(parse(expression).value, sqrt).value, showFloat)
  {
    StripEmpty(expression);
    if Strip(expression) == [] then EmptyMessage
    else match parse(expression)
      case None => FailMessage
      case Some(node) =>
        match Eval(node, sqrt)
        case None => FailMessage
        case Some(v) => Show(v, showFloat)
  }

  /** `not expression.strip()` holds exactly for whitespace-only text. */
  lemma {:induction false} StripEmpty(s: string)
    ensures Strip(s) == [] <==> AllSpace(s)
  {
    var t := TrimStart(s);
    TrimStartSpaces(s);
    TrimEndSpaces(t);
    if AllSpace(s) {
      assert AllSpace(s + []);
      assert s + [] == s;
      TrimStartOver(s, []);
    }
  }

  // ---- Properties ----

  /** The forms the evaluator accepts: numbers, the four operators, `sqrt` and `pi`, and `sqrt(x)`. */
  ghost predicate Allowed(e: Expr)
    decreases e
  {
    match e
    case Constant(_) => true
    case BinOp(l, op, r) => (op == Add || op == Sub || op == Mult || op == Div) && Allowed(l) && Allowed(r)
    case Call(f, args) => f == Name("sqrt") && |args| == 1 && Allowed(args[0])
    case Name(id) => id == "sqrt" || id == "pi"
    case _ => false
  }

  /**
   * Whatever the evaluator accepts is built from the allowed forms only: any other
   * operator, unary operator, name, callee or node kind anywhere in the tree makes
   * it fail, and so does calling `pi` or calling `sqrt` without exactly one argument.
   */
  lemma {:induction false} EvalOnlyAllowed(e: Expr, sqrt: Sqrt)
    ensures Eval(e, sqrt).Some? ==> Allowed(e)
    decreases e
  {
    match e
    case Constant(_) =>
    case BinOp(l, op, r) =>
      EvalOnlyAllowed(l, sqrt);
      EvalOnlyAllowed(r, sqrt);
    case Call(f, args) =>
      if Eval(e, sqrt).Some? {
        var vs := EvalArgs(args, sqrt).value;
        assert |vs| == 1;
        assert Eval(args[0], sqrt).Some?;
        EvalOnlyAllowed(args[0], sqrt);
      }
    case Name(_) =>
    case UnaryOp(_, _) =>
    case OtherNode(_) =>
  }

  /** The division-free, sqrt-free part of the language. */
  ghost predicate Arith(e: Expr)
    decreases e
  {
    match e
    case Constant(_) => true
    case BinOp(l, op, r) => (op == Add || op == Sub || op == Mult) && Arith(l) && Arith(r)
    case Name(id) => id == "pi"
    case _ => false
  }

  /** `+`, `-` or `*` of two numbers. */
  function Combine(op: BinaryOp, x: real, y: real): real {
    if op == Add then x + y
    else if op == Sub then x - y
    else x * y
  }

  /** The value of an `Arith` expression in ordinary arithmetic. */
  ghost function Denote(e: Expr): real
    requires Arith(e)
    decreases e
  {
    match e
    case Constant(x) => RealOf(x)
    case BinOp(l, op, r) => Combine(op, Denote(l), Denote(r))
    case Name(_) => Pi
  }

  /** On two numbers, `+`, `-` and `*` compute their arithmetic result, whether on ints or on floats. */
  lemma {:induction false} ApplyArith(op: BinaryOp, a: Number, b: Number)
    requires op == Add || op == Sub || op == Mult
    ensures Apply(op, a, b).Some? && RealOf(Apply(op, a, b).value) == Combine(op, RealOf(a), RealOf(b))
  {
    if a.Int? && b.Int? {
      IntArith(op, a.i, b.i);
    } else {
      var x, y := RealOf(a), RealOf(b);
      if op == Add {
        assert Apply(op, a, b) == Some(Float(x + y));
      } else if op == Sub {
        assert Apply(op, a, b) == Some(Float(x - y));
      } else {
        assert Apply(op, a, b).value.x == x * y;
      }
    }
  }

  /** On two ints `+`, `-` and `*` give the int whose value is the real result. */
  lemma IntArith(op: BinaryOp, i: int, j: int)
    requires op == Add || op == Sub || op == Mult
    ensures Apply(op, Int(i), Int(j)).Some? && RealOf(Apply(op, Int(i), Int(j)).value) == Combine(op, i as real, j as real)
  {
    if op == Mult {
      assert (i * j) as real == i as real * j as real;
    }
  }

  /** Without division and `sqrt` the evaluator never fails, and computes the arithmetic value. */
  lemma {:induction false} ArithEvaluates(e: Expr, sqrt: Sqrt)
    requires Arith(e)
    ensures Eval(e, sqrt).Some? && !Eval(e, sqrt).value.SqrtFunction?
    ensures RealOf(Eval(e, sqrt).value) == Denote(e)
    decreases e
  {
    match e
    case Constant(_) =>
    case BinOp(l, op, r) =>
      ArithEvaluates(l, sqrt);
      ArithEvaluates(r, sqrt);
      var a, b := Eval(l, sqrt).value, Eval(r, sqrt).value;
      assert Eval(e, sqrt) == Apply(op, a, b);
      ApplyArith(op, a, b);
    case Name(_) =>
  }

  /** `/` of two numbers is the quotient of their values, always a float (`operator.truediv`). */
  lemma {:induction false} DivisionValue(l: Expr, r: Expr, sqrt: Sqrt, a: Number, b: Number)
    requires Eval(l, sqrt) == Some(a) && Eval(r, sqrt) == Some(b) && RealOf(b) != 0.0
    ensures Eval(BinOp(l, Div, r), sqrt) == Some(Float(RealOf(a) / RealOf(b)))
  {
  }

  /** Dividing by anything that evaluates to zero, an int or a float, fails. */
  lemma {:induction false} DivisionByZeroFails(l: Expr, r: Expr, sqrt: Sqrt, b: Number)
    requires Eval(r, sqrt) == Some(b) && RealOf(b) == 0.0
    ensures Eval(BinOp(l, Div, r), sqrt).None?
  {
  }

  /** The trees built from int constants with `+`, `-` and `*` only. */
  ghost predicate IntExpr(e: Expr)
    decreases e
  {
    match e
    case Constant(v) => v.Int?
    case BinOp(l, op, r) => (op == Add || op == Sub || op == Mult) && IntExpr(l) && IntExpr(r)
    case _ => false
  }

  /**
   * A result is an int exactly when the tree is built from int constants with `+`,
   * `-` and `*`: a float constant, `/`, `pi` or `sqrt(x)` anywhere makes it a float.
   */
  lemma {:induction false} IntResults(e: Expr, sqrt: Sqrt)
    requires Eval(e, sqrt).Some?
    ensures Eval(e, sqrt).value.Int? <==> IntExpr(e)
    decreases e
  {
    match e
    case Constant(_) =>
    case BinOp(l, op, r) =>
      IntResults(l, sqrt);
      IntResults(r, sqrt);
    case Call(f, args) =>
    case Name(_) =>
    case UnaryOp(_, _) =>
    case OtherNode(_) =>
  }

  /** `sqrt(x)` is `math.sqrt` of the value of `x`, a float, and fails where that raises. */
  lemma {:induction false} SqrtCall(a: Expr, sqrt: Sqrt)
    ensures Eval(Call(Name("sqrt"), [a]), sqrt) ==
      match Eval(a, sqrt)
      case Some(v) =>
        if v.SqrtFunction? then None
        else (match sqrt(RealOf(v)) case Some(y) => Some(Float(y)) case None => None)
      case None => None
  {
    assert [a][1..] == [];
    assert EvalArgs([], sqrt) == Some([]);
    match Eval(a, sqrt)
    case None =>
    case Some(v) =>
      assert [a][0] == a && [v] + [] == [v];
      assert EvalArgs([a], sqrt) == Some([v]);
  }

  /**
   * The calculator's answer to text that is not blank is the fixed failure message,
   * or the text of an allowed expression's value: the decimal digits of an int, so
   * that an int result and a float result are shown apart.
   */
  lemma {:induction false} CalculateAnswers(expression: string, parse: Parser, sqrt: Sqrt, showFloat: real -> string)
    requires !AllSpace(expression)
    ensures Calculate(expression, parse, sqrt, showFloat) == FailMessage
         || (exists v :: Calculate(expression, parse, sqrt, showFloat) == Show(v, showFloat)
               && Allowed(parse(expression).value) && (v.Int? <==> IntExpr(parse(expression).value)))
  {
    var node := parse(expression);
    if node.Some? && Eval(node.value, sqrt).Some? {
      EvalOnlyAllowed(node.value, sqrt);
      IntResults(node.value, sqrt);
      var v := Eval(node.value, sqrt).value;
      assert Calculate(expression, parse, sqrt, showFloat) == Show(v, showFloat);
    }
  }
}
