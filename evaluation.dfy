/** Evaluation of a token list in reverse Polish notation against an
    operation registry (Evaluation.cs). The value stack is a sequence whose
    top is its last element. `Run` is the evaluation written as a recursive
    function, one token per call; `EvaluateRpn` is the loop of the C# code,
    proved to compute it. */
module Evaluation {
  import opened Results
  import opened Tokenization
  import opened Operations

  // ---------------------------------------------------------------------------
  // Number texts

  function DigitValue(c: char): nat
    requires IsDigit(c)
  {
    c as int - '0' as int
  }

  predicate AllDigits(s: string) {
    forall k :: 0 <= k < |s| ==> IsDigit(s[k])
  }

  /** The value of a run of decimal digits. */
  function DigitsValue(s: string): nat
    requires AllDigits(s)
  {
    if s == [] then 0 else DigitsValue(s[..|s| - 1]) * 10 + DigitValue(s[|s| - 1])
  }

  function Pow10(n: nat): (p: nat)
    ensures p >= 1
  {
    if n == 0 then 1 else 10 * Pow10(n - 1)
  }

  /** The position of the dot in a number text, or its length when it has
      none. */
  function DotIndex(s: string): (d: nat)
    ensures d <= |s|
    ensures forall k :: 0 <= k < d ==> s[k] != '.'
    ensures d < |s| ==> s[d] == '.'
  {
    if s == [] || s[0] == '.' then 0 else 1 + DotIndex(s[1..])
  }

  /** The texts the number parse accepts: digits with at most one dot and at
      least one digit. */
  predicate Numeral(s: string) {
    NumberText(s) && exists k :: 0 <= k < |s| && IsDigit(s[k])
  }

  /** double.TryParse on a number token (Evaluation.cs:16-17): the digits
      before the dot are the integer part, those after it the fraction. */
  function ParseNumber(text: string): (r: Option<real>)
    ensures r.Some? <==> Numeral(text)
    ensures r.Some? ==> r.value >= 0.0
  {
    if !Numeral(text) then None
    else
      var d := DotIndex(text);
      var whole := text[..d];
      var frac := if d < |text| then text[d + 1..] else [];
      NumeralParts(text, d);
      Some(DigitsValue(whole) as real + DigitsValue(frac) as real / Pow10(|frac|) as real)
  }

  lemma NumeralParts(text: string, d: nat)
    requires NumberText(text) && d == DotIndex(text)
    ensures AllDigits(text[..d])
    ensures d < |text| ==> AllDigits(text[d + 1..])
  {
    if d < |text| {
      var frac := text[d + 1..];
      forall k | 0 <= k < |frac|
        ensures IsDigit(frac[k])
      {
        assert text[d + 1..][k] == text[d + 1 + k];
      }
    }
  }

  /** The decimal digits of a natural number, without leading zeros. */
  function DecimalText(n: nat): (s: string)
    ensures |s| > 0 && AllDigits(s)
  {
    var digit := ('0' as int + n % 10) as char;
    if n < 10 then [digit] else DecimalText(n / 10) + [digit]
  }

  lemma {:induction false} DecimalTextValue(n: nat)
    ensures DigitsValue(DecimalText(n)) == n
  {
    var s := DecimalText(n);
    assert s[..|s| - 1] == if n < 10 then [] else DecimalText(n / 10);
    if n >= 10 {
      DecimalTextValue(n / 10);
    }
  }

  /** Parsing the decimal text of a natural number gives the number back. */
  lemma ParseDecimalText(n: nat)
    ensures ParseNumber(DecimalText(n)) == Some(n as real)
  {
    var s := DecimalText(n);
    DecimalTextValue(n);
    assert IsDigit(s[0]);
    assert NumberText(s);
    assert DotIndex(s) == |s| by {
      DotFree(s);
    }
    assert s[..|s|] == s;
  }

  lemma {:induction false} DotFree(s: string)
    requires AllDigits(s)
    ensures DotIndex(s) == |s|
  {
    if s != [] {
      DotFree(s[1..]);
    }
  }

  /** A lone dot is a number token that does not parse; a fraction parses
      to its value. */
  lemma NumeralExamples()
    ensures ParseNumber(".") == None
    ensures ParseNumber("2.5") == Some(2.5)
    ensures ParseNumber(".5") == Some(0.5)
    ensures ParseNumber("5.") == Some(5.0)
  {
    assert !IsDigit('.');
    DecimalFraction();
    BareFraction();
    TrailingDot();
  }

  lemma DecimalFraction()
    ensures ParseNumber("2.5") == Some(2.5)
  {
    var a := "2.5";
    assert DotIndex(a) == 1 && a[..1] == "2" && a[2..] == "5";
    assert "2"[..0] == [] && "5"[..0] == [];
    assert IsDigit(a[0]);
  }

  lemma BareFraction()
    ensures ParseNumber(".5") == Some(0.5)
  {
    var b := ".5";
    assert DotIndex(b) == 0 && b[..0] == [] && b[1..] == "5";
    assert "5"[..0] == [];
    assert IsDigit(b[1]);
  }

  lemma TrailingDot()
    ensures ParseNumber("5.") == Some(5.0)
  {
    var c := "5.";
    assert DotIndex(c) == 1 && c[..1] == "5" && c[2..] == [];
    assert "5"[..0] == [];
    assert IsDigit(c[0]);
  }

  // ---------------------------------------------------------------------------
  // The evaluation

  /** One pass of the loop of Evaluation.cs:12-46 on token t. */
  function EvalStep(stack: seq<real>, t: Token, ops: map<string, Operation>, m: MathLib): Result<seq<real>> {
    match t.kind
    case Number =>
      var v := ParseNumber(t.text);
      if v.None? then Err(InvalidNumber(t.text)) else Ok(stack + [v.value])
    case Op =>
      if t.text !in ops then Err(UnknownOp(t.text))
      else
        var op := ops[t.text];
        if op.Arity() == 1 then
          if |stack| < 1 then Err(MissingOperand(t.text))
          else
            var res :- Apply(op, [stack[|stack| - 1]], m);
            Ok(stack[..|stack| - 1] + [res])
        else
          if |stack| < 2 then Err(MissingOperand(t.text))
          else
            var res :- Apply(op, [stack[|stack| - 2], stack[|stack| - 1]], m);
            Ok(stack[..|stack| - 2] + [res])
    case _ => Err(UnexpectedToken)
  }

  /** The stack after every token of `rpn`, starting from `stack`. */
  function Run(rpn: seq<Token>, stack: seq<real>, ops: map<string, Operation>, m: MathLib): Result<seq<real>>
    decreases |rpn|
  {
    if rpn == [] then Ok(stack)
    else
      match EvalStep(stack, rpn[0], ops, m)
      case Err(e) => Err(e)
      case Ok(stack') => Run(rpn[1..], stack', ops, m)
  }

  /** Evaluator.EvaluateRpn: exactly one value must be left. */
  function Evaluate(rpn: seq<Token>, ops: map<string, Operation>, m: MathLib): Result<real> {
    var stack :- Run(rpn, [], ops, m);
    if |stack| != 1 then Err(InvalidExpression) else Ok(stack[0])
  }

  /** Evaluator.EvaluateRpn (Evaluation.cs:8-50). */
  method EvaluateRpn(rpn: seq<Token>, registry: OpRegistry, m: MathLib) returns (r: Result<real>)
    ensures r == Evaluate(rpn, registry.ops, m)
  {
    var stack: seq<real> := [];
    for i := 0 to |rpn|
      invariant Run(rpn[i..], stack, registry.ops, m) == Run(rpn, [], registry.ops, m)
    {
      var t := rpn[i];
      assert rpn[i..][0] == t && rpn[i..][1..] == rpn[i + 1..];
      match t.kind {
        case Number =>
          var v := ParseNumber(t.text);
          if v.None? {
            return Err(InvalidNumber(t.text));
          }
          stack := stack + [v.value];
        case Op =>
          var found := registry.TryGet(t.text);
          if found.None? {
            return Err(UnknownOp(t.text));
          }
          var op := found.value;
          if op.Arity() == 1 {
            if |stack| < 1 {
              return Err(MissingOperand(t.text));
            }
            var a := stack[|stack| - 1];
            stack := stack[..|stack| - 1];
            var res := ApplyOp(op, [a], m);
            if res.Err? {
              return Err(res.error);
            }
            stack := stack + [res.value];
          } else {
            if |stack| < 2 {
              return Err(MissingOperand(t.text));
            }
            var b := stack[|stack| - 1];
            var a := stack[|stack| - 2];
            stack := stack[..|stack| - 2];
            var res := ApplyOp(op, [a, b], m);
            if res.Err? {
              return Err(res.error);
            }
            stack := stack + [res.value];
          }
        case _ =>
          return Err(UnexpectedToken);
      }
    }
    assert rpn[|rpn|..] == [];
    if |stack| != 1 {
      return Err(InvalidExpression);
    }
    r := Ok(stack[0]);
  }

  // ---------------------------------------------------------------------------
  // Properties of the evaluation

  /** Evaluating two token lists one after the other is evaluating their
      concatenation; the first error stops it. */
  lemma {:induction false} RunConcat(a: seq<Token>, b: seq<Token>, stack: seq<real>, ops: map<string, Operation>, m: MathLib)
    ensures Run(a + b, stack, ops, m) ==
      match Run(a, stack, ops, m)
      case Err(e) => Err(e)
      case Ok(stack') => Run(b, stack', ops, m)
    decreases |a|
  {
    if a == [] {
      assert a + b == b;
    } else {
      assert (a + b)[0] == a[0] && (a + b)[1..] == a[1..] + b;
      match EvalStep(stack, a[0], ops, m)
      case Err(e) =>
      case Ok(stack') => RunConcat(a[1..], b, stack', ops, m);
    }
  }

  /** A binary operator of the registry. */
  predicate IsBinary(t: Token, ops: map<string, Operation>) {
    t.kind == Op && t.text in ops && ops[t.text].Arity() != 1
  }

  function CountNumbers(rpn: seq<Token>): nat {
    if rpn == [] then 0 else (if rpn[0].kind == Number then 1 else 0) + CountNumbers(rpn[1..])
  }

  function CountBinary(rpn: seq<Token>, ops: map<string, Operation>): nat {
    if rpn == [] then 0 else (if IsBinary(rpn[0], ops) then 1 else 0) + CountBinary(rpn[1..], ops)
  }

  /** Every number pushes one value, every unary operator keeps the height
      and every binary one lowers it by one. */
  lemma {:induction false} RunHeight(rpn: seq<Token>, stack: seq<real>, ops: map<string, Operation>, m: MathLib)
    ensures var r := Run(rpn, stack, ops, m);
      r.Ok? ==> |r.value| + CountBinary(rpn, ops) == |stack| + CountNumbers(rpn)
    decreases |rpn|
  {
    if rpn != [] {
      var s := EvalStep(stack, rpn[0], ops, m);
      if s.Ok? {
        RunHeight(rpn[1..], s.value, ops, m);
      }
    }
  }

  /** A parsable number or a registered operator. */
  predicate Evaluable(t: Token, ops: map<string, Operation>) {
    (t.kind == Number && ParseNumber(t.text).Some?) || (t.kind == Op && t.text in ops)
  }

  /** Every token of a successful run is a parsable number or a registered
      operator. */
  lemma {:induction false} RunTokens(rpn: seq<Token>, stack: seq<real>, ops: map<string, Operation>, m: MathLib)
    ensures Run(rpn, stack, ops, m).Ok? ==> forall k :: 0 <= k < |rpn| ==> Evaluable(rpn[k], ops)
    decreases |rpn|
  {
    if rpn != [] {
      var s := EvalStep(stack, rpn[0], ops, m);
      if s.Ok? {
        RunTokens(rpn[1..], s.value, ops, m);
        assert forall k :: 1 <= k < |rpn| ==> rpn[k] == rpn[1..][k - 1];
      }
    }
  }

  /** A successful evaluation read one more number than it applied binary
      operators, and met no unregistered operator. */
  lemma EvaluateShape(rpn: seq<Token>, ops: map<string, Operation>, m: MathLib)
    ensures Evaluate(rpn, ops, m).Ok? ==> CountNumbers(rpn) == CountBinary(rpn, ops) + 1
    ensures Evaluate(rpn, ops, m).Ok? ==>
      forall k :: 0 <= k < |rpn| && rpn[k].kind == Op ==> rpn[k].text in ops
  {
    RunHeight(rpn, [], ops, m);
    RunTokens(rpn, [], ops, m);
  }

  // ---------------------------------------------------------------------------
  // Expression trees: what a token list in reverse Polish notation denotes

  /** An expression over number texts and operator symbols. */
  datatype Expr =
    | Lit(text: string)
    | Unary(sym: string, arg: Expr)
    | Binary(sym: string, left: Expr, right: Expr)

  /** The postfix form of an expression: operands first, then the operator. */
  function Postfix(e: Expr): seq<Token> {
    match e
    case Lit(text) => [Token(Number, text)]
    case Unary(sym, a) => Postfix(a) + [Token(Op, sym)]
    case Binary(sym, l, r) => Postfix(l) + Postfix(r) + [Token(Op, sym)]
  }

  /** Every operator of the expression is registered with the arity at which
      it is used. */
  predicate Arities(e: Expr, ops: map<string, Operation>) {
    match e
    case Lit(_) => true
    case Unary(sym, a) => sym in ops && ops[sym].Arity() == 1 && Arities(a, ops)
    case Binary(sym, l, r) => sym in ops && ops[sym].Arity() != 1 && Arities(l, ops) && Arities(r, ops)
  }

  /** The value of an expression, the left operand before the right one. */
  function Value(e: Expr, ops: map<string, Operation>, m: MathLib): Result<real>
    requires Arities(e, ops)
  {
    match e
    case Lit(text) =>
      var v := ParseNumber(text);
      if v.None? then Err(InvalidNumber(text)) else Ok(v.value)
    case Unary(sym, a) =>
      var x :- Value(a, ops, m);
      Apply(ops[sym], [x], m)
    case Binary(sym, l, r) =>
      var x :- Value(l, ops, m);
      var y :- Value(r, ops, m);
      Apply(ops[sym], [x, y], m)
  }

  /** Evaluating the postfix form of an expression pushes its value on
      whatever stack it starts from, or fails with the error the expression
      evaluates to. */
  lemma {:induction false} RunPostfix(e: Expr, stack: seq<real>, ops: map<string, Operation>, m: MathLib)
    requires Arities(e, ops)
    ensures Run(Postfix(e), stack, ops, m) ==
      match Value(e, ops, m)
      case Err(x) => Err(x)
      case Ok(v) => Ok(stack + [v])
  {
    match e
    case Lit(text) =>
      assert Postfix(e)[1..] == [];
    case Unary(sym, a) =>
      RunPostfix(a, stack, ops, m);
      RunConcat(Postfix(a), [Token(Op, sym)], stack, ops, m);
      var va := Value(a, ops, m);
      if va.Ok? {
        RunUnary(sym, stack, va.value, ops, m);
      }
    case Binary(sym, l, r) =>
      RunPostfix(l, stack, ops, m);
      RunConcat(Postfix(l) + Postfix(r), [Token(Op, sym)], stack, ops, m);
      RunConcat(Postfix(l), Postfix(r), stack, ops, m);
      var vl := Value(l, ops, m);
      if vl.Ok? {
        var s1 := stack + [vl.value];
        RunPostfix(r, s1, ops, m);
        var vr := Value(r, ops, m);
        if vr.Ok? {
          RunBinary(sym, stack, vl.value, vr.value, ops, m);
        }
      }
  }

  /** A unary operator replaces the value on top of the stack by its result. */
  lemma RunUnary(sym: string, stack: seq<real>, x: real, ops: map<string, Operation>, m: MathLib)
    requires sym in ops && ops[sym].Arity() == 1
    ensures var r := Apply(ops[sym], [x], m);
      Run([Token(Op, sym)], stack + [x], ops, m) == if r.Err? then Err(r.error) else Ok(stack + [r.value])
  {
    var s1 := stack + [x];
    assert s1[|s1| - 1] == x && s1[..|s1| - 1] == stack;
    assert [Token(Op, sym)][1..] == [];
  }

  /** A binary operator replaces the two values on top of the stack by its
      result, the lower one as its left operand. */
  lemma RunBinary(sym: string, stack: seq<real>, x: real, y: real, ops: map<string, Operation>, m: MathLib)
    requires sym in ops && ops[sym].Arity() != 1
    ensures var r := Apply(ops[sym], [x, y], m);
      Run([Token(Op, sym)], stack + [x] + [y], ops, m) == if r.Err? then Err(r.error) else Ok(stack + [r.value])
  {
    var s2 := stack + [x] + [y];
    assert s2[|s2| - 2] == x && s2[|s2| - 1] == y && s2[..|s2| - 2] == stack;
    assert [Token(Op, sym)][1..] == [];
  }

  /** The evaluation of a postfix form is the value of its expression. */
  lemma EvaluatePostfix(e: Expr, ops: map<string, Operation>, m: MathLib)
    requires Arities(e, ops)
    ensures Evaluate(Postfix(e), ops, m) == Value(e, ops, m)
  {
    RunPostfix(e, [], ops, m);
  }
}
