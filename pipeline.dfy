/** The three stages run one after the other, as the console front end does
    for each complete expression (Program.cs:22-32), and the facts that
    only show when they are put together. */
module Pipeline {
  import opened Results
  import opened Tokenization
  import opened Parsing
  import opened Operations
  import opened Evaluation

  /** Tokenize, convert to reverse Polish notation, evaluate against the
      default registry; the first stage that fails gives the error. */
  function Calculation(expr: string, m: MathLib): Result<real> {
    var tokens :- Lex(expr, 0);
    var rpn :- Parse(tokens);
    Evaluate(rpn, DefaultOps(), m)
  }

  /** The body of the try block of Program.cs:22-32: the chain of lines 24-26. */
  method Calculate(expr: string, registry: OpRegistry, m: MathLib) returns (r: Result<real>)
    requires registry.ops == DefaultOps()
    ensures r == Calculation(expr, m)
  {
    var tokens := Tokenize(expr);
    if tokens.Err? {
      return Err(tokens.error);
    }
    var rpn := ToRpn(tokens.value);
    if rpn.Err? {
      return Err(rpn.error);
    }
    r := EvaluateRpn(rpn.value, registry, m);
  }

  // ---------------------------------------------------------------------------
  // The parser's table against the registry

  /** The parser knows `neg` and the registry does not; the registry knows
      `abs` and the parser does not; they agree on every other symbol. */
  lemma TablesDisagree()
    ensures Parsing.Ops.Keys - DefaultOps().Keys == {"neg"}
    ensures DefaultOps().Keys - Parsing.Ops.Keys == {"abs"}
  {
    ParserOnlyNeg();
    RegistryOnlyAbs();
    assert "neg" in Parsing.Ops && "neg" !in DefaultOps();
    assert "abs" in DefaultOps() && "abs" !in Parsing.Ops;
  }

  lemma ParserOnlyNeg()
    ensures forall s :: s in Parsing.Ops ==> s == "neg" || s in DefaultOps()
  {
    forall s | s in Parsing.Ops
      ensures s == "neg" || s in DefaultOps()
    {
      assert s == "!" || s == "^" || s == "neg" || s == "sqrt" || s == "sin" || s == "cos" || s == "tan"
        || s == "ln" || s == "log" || s == "exp" || s == "*" || s == "/" || s == "%" || s == "+" || s == "-";
    }
  }

  lemma RegistryOnlyAbs()
    ensures forall s :: s in DefaultOps() ==> s == "abs" || s in Parsing.Ops
  {
    forall s | s in DefaultOps()
      ensures s == "abs" || s in Parsing.Ops
    {
      assert s == "+" || s == "-" || s == "*" || s == "/" || s == "%" || s == "^" || s == "sqrt" || s == "abs"
        || s == "!" || s == "sin" || s == "cos" || s == "tan" || s == "ln" || s == "log" || s == "exp";
    }
  }

  lemma {:induction false} ResolvedOpsHas(input: seq<Token>, i: nat, k: nat)
    requires i <= k < |input| && input[k].kind == Op
    ensures ResolvedSymbol(input, k) in ResolvedOps(input, i)
    decreases k - i
  {
    if i < k {
      ResolvedOpsHas(input, i + 1, k);
    }
  }

  lemma {:induction false} OpSymbolsHas(ts: seq<Token>, s: string)
    requires s in OpSymbols(ts)
    ensures exists j :: 0 <= j < |ts| && ts[j].kind == Op && ts[j].text == s
  {
    if ts[0].kind == Op && ts[0].text == s {
      assert ts[0].kind == Op;
    } else {
      OpSymbolsHas(ts[1..], s);
      var j :| 0 <= j < |ts[1..]| && ts[1..][j].kind == Op && ts[1..][j].text == s;
      assert ts[j + 1] == ts[1..][j];
    }
  }

  /** A minus read as unary becomes `neg`, which the registry lacks: once
      the conversion succeeds, the evaluation fails. */
  lemma UnaryMinusNeverEvaluates(input: seq<Token>, k: nat, m: MathLib)
    requires k < |input| && input[k].kind == Op && ResolvedSymbol(input, k) == "neg"
    requires Parse(input).Ok?
    ensures Evaluate(Parse(input).value, DefaultOps(), m).Err?
  {
    var rpn := Parse(input).value;
    ParseProperties(input);
    ResolvedOpsHas(input, 0, k);
    OpSymbolsHas(rpn, "neg");
    var j :| 0 <= j < |rpn| && rpn[j].kind == Op && rpn[j].text == "neg";
    DefaultOpsComplete();
    EvaluateShape(rpn, DefaultOps(), m);
  }

  /** The registry's `abs` cannot be reached: any input holding it fails to
      convert. */
  lemma AbsNeverParses(input: seq<Token>, k: nat)
    requires k < |input| && input[k] == Token(Op, "abs")
    ensures Parse(input).Err?
  {
    ParseProperties(input);
    assert ResolvedSymbol(input, k) == "abs";
  }

  /** The lexer's number texts parse, except a lone dot. */
  lemma LexedNumbersParse(s: string, i: nat)
    requires i <= |s| && Lex(s, i).Ok?
    ensures forall t :: t in Lex(s, i).value && t.kind == Number ==>
      (ParseNumber(t.text).Some? <==> t.text != ".")
  {
    LexTokensWellFormed(s, i);
    forall t | t in Lex(s, i).value && t.kind == Number
      ensures ParseNumber(t.text).Some? <==> t.text != "."
    {
      assert WellFormed(t);
      DotOnly(t.text);
    }
  }

  lemma DotOnly(text: string)
    requires NumberText(text)
    ensures Numeral(text) <==> text != "."
  {
    if text == "." {
      assert !IsDigit(text[0]);
    } else if IsDigit(text[0]) {
      assert 0 <= 0 < |text| && IsDigit(text[0]);
    } else {
      assert text == [text[0]] + text[1..];
      assert |text[1..]| > 0;
      assert text[1] != '.';
      assert 0 <= 1 < |text| && IsDigit(text[1]);
    }
  }

  // ---------------------------------------------------------------------------
  // Whole expressions

  /** `2 + 3 * 4` evaluates to 14 through the postfix form the parser builds
      for it. */
  lemma PrecedenceEvaluates(m: MathLib)
    ensures Evaluate([Num("2"), Num("3"), Num("4"), Sym("*"), Sym("+")], DefaultOps(), m) == Ok(14.0)
  {
    var ops := DefaultOps();
    var e := Binary("+", Lit("2"), Binary("*", Lit("3"), Lit("4")));
    PrecedenceTree();
    DefaultOpsComplete();
    assert AddOp.Symbol() == "+" && MulOp.Symbol() == "*";
    PrecedenceValue(ops, m);
    EvaluatePostfix(e, ops, m);
  }

  /** The postfix form of `2 + (3 * 4)`. */
  lemma PrecedenceTree()
    ensures Postfix(Binary("+", Lit("2"), Binary("*", Lit("3"), Lit("4"))))
      == [Num("2"), Num("3"), Num("4"), Sym("*"), Sym("+")]
  {
    assert Postfix(Binary("*", Lit("3"), Lit("4"))) == [Num("3"), Num("4"), Sym("*")];
  }

  lemma PrecedenceValue(ops: map<string, Operation>, m: MathLib)
    requires "+" in ops && ops["+"] == AddOp && "*" in ops && ops["*"] == MulOp
    ensures Arities(Binary("+", Lit("2"), Binary("*", Lit("3"), Lit("4"))), ops)
    ensures Value(Binary("+", Lit("2"), Binary("*", Lit("3"), Lit("4"))), ops, m) == Ok(14.0)
  {
    ProductValue(ops, m);
    LitValue(2, ops, m);
    BinaryValue("+", Lit("2"), Binary("*", Lit("3"), Lit("4")), 2.0, 12.0, ops, m);
    BinaryForms(2.0, 12.0, m);
  }

  lemma ProductValue(ops: map<string, Operation>, m: MathLib)
    requires "*" in ops && ops["*"] == MulOp
    ensures Arities(Binary("*", Lit("3"), Lit("4")), ops)
    ensures Value(Binary("*", Lit("3"), Lit("4")), ops, m) == Ok(12.0)
  {
    LitValue(3, ops, m);
    LitValue(4, ops, m);
    BinaryValue("*", Lit("3"), Lit("4"), 3.0, 4.0, ops, m);
    BinaryForms(3.0, 4.0, m);
  }

  /** A binary node applies its operation to the values of its operands. */
  lemma BinaryValue(sym: string, l: Expr, r: Expr, x: real, y: real, ops: map<string, Operation>, m: MathLib)
    requires sym in ops && ops[sym].Arity() != 1 && Arities(l, ops) && Arities(r, ops)
    requires Value(l, ops, m) == Ok(x) && Value(r, ops, m) == Ok(y)
    ensures Arities(Binary(sym, l, r), ops)
    ensures Value(Binary(sym, l, r), ops, m) == Apply(ops[sym], [x, y], m)
  {
  }

  lemma LitValue(n: nat, ops: map<string, Operation>, m: MathLib)
    requires n < 10
    ensures DecimalText(n) == [('0' as int + n) as char]
    ensures Value(Lit(DecimalText(n)), ops, m) == Ok(n as real)
  {
    ParseDecimalText(n);
  }

  /** `-3` converts to `3 neg`, which the registry cannot evaluate. */
  lemma UnaryMinusExampleFails(m: MathLib)
    ensures Evaluate([Num("3"), Sym("neg")], DefaultOps(), m) == Err(UnknownOp("neg"))
  {
    var rpn := [Num("3"), Sym("neg")];
    ParseDecimalText(3);
    assert DecimalText(3) == "3";
    DefaultOpsComplete();
    assert Run(rpn, [], DefaultOps(), m) == Run(rpn[1..], [3.0], DefaultOps(), m);
  }

  /** `2 ^ sqrt ( 4 )` converts to `2 ^ 4 sqrt`, in which `^` meets a
      single operand. */
  lemma PrefixAfterPowerFails(m: MathLib)
    ensures Evaluate([Num("2"), Sym("^"), Num("4"), Sym("sqrt")], DefaultOps(), m)
      == Err(MissingOperand("^"))
  {
    var rpn := [Num("2"), Sym("^"), Num("4"), Sym("sqrt")];
    ParseDecimalText(2);
    assert DecimalText(2) == "2";
    DefaultOpsComplete();
    assert DefaultOps()["^"] == PowOp;
    assert Run(rpn, [], DefaultOps(), m) == Run(rpn[1..], [2.0], DefaultOps(), m);
    assert EvalStep([2.0], rpn[1], DefaultOps(), m) == Err(MissingOperand("^"));
  }

  /** A lone dot lexes as a number token and then fails to parse as one. */
  lemma LoneDotExample(m: MathLib)
    ensures Calculation(".", m) == Err(InvalidNumber("."))
  {
    var s := ".";
    assert ScanNumber(s, 0) == 1;
    assert s[0..1] == ".";
    assert Lex(s, 1) == Ok([]);
    var tokens := [Token(Number, ".")];
    assert [Token(Number, ".")] + [] == tokens;
    assert Lex(s, 0) == Ok(tokens);
    assert Parse(tokens) == Ok(tokens) by {
      var e: seq<Token> := [];
      assert e + [tokens[0]] == tokens;
      assert Step(tokens, 0, e, e) == Ok((tokens, e));
      assert Shunt(tokens, 1, tokens, e) == Ok(tokens + e);
      assert tokens + e == tokens;
    }
    DotOnly(".");
    assert EvalStep([], tokens[0], DefaultOps(), m) == Err(InvalidNumber("."));
  }

  /** A leading minus in the text becomes `neg`, which evaluation rejects. */
  lemma LeadingMinusExample(m: MathLib)
    ensures Calculation("-3", m) == Err(UnknownOp("neg"))
  {
    var s := "-3";
    assert IsDigit(s[1]) && ScanNumber(s, 1) == 2 && s[1..2] == "3";
    assert Lex(s, 2) == Ok([]);
    assert [Token(Number, "3")] + [] == [Num("3")];
    assert Lex(s, 1) == Ok([Num("3")]);
    var tokens := [Sym("-"), Num("3")];
    assert IsOpChar(s[0]) && [s[0]] == "-";
    assert [Token(Op, "-")] + [Num("3")] == tokens;
    assert Lex(s, 0) == Ok(tokens);
    UnaryMinusExample();
    UnaryMinusExampleFails(m);
  }

  /** `abs(2)` lexes, and then fails at conversion. */
  lemma AbsExample(m: MathLib)
    ensures Calculation("abs(2)", m) == Err(UnknownOperator("abs"))
  {
    var s := "abs(2)";
    assert LetterEnd(s, 1) == 3 && s[0..3] == "abs" && Lowered("abs") == "abs";
    assert IsDigit(s[4]) && ScanNumber(s, 4) == 5 && s[4..5] == "2";
    assert Lex(s, 6) == Ok([]);
    var t5 := [Token(RParen, ")")];
    assert t5 + [] == t5;
    assert Lex(s, 5) == Ok(t5);
    var t4 := [Num("2")] + t5;
    assert [Token(Number, "2")] + t5 == t4;
    assert Lex(s, 4) == Ok(t4);
    var t3 := [Token(LParen, "(")] + t4;
    assert Lex(s, 3) == Ok(t3);
    var tokens := [Sym("abs"), Token(LParen, "("), Num("2"), Token(RParen, ")")];
    assert [Token(Op, "abs")] + t3 == tokens;
    assert Lex(s, 0) == Ok(tokens);
    ErrorExamples();
  }
}
