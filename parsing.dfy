/** The shunting-yard conversion of a token list to reverse Polish notation
    (Parsing.cs). The operator stack is a sequence whose top is at index 0;
    the output queue is a sequence that grows at its end. `Shunt` is the
    conversion written as a recursive function, one input token per call;
    `ToRpn` is the loop of the C# code, proved to compute it; the lemmas
    further down say what the output means. */
module Parsing {
  import opened Results
  import opened Tokenization

  /** Precedence, associativity and position of an operator. */
  datatype OpInfo = OpInfo(prec: nat, rightAssoc: bool, isPrefix: bool, isPostfix: bool)

  /** The parser's operator table (Parsing.cs:15-32). It knows the unary
      minus `neg`, which the operation registry lacks, and lacks `abs`,
      which the registry has. The postfix flag of `!` is never consulted. */
  const Ops: map<string, OpInfo> := map[
    "!" := OpInfo(6, false, false, true),
    "^" := OpInfo(5, true, false, false),
    "neg" := OpInfo(4, true, true, false),
    "sqrt" := OpInfo(4, true, true, false),
    "sin" := OpInfo(4, true, true, false),
    "cos" := OpInfo(4, true, true, false),
    "tan" := OpInfo(4, true, true, false),
    "ln" := OpInfo(4, true, true, false),
    "log" := OpInfo(4, true, true, false),
    "exp" := OpInfo(4, true, true, false),
    "*" := OpInfo(3, false, false, false),
    "/" := OpInfo(3, false, false, false),
    "%" := OpInfo(3, false, false, false),
    "+" := OpInfo(2, false, false, false),
    "-" := OpInfo(2, false, false, false)]

  /** A `-` is unary at the start of the input and after anything other than
      a number or a closing parenthesis (Parsing.cs:34-43). */
  predicate IsUnaryMinus(prev: Option<Token>) {
    prev.None? || (prev.value.kind != Number && prev.value.kind != RParen)
  }

  /** The token before position k, which the loop keeps in `prev`. */
  function PrevOf(input: seq<Token>, k: nat): Option<Token>
    requires k <= |input|
  {
    if k == 0 then None else Some(input[k - 1])
  }

  /** The symbol under which the operator token at position k is looked up
      and pushed: `neg` for a unary minus, its own text otherwise. */
  function ResolvedSymbol(input: seq<Token>, k: nat): string
    requires k < |input|
  {
    if input[k].text == "-" && IsUnaryMinus(PrevOf(input, k)) then "neg" else input[k].text
  }

  /** What the operator stack may hold: opening parentheses and operators
      of the table. */
  predicate StackOk(stack: seq<Token>) {
    forall k :: 0 <= k < |stack| ==>
      stack[k].kind == LParen || (stack[k].kind == Op && stack[k].text in Ops)
  }

  /** The operator on top of the stack is popped before pushing one with
      `info` when it binds more tightly, or as tightly and `info` is
      left-associative (Parsing.cs:74-77). */
  predicate Binds(top: OpInfo, info: OpInfo) {
    top.prec > info.prec || (top.prec == info.prec && !info.rightAssoc)
  }

  predicate PopsBefore(t: Token, info: OpInfo) {
    t.kind == Op && t.text in Ops && Binds(Ops[t.text], info)
  }

  /** Every operator above the nearest opening parenthesis binds less
      tightly than one with `info`. */
  predicate BindLess(stack: seq<Token>, info: OpInfo) {
    forall k :: 0 <= k < SegmentEnd(stack) ==> !PopsBefore(stack[k], info)
  }

  /** The order pushes leave on the stack (Parsing.cs:69-82): of two adjacent
      operators, the lower one would not have been popped by pushing the
      upper one. */
  predicate Ordered(stack: seq<Token>) {
    forall k :: 0 <= k < |stack| - 1 && stack[k].kind == Op && stack[k].text in Ops ==>
      !PopsBefore(stack[k + 1], Ops[stack[k].text])
  }

  /** How many operators the loop of Parsing.cs:69-81 pops. */
  function PopCount(stack: seq<Token>, info: OpInfo): (n: nat)
    ensures n <= |stack|
    ensures forall k :: 0 <= k < n ==> PopsBefore(stack[k], info)
    ensures n < |stack| ==> !PopsBefore(stack[n], info)
  {
    if stack != [] && PopsBefore(stack[0], info) then 1 + PopCount(stack[1..], info) else 0
  }

  /** The position of the topmost opening parenthesis, or the stack's size
      when there is none: the operators above it are popped by a closing
      parenthesis (Parsing.cs:94-95). */
  function SegmentEnd(stack: seq<Token>): (n: nat)
    ensures n <= |stack|
    ensures forall k :: 0 <= k < n ==> stack[k].kind != LParen
    ensures n < |stack| ==> stack[n].kind == LParen
  {
    if stack == [] || stack[0].kind == LParen then 0 else 1 + SegmentEnd(stack[1..])
  }

  /** The number of opening parentheses on the stack. */
  function Opens(stack: seq<Token>): nat {
    if stack == [] then 0 else (if stack[0].kind == LParen then 1 else 0) + Opens(stack[1..])
  }

  /** The final loop (Parsing.cs:116-121): an opening parenthesis still on
      the stack is an error; otherwise the stack goes to the output, top
      first. */
  function Flush(output: seq<Token>, stack: seq<Token>): Result<seq<Token>> {
    if Opens(stack) > 0 then Err(MismatchedParentheses) else Ok(output + stack)
  }

  /** One pass of the loop of Parsing.cs:51-114 on the token at position i:
      the new output and stack, or the exception it throws. */
  function Step(input: seq<Token>, i: nat, output: seq<Token>, stack: seq<Token>)
    : (r: Result<(seq<Token>, seq<Token>)>)
    requires i < |input| && StackOk(stack)
    ensures r.Ok? ==> StackOk(r.value.1)
  {
    var t := input[i];
    match t.kind
    case Number => Ok((output + [t], stack))
    case Op =>
      var sym := ResolvedSymbol(input, i);
      if sym !in Ops then Err(UnknownOperator(sym))
      else
        var n := PopCount(stack, Ops[sym]);
        PushOk(sym, stack, n);
        Ok((output + stack[..n], [Token(Op, sym)] + stack[n..]))
    case LParen => Ok((output, [t] + stack))
    case RParen => Close(output, stack)
    case Equals => Ok((output, stack))
  }

  /** A closing parenthesis (Parsing.cs:92-106): the operators above the
      nearest opening parenthesis go to the output, the parenthesis is
      dropped, and a function name below it goes to the output too. */
  function Close(output: seq<Token>, stack: seq<Token>): (r: Result<(seq<Token>, seq<Token>)>)
    requires StackOk(stack)
    ensures r.Ok? ==> StackOk(r.value.1)
  {
    var n := SegmentEnd(stack);
    if n == |stack| then Err(MismatchedParentheses)
    else
      var rest := stack[n + 1..];
      DropOk(stack, n + 1);
      if rest != [] && rest[0].kind == Op && Ops[rest[0].text].isPrefix then
        DropOk(rest, 1);
        Ok((output + stack[..n] + [rest[0]], rest[1..]))
      else
        Ok((output + stack[..n], rest))
  }

  /** The conversion from position i on, given the output and the stack so
      far. */
  function Shunt(input: seq<Token>, i: nat, output: seq<Token>, stack: seq<Token>): Result<seq<Token>>
    requires i <= |input| && StackOk(stack)
    decreases |input| - i
  {
    if i == |input| then Flush(output, stack)
    else
      match Step(input, i, output, stack)
      case Err(e) => Err(e)
      case Ok((output', stack')) => Shunt(input, i + 1, output', stack')
  }

  /** The result of ToRpn on a token list. */
  function Parse(input: seq<Token>): Result<seq<Token>> {
    Shunt(input, 0, [], [])
  }

  // ---------------------------------------------------------------------------
  // The C# loops

  /** Parsing.cs:69-81: pops the operators that bind at least as tightly as
      the incoming one onto the output. */
  method PopBinding(output: seq<Token>, stack: seq<Token>, info: OpInfo)
    returns (output': seq<Token>, stack': seq<Token>)
    requires StackOk(stack)
    ensures output' == output + stack[..PopCount(stack, info)]
    ensures stack' == stack[PopCount(stack, info)..]
    ensures Ordered(stack) ==> BindLess(stack', info)
  {
    output', stack' := output, stack;
    ghost var n := 0;
    while stack' != [] && stack'[0].kind == Op
      invariant n <= PopCount(stack, info)
      invariant output' == output + stack[..n] && stack' == stack[n..]
      invariant PopCount(stack', info) == PopCount(stack, info) - n
      decreases |stack'|
    {
      assert stack'[0] == stack[n];
      var topInfo := Ops[stack'[0].text];
      if !Binds(topInfo, info) {
        break;
      }
      output' := output' + [stack'[0]];
      stack' := stack'[1..];
      n := n + 1;
    }
    assert stack' == stack[PopCount(stack, info)..];
    if Ordered(stack) {
      KeptOperatorsDoNotBind(stack, info);
    }
  }

  /** Parsing.cs:94-95: pops the operators above the topmost opening
      parenthesis onto the output. */
  method PopSegment(output: seq<Token>, stack: seq<Token>)
    returns (output': seq<Token>, stack': seq<Token>)
    ensures output' == output + stack[..SegmentEnd(stack)]
    ensures stack' == stack[SegmentEnd(stack)..]
  {
    output', stack' := output, stack;
    ghost var n := 0;
    while stack' != [] && stack'[0].kind != LParen
      invariant n <= SegmentEnd(stack)
      invariant output' == output + stack[..n] && stack' == stack[n..]
      invariant SegmentEnd(stack') == SegmentEnd(stack) - n
      decreases |stack'|
    {
      output' := output' + [stack'[0]];
      stack' := stack'[1..];
      n := n + 1;
    }
  }

  /** Parsing.cs:92-104: the loop at a closing parenthesis, then the pop of
      the parenthesis and of a function name below it. */
  method CloseStack(output: seq<Token>, stack: seq<Token>) returns (r: Result<(seq<Token>, seq<Token>)>)
    requires StackOk(stack)
    ensures r == Close(output, stack)
  {
    var out, st := PopSegment(output, stack);
    if st == [] {
      return Err(MismatchedParentheses);
    }
    DropOk(stack, SegmentEnd(stack) + 1);
    st := st[1..];
    if st != [] && st[0].kind == Op {
      if Ops[st[0].text].isPrefix {
        out := out + [st[0]];
        st := st[1..];
      }
    }
    return Ok((out, st));
  }

  /** Parsing.cs:116-121. */
  method FlushStack(output: seq<Token>, stack: seq<Token>) returns (r: Result<seq<Token>>)
    ensures r == Flush(output, stack)
  {
    var out, st := output, stack;
    while st != []
      invariant out + st == output + stack
      invariant Opens(st) == Opens(stack)
      decreases |st|
    {
      if st[0].kind == LParen {
        return Err(MismatchedParentheses);
      }
      assert st == [st[0]] + st[1..];
      out := out + [st[0]];
      st := st[1..];
    }
    assert out == output + stack;
    r := Ok(out);
  }

  /** ShuntingYard.ToRpn (Parsing.cs:45-124). */
  method ToRpn(input: seq<Token>) returns (r: Result<seq<Token>>)
    ensures r == Parse(input)
    ensures r.Ok? <==> AllKnown(input) && Balanced(input)
    ensures r.Err? && r.error == MismatchedParentheses ==> !Balanced(input)
    ensures r.Err? && r.error != MismatchedParentheses ==>
      r.error.UnknownOperator? && r.error.sym !in Ops &&
      exists k :: 0 <= k < |input| && input[k].kind == Op && ResolvedSymbol(input, k) == r.error.sym
    ensures r.Ok? ==> RpnTokens(r.value)
    ensures r.Ok? ==> Numbers(r.value) == Numbers(input)
    ensures r.Ok? ==> OpSymbols(r.value) == ResolvedOps(input, 0)
  {
    var output: seq<Token> := [];
    var stack: seq<Token> := [];
    var prev: Option<Token> := None;
    var i := 0;
    while i < |input|
      invariant i <= |input| && StackOk(stack)
      invariant i == 0 ==> prev == None
      invariant i > 0 ==> prev.Some? && prev.value.kind == input[i - 1].kind
      invariant Shunt(input, i, output, stack) == Parse(input)
      invariant Ordered(stack)
    {
      var t := input[i];
      assert IsUnaryMinus(prev) == IsUnaryMinus(PrevOf(input, i));
      ghost var next := Step(input, i, output, stack);
      StepOrdered(input, i, output, stack);
      assert next.Err? ==> Parse(input) == Err(next.error);
      assert next.Ok? ==> Parse(input) == Shunt(input, i + 1, next.value.0, next.value.1);
      match t.kind {
        case Number =>
          output := output + [t];
          prev := Some(t);
          assert next == Ok((output, stack));
        case Op =>
          var sym := t.text;
          if sym == "-" && IsUnaryMinus(prev) {
            sym := "neg";
          }
          assert sym == ResolvedSymbol(input, i);
          if sym !in Ops {
            assert next == Err(UnknownOperator(sym));
            ParseProperties(input);
            return Err(UnknownOperator(sym));
          }
          output, stack := PopBinding(output, stack, Ops[sym]);
          stack := [Token(Op, sym)] + stack;
          prev := Some(Token(Op, sym));
          assert next == Ok((output, stack));
        case LParen =>
          stack := [t] + stack;
          prev := Some(t);
          assert next == Ok((output, stack));
        case RParen =>
          var closed := CloseStack(output, stack);
          if closed.Err? {
            assert next == Err(MismatchedParentheses);
            ParseProperties(input);
            return Err(MismatchedParentheses);
          }
          output, stack := closed.value.0, closed.value.1;
          prev := Some(t);
          assert next == Ok((output, stack));
        case Equals =>
          prev := Some(t);
          assert next == Ok((output, stack));
      }
      i := i + 1;
    }
    r := FlushStack(output, stack);
    ParseProperties(input);
  }

  // ---------------------------------------------------------------------------
  // What the output means

  /** Every operator token from position i on resolves to a symbol of the
      table. */
  predicate KnownFrom(input: seq<Token>, i: nat) {
    forall k :: i <= k < |input| && input[k].kind == Op ==> ResolvedSymbol(input, k) in Ops
  }

  predicate AllKnown(input: seq<Token>) {
    KnownFrom(input, 0)
  }

  /** The parentheses of `ts` close the d already open, and never close one
      that is not open. */
  predicate BalancedFrom(ts: seq<Token>, d: nat) {
    if ts == [] then d == 0
    else if ts[0].kind == LParen then BalancedFrom(ts[1..], d + 1)
    else if ts[0].kind == RParen then d > 0 && BalancedFrom(ts[1..], d - 1)
    else BalancedFrom(ts[1..], d)
  }

  predicate Balanced(ts: seq<Token>) {
    BalancedFrom(ts, 0)
  }

  /** What reverse Polish notation may hold here: numbers and operators of
      the table. */
  predicate RpnTokens(ts: seq<Token>) {
    forall k :: 0 <= k < |ts| ==> ts[k].kind == Number || (ts[k].kind == Op && ts[k].text in Ops)
  }

  /** The number tokens of `ts`, in order. */
  function Numbers(ts: seq<Token>): seq<Token> {
    if ts == [] then [] else (if ts[0].kind == Number then [ts[0]] else []) + Numbers(ts[1..])
  }

  /** The symbols of the operator tokens of `ts`. */
  function OpSymbols(ts: seq<Token>): multiset<string> {
    if ts == [] then multiset{}
    else (if ts[0].kind == Op then multiset{ts[0].text} else multiset{}) + OpSymbols(ts[1..])
  }

  /** The resolved symbol of the token at position i, if it is an operator. */
  function OpAt(input: seq<Token>, i: nat): multiset<string>
    requires i < |input|
  {
    if input[i].kind == Op then multiset{ResolvedSymbol(input, i)} else multiset{}
  }

  /** The resolved symbols of the operator tokens of the input from
      position i on. */
  function ResolvedOps(input: seq<Token>, i: nat): multiset<string>
    requires i <= |input|
    decreases |input| - i
  {
    if i == |input| then multiset{} else OpAt(input, i) + ResolvedOps(input, i + 1)
  }

  lemma {:induction false} OpensConcat(a: seq<Token>, b: seq<Token>)
    ensures Opens(a + b) == Opens(a) + Opens(b)
  {
    if a == [] {
      assert a + b == b;
    } else {
      assert (a + b)[1..] == a[1..] + b;
      OpensConcat(a[1..], b);
    }
  }

  lemma {:induction false} NumbersConcat(a: seq<Token>, b: seq<Token>)
    ensures Numbers(a + b) == Numbers(a) + Numbers(b)
  {
    if a == [] {
      assert a + b == b;
    } else {
      var head := if a[0].kind == Number then [a[0]] else [];
      var c := a + b;
      assert c[0] == a[0] && c[1..] == a[1..] + b;
      assert Numbers(c) == head + Numbers(a[1..] + b);
      NumbersConcat(a[1..], b);
      assert head + (Numbers(a[1..]) + Numbers(b)) == (head + Numbers(a[1..])) + Numbers(b);
    }
  }

  lemma {:induction false} OpSymbolsConcat(a: seq<Token>, b: seq<Token>)
    ensures OpSymbols(a + b) == OpSymbols(a) + OpSymbols(b)
  {
    if a == [] {
      assert a + b == b;
    } else {
      assert (a + b)[1..] == a[1..] + b;
      OpSymbolsConcat(a[1..], b);
    }
  }

  /** A sequence without opening parentheses opens none, and conversely. */
  lemma {:induction false} OpensZero(s: seq<Token>)
    ensures Opens(s) == 0 <==> forall k :: 0 <= k < |s| ==> s[k].kind != LParen
  {
    if s != [] {
      OpensZero(s[1..]);
      assert forall k :: 1 <= k < |s| ==> s[k] == s[1..][k - 1];
    }
  }

  /** A sequence without number tokens has no numbers. */
  lemma {:induction false} NoNumbers(s: seq<Token>)
    requires forall k :: 0 <= k < |s| ==> s[k].kind != Number
    ensures Numbers(s) == []
  {
    if s != [] {
      NoNumbers(s[1..]);
    }
  }

  /** Popping operators leaves every opening parenthesis on the stack. */
  lemma PopOpens(stack: seq<Token>, n: nat)
    requires n <= |stack|
    requires forall k :: 0 <= k < n ==> stack[k].kind != LParen
    ensures Opens(stack[n..]) == Opens(stack)
  {
    assert stack == stack[..n] + stack[n..];
    OpensConcat(stack[..n], stack[n..]);
    OpensZero(stack[..n]);
  }

  /** A closing parenthesis finds an opening one exactly when one is open,
      and removes exactly one. */
  lemma {:induction false} SegmentOpens(stack: seq<Token>)
    ensures SegmentEnd(stack) == |stack| <==> Opens(stack) == 0
    ensures SegmentEnd(stack) < |stack| ==> Opens(stack[SegmentEnd(stack) + 1..]) == Opens(stack) - 1
  {
    if stack != [] && stack[0].kind != LParen {
      var rest := stack[1..];
      SegmentOpens(rest);
      assert Opens(stack) == Opens(rest);
      var n := SegmentEnd(rest);
      if n < |rest| {
        assert stack[n + 2..] == rest[n + 1..];
      }
    }
  }


  /** Popping keeps the stack well formed, and so does pushing an operator
      of the table. */
  lemma DropOk(stack: seq<Token>, n: nat)
    requires StackOk(stack) && n <= |stack|
    ensures StackOk(stack[n..])
  {
    forall k | 0 <= k < |stack| - n
      ensures stack[n..][k].kind == LParen || (stack[n..][k].kind == Op && stack[n..][k].text in Ops)
    {
      assert stack[n..][k] == stack[n + k];
    }
  }

  lemma PushOk(sym: string, stack: seq<Token>, n: nat)
    requires sym in Ops && StackOk(stack) && n <= |stack|
    ensures StackOk([Token(Op, sym)] + stack[n..])
  {
    DropOk(stack, n);
    var st := [Token(Op, sym)] + stack[n..];
    forall k | 0 <= k < |st|
      ensures st[k].kind == LParen || (st[k].kind == Op && st[k].text in Ops)
    {
      if k > 0 {
        assert st[k] == stack[n..][k - 1];
      }
    }
  }

  /** "Does not bind before" is transitive. */
  lemma BindsTransitive(upper: OpInfo, lower: OpInfo, info: OpInfo)
    requires !Binds(lower, upper) && !Binds(upper, info)
    ensures !Binds(lower, info)
  {
  }

  lemma SuffixOrdered(stack: seq<Token>, n: nat)
    requires n <= |stack| && Ordered(stack)
    ensures Ordered(stack[n..])
  {
    var st := stack[n..];
    forall k | 0 <= k < |st| - 1 && st[k].kind == Op && st[k].text in Ops
      ensures !PopsBefore(st[k + 1], Ops[st[k].text])
    {
      assert st[k] == stack[n + k] && st[k + 1] == stack[n + k + 1];
    }
  }

  /** Pushing an operator after the pops keeps the stack ordered. */
  lemma PushOrdered(sym: string, stack: seq<Token>)
    requires sym in Ops && Ordered(stack)
    ensures Ordered([Token(Op, sym)] + stack[PopCount(stack, Ops[sym])..])
  {
    var n := PopCount(stack, Ops[sym]);
    SuffixOrdered(stack, n);
    var st := [Token(Op, sym)] + stack[n..];
    forall k | 0 <= k < |st| - 1 && st[k].kind == Op && st[k].text in Ops
      ensures !PopsBefore(st[k + 1], Ops[st[k].text])
    {
      if k == 0 {
        assert st[1] == stack[n];
      } else {
        assert st[k] == stack[n..][k - 1] && st[k + 1] == stack[n..][k];
      }
    }
  }

  /** Pushing an opening parenthesis keeps the stack ordered. */
  lemma OpenOrdered(t: Token, stack: seq<Token>)
    requires t.kind == LParen && Ordered(stack)
    ensures Ordered([t] + stack)
  {
    var st := [t] + stack;
    forall k | 0 <= k < |st| - 1 && st[k].kind == Op && st[k].text in Ops
      ensures !PopsBefore(st[k + 1], Ops[st[k].text])
    {
      assert k > 0;
      assert st[k] == stack[k - 1] && st[k + 1] == stack[k];
    }
  }

  /** Every step of the conversion keeps the stack ordered. */
  lemma StepOrdered(input: seq<Token>, i: nat, output: seq<Token>, stack: seq<Token>)
    requires i < |input| && StackOk(stack) && Ordered(stack)
    ensures var r := Step(input, i, output, stack);
      r.Ok? ==> Ordered(r.value.1)
  {
    var t := input[i];
    match t.kind
    case Number =>
    case Equals =>
    case Op =>
      var sym := ResolvedSymbol(input, i);
      if sym in Ops {
        PushOrdered(sym, stack);
      }
    case LParen =>
      OpenOrdered(t, stack);
    case RParen =>
      var n := SegmentEnd(stack);
      if n < |stack| {
        SuffixOrdered(stack, n + 1);
        if n + 2 <= |stack| {
          SuffixOrdered(stack, n + 2);
          assert stack[n + 1..][1..] == stack[n + 2..];
        }
      }
  }

  /** When an operator with `info` is pushed onto an ordered stack, every
      operator left between it and the nearest opening parenthesis binds
      less tightly than it: lower precedence, or equal precedence with `info`
      right-associative (Parsing.cs:69-82). */
  lemma KeptOperatorsDoNotBind(stack: seq<Token>, info: OpInfo)
    requires StackOk(stack) && Ordered(stack)
    ensures BindLess(stack[PopCount(stack, info)..], info)
  {
    var n := PopCount(stack, info);
    var kept := stack[n..];
    DropOk(stack, n);
    SuffixOrdered(stack, n);
    if kept != [] {
      assert kept[0] == stack[n];
    }
    forall k | 0 <= k < SegmentEnd(kept)
      ensures !PopsBefore(kept[k], info)
    {
      ChainDoesNotBind(kept, info, k);
    }
  }

  lemma {:induction false} ChainDoesNotBind(kept: seq<Token>, info: OpInfo, k: nat)
    requires StackOk(kept) && Ordered(kept)
    requires kept != [] ==> !PopsBefore(kept[0], info)
    requires k < SegmentEnd(kept)
    ensures !PopsBefore(kept[k], info)
    decreases k
  {
    if k > 0 {
      ChainDoesNotBind(kept, info, k - 1);
      var upper, lower := kept[k - 1], kept[k];
      assert upper.kind == Op && upper.text in Ops && lower.kind == Op && lower.text in Ops;
      assert !PopsBefore(lower, Ops[upper.text]);
      BindsTransitive(Ops[upper.text], Ops[lower.text], info);
    }
  }

  /** From position i on, every stack the conversion reaches is ordered. */
  predicate OrderedFrom(input: seq<Token>, i: nat, output: seq<Token>, stack: seq<Token>)
    requires i <= |input| && StackOk(stack)
    decreases |input| - i
  {
    && Ordered(stack)
    && (i < |input| ==>
      var r := Step(input, i, output, stack);
      r.Ok? ==> OrderedFrom(input, i + 1, r.value.0, r.value.1))
  }

  lemma {:induction false} ShuntOrdered(input: seq<Token>, i: nat, output: seq<Token>, stack: seq<Token>)
    requires i <= |input| && StackOk(stack) && Ordered(stack)
    ensures OrderedFrom(input, i, output, stack)
    decreases |input| - i
  {
    if i < |input| {
      StepOrdered(input, i, output, stack);
      var r := Step(input, i, output, stack);
      if r.Ok? {
        ShuntOrdered(input, i + 1, r.value.0, r.value.1);
      }
    }
  }

  /** Every stack of every conversion is ordered, so every push finds the
      operators it keeps binding less tightly than itself. */
  lemma ParseOrdered(input: seq<Token>)
    ensures OrderedFrom(input, 0, [], [])
  {
    ShuntOrdered(input, 0, [], []);
  }

  /** How one step changes the number of open parentheses, and when it
      fails: at an operator missing from the table, or at a closing
      parenthesis with none open. */
  lemma StepOpens(input: seq<Token>, i: nat, output: seq<Token>, stack: seq<Token>)
    requires i < |input| && StackOk(stack)
    ensures var r := Step(input, i, output, stack);
      var t := input[i];
      && (r.Ok? <==> (t.kind == Op ==> ResolvedSymbol(input, i) in Ops) && (t.kind == RParen ==> Opens(stack) > 0))
      && (r.Err? ==>
           (t.kind == Op && r.error == UnknownOperator(ResolvedSymbol(input, i)) && ResolvedSymbol(input, i) !in Ops) ||
           (t.kind == RParen && r.error == MismatchedParentheses && Opens(stack) == 0))
      && (r.Ok? ==>
           Opens(r.value.1) == if t.kind == LParen then Opens(stack) + 1
                               else if t.kind == RParen then Opens(stack) - 1
                               else Opens(stack))
  {
    var t := input[i];
    match t.kind
    case Op =>
      var sym := ResolvedSymbol(input, i);
      if sym in Ops {
        var n := PopCount(stack, Ops[sym]);
        PopOpens(stack, n);
        assert Opens([Token(Op, sym)] + stack[n..]) == Opens(stack[n..]);
      }
    case LParen =>
      assert ([t] + stack)[1..] == stack;
    case RParen =>
      var n := SegmentEnd(stack);
      SegmentOpens(stack);
      if n < |stack| {
        var rest := stack[n + 1..];
        if rest != [] && rest[0].kind == Op {
          assert Opens(rest) == Opens(rest[1..]);
        }
      }
    case _ =>
  }

  /** One step moves the number it reads, if any, to the output and no
      other number. */
  lemma StepNumbers(input: seq<Token>, i: nat, output: seq<Token>, stack: seq<Token>)
    requires i < |input| && StackOk(stack)
    ensures var r := Step(input, i, output, stack);
      r.Ok? ==> Numbers(r.value.0) == Numbers(output) + Numbers([input[i]])
  {
    var t := input[i];
    assert Numbers([t]) == (if t.kind == Number then [t] else []) + Numbers([]);
    match t.kind
    case Number =>
      NumbersConcat(output, [t]);
    case Op =>
      var sym := ResolvedSymbol(input, i);
      if sym in Ops {
        var n := PopCount(stack, Ops[sym]);
        NumbersConcat(output, stack[..n]);
        NoNumbers(stack[..n]);
      }
    case RParen =>
      var n := SegmentEnd(stack);
      if n < |stack| {
        var rest := stack[n + 1..];
        NumbersConcat(output, stack[..n]);
        NoNumbers(stack[..n]);
        if rest != [] && rest[0].kind == Op && Ops[rest[0].text].isPrefix {
          NumbersConcat(output + stack[..n], [rest[0]]);
          assert Numbers([rest[0]]) == [] + Numbers([]);
        }
      }
    case _ =>
  }

  /** One step moves operators between the stack and the output, and adds
      the operator it reads under its resolved symbol. */
  lemma StepOps(input: seq<Token>, i: nat, output: seq<Token>, stack: seq<Token>)
    requires i < |input| && StackOk(stack)
    ensures var r := Step(input, i, output, stack);
      r.Ok? ==>
        OpSymbols(r.value.0) + OpSymbols(r.value.1) == OpSymbols(output) + OpSymbols(stack) + OpAt(input, i)
  {
    var t := input[i];
    match t.kind
    case Number =>
      OpSymbolsConcat(output, [t]);
    case Op =>
      StepOpsAtOperator(input, i, output, stack);
    case LParen =>
      OpSymbolsConcat([t], stack);
    case RParen =>
      StepOpsAtClose(input, i, output, stack);
    case Equals =>
  }

  lemma StepOpsAtOperator(input: seq<Token>, i: nat, output: seq<Token>, stack: seq<Token>)
    requires i < |input| && StackOk(stack) && input[i].kind == Op
    ensures var r := Step(input, i, output, stack);
      r.Ok? ==>
        OpSymbols(r.value.0) + OpSymbols(r.value.1) == OpSymbols(output) + OpSymbols(stack) + OpAt(input, i)
  {
    var sym := ResolvedSymbol(input, i);
    if sym in Ops {
      PushedOps(output, stack, PopCount(stack, Ops[sym]), sym);
    }
  }

  lemma StepOpsAtClose(input: seq<Token>, i: nat, output: seq<Token>, stack: seq<Token>)
    requires i < |input| && StackOk(stack) && input[i].kind == RParen
    ensures var r := Step(input, i, output, stack);
      r.Ok? ==>
        OpSymbols(r.value.0) + OpSymbols(r.value.1) == OpSymbols(output) + OpSymbols(stack) + OpAt(input, i)
  {
    var n := SegmentEnd(stack);
    if n < |stack| {
      var rest := stack[n + 1..];
      ClosedOps(output, stack, n, rest != [] && rest[0].kind == Op && Ops[rest[0].text].isPrefix);
    }
  }

  /** One step adds to the output only numbers and operators of the table. */
  lemma StepTokens(input: seq<Token>, i: nat, output: seq<Token>, stack: seq<Token>)
    requires i < |input| && StackOk(stack) && RpnTokens(output)
    ensures var r := Step(input, i, output, stack);
      r.Ok? ==> RpnTokens(r.value.0)
  {
  }

  /** The conversion succeeds exactly when every operator is known and the
      parentheses balance. */
  lemma {:induction false} ShuntOkIff(input: seq<Token>, i: nat, output: seq<Token>, stack: seq<Token>)
    requires i <= |input| && StackOk(stack)
    ensures Shunt(input, i, output, stack).Ok? <==>
      KnownFrom(input, i) && BalancedFrom(input[i..], Opens(stack))
    decreases |input| - i
  {
    if i == |input| {
      assert input[i..] == [];
    } else {
      assert input[i..][0] == input[i] && input[i..][1..] == input[i + 1..];
      StepOpens(input, i, output, stack);
      var r := Step(input, i, output, stack);
      if r.Ok? {
        ShuntOkIff(input, i + 1, r.value.0, r.value.1);
      }
    }
  }

  /** A failed conversion names its cause: parentheses that do not balance,
      or an operator token whose resolved symbol is not in the table. */
  lemma {:induction false} ShuntErrors(input: seq<Token>, i: nat, output: seq<Token>, stack: seq<Token>)
    requires i <= |input| && StackOk(stack)
    ensures var r := Shunt(input, i, output, stack);
      r.Err? ==>
        (r.error == MismatchedParentheses && !BalancedFrom(input[i..], Opens(stack))) ||
        (r.error.UnknownOperator? && r.error.sym !in Ops &&
         exists k :: i <= k < |input| && input[k].kind == Op && ResolvedSymbol(input, k) == r.error.sym)
    decreases |input| - i
  {
    if i == |input| {
      assert input[i..] == [];
    } else {
      assert input[i..][0] == input[i] && input[i..][1..] == input[i + 1..];
      StepOpens(input, i, output, stack);
      var r := Step(input, i, output, stack);
      if r.Ok? {
        ShuntErrors(input, i + 1, r.value.0, r.value.1);
      }
    }
  }

  /** The numbers reach the output in the order of the input: the
      conversion only moves operators. */
  lemma {:induction false} ShuntNumbers(input: seq<Token>, i: nat, output: seq<Token>, stack: seq<Token>)
    requires i <= |input| && StackOk(stack)
    ensures var r := Shunt(input, i, output, stack);
      r.Ok? ==> Numbers(r.value) == Numbers(output) + Numbers(input[i..])
    decreases |input| - i
  {
    if i == |input| {
      assert input[i..] == [];
      NoNumbers(stack);
      NumbersConcat(output, stack);
    } else {
      assert input[i..] == [input[i]] + input[i + 1..];
      NumbersConcat([input[i]], input[i + 1..]);
      StepNumbers(input, i, output, stack);
      var r := Step(input, i, output, stack);
      if r.Ok? {
        ShuntNumbers(input, i + 1, r.value.0, r.value.1);
      }
    }
  }

  /** One step of the conversion: the step's error, or the conversion from
      the next position on the step's new output and stack. */
  lemma ShuntUnfold(input: seq<Token>, i: nat, output: seq<Token>, stack: seq<Token>)
    requires i < |input| && StackOk(stack)
    ensures var r := Step(input, i, output, stack);
      Shunt(input, i, output, stack) == if r.Err? then Err(r.error) else Shunt(input, i + 1, r.value.0, r.value.1)
  {
  }

  /** Every operator of the input reaches the output exactly once, under its
      resolved symbol. */
  lemma {:induction false} ShuntOps(input: seq<Token>, i: nat, output: seq<Token>, stack: seq<Token>)
    requires i <= |input| && StackOk(stack)
    ensures var r := Shunt(input, i, output, stack);
      r.Ok? ==> OpSymbols(r.value) == OpSymbols(output) + OpSymbols(stack) + ResolvedOps(input, i)
    decreases |input| - i
  {
    if i == |input| {
      FlushOps(output, stack);
    } else {
      StepOps(input, i, output, stack);
      ShuntUnfold(input, i, output, stack);
      var r := Step(input, i, output, stack);
      if r.Ok? {
        ShuntOps(input, i + 1, r.value.0, r.value.1);
        Regroup(OpSymbols(r.value.0) + OpSymbols(r.value.1), OpSymbols(output) + OpSymbols(stack),
          OpAt(input, i), ResolvedOps(input, i + 1));
      }
    }
  }

  lemma Regroup(after: multiset<string>, before: multiset<string>, here: multiset<string>, later: multiset<string>)
    requires after == before + here
    ensures after + later == before + (here + later)
  {
  }

  /** The final flush moves the stack's operators to the output. */
  lemma FlushOps(output: seq<Token>, stack: seq<Token>)
    ensures var r := Flush(output, stack);
      r.Ok? ==> OpSymbols(r.value) == OpSymbols(output) + OpSymbols(stack)
  {
    OpSymbolsConcat(output, stack);
  }

  /** Moving popped operators to the output and pushing a new one adds just
      that one's symbol to the output and the stack together. */
  lemma PushedOps(output: seq<Token>, stack: seq<Token>, n: nat, sym: string)
    requires n <= |stack|
    ensures OpSymbols(output + stack[..n]) + OpSymbols([Token(Op, sym)] + stack[n..])
      == OpSymbols(output) + OpSymbols(stack) + multiset{sym}
  {
    var popped, kept := stack[..n], stack[n..];
    assert stack == popped + kept;
    OpSymbolsConcat(output, popped);
    OpSymbolsConcat(popped, kept);
    var pushed := [Token(Op, sym)] + kept;
    assert pushed[0] == Token(Op, sym) && pushed[1..] == kept;
    assert OpSymbols(pushed) == multiset{sym} + OpSymbols(kept);
  }


  /** A closing parenthesis moves operators from the stack to the output and
      drops an opening parenthesis, which has no symbol. */
  lemma ClosedOps(output: seq<Token>, stack: seq<Token>, n: nat, prefix: bool)
    requires n < |stack| && stack[n].kind == LParen
    requires prefix ==> n + 1 < |stack|
    ensures var rest := stack[n + 1..];
      if prefix then
        OpSymbols(output + stack[..n] + [rest[0]]) + OpSymbols(rest[1..]) == OpSymbols(output) + OpSymbols(stack)
      else
        OpSymbols(output + stack[..n]) + OpSymbols(rest) == OpSymbols(output) + OpSymbols(stack)
  {
    var rest := stack[n + 1..];
    assert stack == stack[..n] + [stack[n]] + rest;
    OpSymbolsConcat(stack[..n] + [stack[n]], rest);
    OpSymbolsConcat(stack[..n], [stack[n]]);
    OpSymbolsConcat(output, stack[..n]);
    if prefix {
      OpSymbolsConcat(output + stack[..n], [rest[0]]);
      assert rest == [rest[0]] + rest[1..];
      OpSymbolsConcat([rest[0]], rest[1..]);
    }
  }

  /** The output holds only numbers and operators of the table. */
  lemma {:induction false} ShuntTokens(input: seq<Token>, i: nat, output: seq<Token>, stack: seq<Token>)
    requires i <= |input| && StackOk(stack) && RpnTokens(output)
    ensures var r := Shunt(input, i, output, stack);
      r.Ok? ==> RpnTokens(r.value)
    decreases |input| - i
  {
    if i == |input| {
      OpensZero(stack);
    } else {
      StepTokens(input, i, output, stack);
      var r := Step(input, i, output, stack);
      if r.Ok? {
        ShuntTokens(input, i + 1, r.value.0, r.value.1);
      }
    }
  }

  /** The properties of ToRpn's result, from the start of the input. */
  lemma ParseProperties(input: seq<Token>)
    ensures Parse(input).Ok? <==> AllKnown(input) && Balanced(input)
    ensures Parse(input).Err? && Parse(input).error == MismatchedParentheses ==> !Balanced(input)
    ensures Parse(input).Err? && Parse(input).error != MismatchedParentheses ==>
      Parse(input).error.UnknownOperator? && Parse(input).error.sym !in Ops &&
      exists k :: 0 <= k < |input| && input[k].kind == Op && ResolvedSymbol(input, k) == Parse(input).error.sym
    ensures Parse(input).Ok? ==> RpnTokens(Parse(input).value)
    ensures Parse(input).Ok? ==> Numbers(Parse(input).value) == Numbers(input)
    ensures Parse(input).Ok? ==> OpSymbols(Parse(input).value) == ResolvedOps(input, 0)
  {
    assert input[0..] == input;
    ShuntOkIff(input, 0, [], []);
    ShuntErrors(input, 0, [], []);
    ShuntTokens(input, 0, [], []);
    ShuntNumbers(input, 0, [], []);
    ShuntOps(input, 0, [], []);
  }

  // ---------------------------------------------------------------------------
  // Examples

  function Num(text: string): Token { Token(Number, text) }
  function Sym(text: string): Token { Token(Op, text) }

  /** Multiplication binds more tightly than addition. */
  lemma PrecedenceExample()
    ensures Parse([Num("2"), Sym("+"), Num("3"), Sym("*"), Num("4")])
      == Ok([Num("2"), Num("3"), Num("4"), Sym("*"), Sym("+")])
  {
    var input := [Num("2"), Sym("+"), Num("3"), Sym("*"), Num("4")];
    var e: seq<Token> := [];
    assert e + [input[0]] == [Num("2")];
    var o1, s1 := [Num("2")], e;
    assert Step(input, 0, e, e) == Ok((o1, s1));
    assert ResolvedSymbol(input, 1) == "+";
    assert PopCount(s1, Ops["+"]) == 0;
    var o2, s2 := o1, [Sym("+")];
    assert o1 + s1[..0] == o2 && [Token(Op, "+")] + s1[0..] == s2;
    assert Step(input, 1, o1, s1) == Ok((o2, s2));
    var o3 := o2 + [Num("3")];
    assert Step(input, 2, o2, s2) == Ok((o3, s2));
    assert ResolvedSymbol(input, 3) == "*";
    assert !Binds(Ops["+"], Ops["*"]);
    assert PopCount(s2, Ops["*"]) == 0;
    var s4 := [Sym("*"), Sym("+")];
    assert o3 + s2[..0] == o3 && [Token(Op, "*")] + s2[0..] == s4;
    assert Step(input, 3, o3, s2) == Ok((o3, s4));
    var o5 := o3 + [Num("4")];
    assert Step(input, 4, o3, s4) == Ok((o5, s4));
    assert Opens(s4) == 0;
    assert Shunt(input, 5, o5, s4) == Ok(o5 + s4);
    assert Shunt(input, 4, o3, s4) == Shunt(input, 5, o5, s4);
    assert Shunt(input, 3, o3, s2) == Shunt(input, 4, o3, s4);
    assert Shunt(input, 2, o2, s2) == Shunt(input, 3, o3, s2);
    assert Shunt(input, 1, o1, s1) == Shunt(input, 2, o2, s2);
    assert Shunt(input, 0, e, e) == Shunt(input, 1, o1, s1);
    assert o5 + s4 == [Num("2"), Num("3"), Num("4"), Sym("*"), Sym("+")];
  }

  /** Subtraction groups to the left: the earlier `-` is popped when the
      later one arrives. */
  lemma LeftAssociativityExample()
    ensures Parse([Num("10"), Sym("-"), Num("4"), Sym("-"), Num("1")])
      == Ok([Num("10"), Num("4"), Sym("-"), Num("1"), Sym("-")])
  {
    var input := [Num("10"), Sym("-"), Num("4"), Sym("-"), Num("1")];
    var e: seq<Token> := [];
    assert e + [input[0]] == [Num("10")];
    var o1 := [Num("10")];
    assert Step(input, 0, e, e) == Ok((o1, e));
    assert ResolvedSymbol(input, 1) == "-";
    assert PopCount(e, Ops["-"]) == 0;
    var s2 := [Sym("-")];
    assert o1 + e[..0] == o1 && [Token(Op, "-")] + e[0..] == s2;
    assert Step(input, 1, o1, e) == Ok((o1, s2));
    var o3 := o1 + [Num("4")];
    assert Step(input, 2, o1, s2) == Ok((o3, s2));
    assert ResolvedSymbol(input, 3) == "-";
    assert Binds(Ops["-"], Ops["-"]);
    assert PopCount(s2[1..], Ops["-"]) == 0;
    assert PopCount(s2, Ops["-"]) == 1;
    var o4 := o3 + [Sym("-")];
    assert o3 + s2[..1] == o4 && [Token(Op, "-")] + s2[1..] == s2;
    assert Step(input, 3, o3, s2) == Ok((o4, s2));
    var o5 := o4 + [Num("1")];
    assert Step(input, 4, o4, s2) == Ok((o5, s2));
    assert Opens(s2) == 0;
    assert Shunt(input, 5, o5, s2) == Ok(o5 + s2);
    assert Shunt(input, 4, o4, s2) == Shunt(input, 5, o5, s2);
    assert Shunt(input, 3, o3, s2) == Shunt(input, 4, o4, s2);
    assert Shunt(input, 2, o1, s2) == Shunt(input, 3, o3, s2);
    assert Shunt(input, 1, o1, e) == Shunt(input, 2, o1, s2);
    assert Shunt(input, 0, e, e) == Shunt(input, 1, o1, e);
    assert o5 + s2 == [Num("10"), Num("4"), Sym("-"), Num("1"), Sym("-")];
  }

  /** Powers group to the right: the earlier `^` stays on the stack. */
  lemma RightAssociativityExample()
    ensures Parse([Num("2"), Sym("^"), Num("3"), Sym("^"), Num("2")])
      == Ok([Num("2"), Num("3"), Num("2"), Sym("^"), Sym("^")])
  {
    var input := [Num("2"), Sym("^"), Num("3"), Sym("^"), Num("2")];
    var e: seq<Token> := [];
    assert e + [input[0]] == [Num("2")];
    var o1 := [Num("2")];
    assert Step(input, 0, e, e) == Ok((o1, e));
    assert ResolvedSymbol(input, 1) == "^";
    assert PopCount(e, Ops["^"]) == 0;
    var s2 := [Sym("^")];
    assert o1 + e[..0] == o1 && [Token(Op, "^")] + e[0..] == s2;
    assert Step(input, 1, o1, e) == Ok((o1, s2));
    var o3 := o1 + [Num("3")];
    assert Step(input, 2, o1, s2) == Ok((o3, s2));
    assert ResolvedSymbol(input, 3) == "^";
    assert !Binds(Ops["^"], Ops["^"]);
    assert PopCount(s2, Ops["^"]) == 0;
    var s4 := [Sym("^"), Sym("^")];
    assert o3 + s2[..0] == o3 && [Token(Op, "^")] + s2[0..] == s4;
    assert Step(input, 3, o3, s2) == Ok((o3, s4));
    var o5 := o3 + [Num("2")];
    assert Step(input, 4, o3, s4) == Ok((o5, s4));
    assert Opens(s4) == 0;
    assert Shunt(input, 5, o5, s4) == Ok(o5 + s4);
    assert Shunt(input, 4, o3, s4) == Shunt(input, 5, o5, s4);
    assert Shunt(input, 3, o3, s2) == Shunt(input, 4, o3, s4);
    assert Shunt(input, 2, o1, s2) == Shunt(input, 3, o3, s2);
    assert Shunt(input, 1, o1, e) == Shunt(input, 2, o1, s2);
    assert Shunt(input, 0, e, e) == Shunt(input, 1, o1, e);
    assert o5 + s4 == [Num("2"), Num("3"), Num("2"), Sym("^"), Sym("^")];
  }

  /** A leading minus is the unary `neg`. */
  lemma UnaryMinusExample()
    ensures Parse([Sym("-"), Num("3")]) == Ok([Num("3"), Sym("neg")])
  {
    var input := [Sym("-"), Num("3")];
    var e: seq<Token> := [];
    assert ResolvedSymbol(input, 0) == "neg";
    assert PopCount(e, Ops["neg"]) == 0;
    var s1 := [Sym("neg")];
    assert e + e[..0] == e && [Token(Op, "neg")] + e[0..] == s1;
    assert Step(input, 0, e, e) == Ok((e, s1));
    var o2 := e + [Num("3")];
    assert Step(input, 1, e, s1) == Ok((o2, s1));
    assert Opens(s1) == 0;
    assert Shunt(input, 2, o2, s1) == Ok(o2 + s1);
    assert Shunt(input, 1, e, s1) == Shunt(input, 2, o2, s1);
    assert Shunt(input, 0, e, e) == Shunt(input, 1, e, s1);
    assert o2 + s1 == [Num("3"), Sym("neg")];
  }

  /** A function name applies to the parenthesised argument: it leaves the
      stack when its closing parenthesis arrives. */
  lemma PrefixFunctionExample()
    ensures Parse([Sym("sqrt"), Token(LParen, "("), Num("16"), Token(RParen, ")")])
      == Ok([Num("16"), Sym("sqrt")])
  {
    var input := [Sym("sqrt"), Token(LParen, "("), Num("16"), Token(RParen, ")")];
    var e: seq<Token> := [];
    assert ResolvedSymbol(input, 0) == "sqrt";
    assert PopCount(e, Ops["sqrt"]) == 0;
    var s1 := [Sym("sqrt")];
    assert e + e[..0] == e && [Token(Op, "sqrt")] + e[0..] == s1;
    assert Step(input, 0, e, e) == Ok((e, s1));
    var s2 := [Token(LParen, "(")] + s1;
    assert Step(input, 1, e, s1) == Ok((e, s2));
    var o3 := e + [Num("16")];
    assert Step(input, 2, e, s2) == Ok((o3, s2));
    assert SegmentEnd(s2) == 0;
    assert s2[1..] == s1 && Ops["sqrt"].isPrefix;
    var o4 := o3 + s2[..0] + [Sym("sqrt")];
    assert Step(input, 3, o3, s2) == Ok((o4, s1[1..]));
    assert s1[1..] == e;
    assert Shunt(input, 4, o4, e) == Ok(o4 + e);
    assert Shunt(input, 3, o3, s2) == Shunt(input, 4, o4, e);
    assert Shunt(input, 2, e, s2) == Shunt(input, 3, o3, s2);
    assert Shunt(input, 1, e, s1) == Shunt(input, 2, e, s2);
    assert Shunt(input, 0, e, e) == Shunt(input, 1, e, s1);
    assert o4 + e == [Num("16"), Sym("sqrt")];
  }

  /** A function name after `^` pops the `^` before its right operand has
      arrived: the function's precedence 4 is below the 5 of `^`. */
  lemma PrefixAfterPowerExample()
    ensures Parse([Num("2"), Sym("^"), Sym("sqrt"), Token(LParen, "("), Num("4"), Token(RParen, ")")])
      == Ok([Num("2"), Sym("^"), Num("4"), Sym("sqrt")])
  {
    PowerThenFunction();
    FunctionArgument();
  }

  /** The first three tokens of `2 ^ sqrt ( 4 )`: `sqrt` pops `^`. */
  lemma PowerThenFunction()
    ensures Shunt([Num("2"), Sym("^"), Sym("sqrt"), Token(LParen, "("), Num("4"), Token(RParen, ")")], 0, [], [])
      == Shunt([Num("2"), Sym("^"), Sym("sqrt"), Token(LParen, "("), Num("4"), Token(RParen, ")")], 3,
           [Num("2"), Sym("^")], [Sym("sqrt")])
  {
    var input := [Num("2"), Sym("^"), Sym("sqrt"), Token(LParen, "("), Num("4"), Token(RParen, ")")];
    var e: seq<Token> := [];
    var o1 := e + [Num("2")];
    assert Step(input, 0, e, e) == Ok((o1, e));
    assert ResolvedSymbol(input, 1) == "^";
    assert PopCount(e, Ops["^"]) == 0;
    var s1 := [Sym("^")];
    assert o1 + e[..0] == o1 && [Token(Op, "^")] + e[0..] == s1;
    assert Step(input, 1, o1, e) == Ok((o1, s1));
    assert ResolvedSymbol(input, 2) == "sqrt";
    assert PopsBefore(s1[0], Ops["sqrt"]) && s1[1..] == e;
    assert PopCount(s1, Ops["sqrt"]) == 1;
    var o2 := o1 + s1[..1];
    var s2 := [Sym("sqrt")];
    assert [Token(Op, "sqrt")] + s1[1..] == s2;
    assert Step(input, 2, o1, s1) == Ok((o2, s2));
    assert o2 == [Num("2"), Sym("^")];
    assert Shunt(input, 2, o1, s1) == Shunt(input, 3, o2, s2);
    assert Shunt(input, 1, o1, e) == Shunt(input, 2, o1, s1);
    assert Shunt(input, 0, e, e) == Shunt(input, 1, o1, e);
  }

  /** The rest of `2 ^ sqrt ( 4 )`: the closing parenthesis emits `sqrt`. */
  lemma FunctionArgument()
    ensures Shunt([Num("2"), Sym("^"), Sym("sqrt"), Token(LParen, "("), Num("4"), Token(RParen, ")")], 3,
           [Num("2"), Sym("^")], [Sym("sqrt")])
      == Ok([Num("2"), Sym("^"), Num("4"), Sym("sqrt")])
  {
    var input := [Num("2"), Sym("^"), Sym("sqrt"), Token(LParen, "("), Num("4"), Token(RParen, ")")];
    var e: seq<Token> := [];
    var o2 := [Num("2"), Sym("^")];
    var s2 := [Sym("sqrt")];
    var s3 := [Token(LParen, "(")] + s2;
    assert Step(input, 3, o2, s2) == Ok((o2, s3));
    var o3 := o2 + [Num("4")];
    assert Step(input, 4, o2, s3) == Ok((o3, s3));
    assert SegmentEnd(s3) == 0;
    assert s3[1..] == s2 && Ops["sqrt"].isPrefix;
    var o4 := o3 + s3[..0] + [Sym("sqrt")];
    assert Step(input, 5, o3, s3) == Ok((o4, s2[1..]));
    assert s2[1..] == e;
    assert Shunt(input, 6, o4, e) == Ok(o4 + e);
    assert Shunt(input, 5, o3, s3) == Shunt(input, 6, o4, e);
    assert Shunt(input, 4, o2, s3) == Shunt(input, 5, o3, s3);
    assert Shunt(input, 3, o2, s2) == Shunt(input, 4, o2, s3);
    assert o4 + e == [Num("2"), Sym("^"), Num("4"), Sym("sqrt")];
  }

  /** `abs` is not in the parser's table, and an unclosed parenthesis is an
      error. */
  lemma ErrorExamples()
    ensures Parse([Sym("abs"), Token(LParen, "("), Num("2"), Token(RParen, ")")])
      == Err(UnknownOperator("abs"))
    ensures Parse([Token(LParen, "("), Num("1")]) == Err(MismatchedParentheses)
  {
    var e: seq<Token> := [];
    var bad := [Sym("abs"), Token(LParen, "("), Num("2"), Token(RParen, ")")];
    assert ResolvedSymbol(bad, 0) == "abs" && "abs" !in Ops;
    assert Step(bad, 0, e, e) == Err(UnknownOperator("abs"));
    var open := [Token(LParen, "("), Num("1")];
    var s1 := [Token(LParen, "(")] + e;
    assert Step(open, 0, e, e) == Ok((e, s1));
    var o2 := e + [Num("1")];
    assert Step(open, 1, e, s1) == Ok((o2, s1));
    assert Opens(s1) == 1;
    assert Shunt(open, 1, e, s1) == Shunt(open, 2, o2, s1);
    assert Shunt(open, 0, e, e) == Shunt(open, 1, e, s1);
  }
}
