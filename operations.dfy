/** The operations the evaluator applies, their argument-count guards and
    domain checks, and the registry that maps a symbol to an operation
    (Operations.cs). Numbers are reals; the library functions the C# code
    calls (Math.Pow, Math.Sqrt, the trigonometric and logarithmic functions,
    Math.Exp, Math.PI) are fields of a MathLib value that the caller supplies,
    so nothing here depends on what they compute. */
module Operations {
  import opened Results

  datatype MathLib = MathLib(
    pi: real,
    pow: (real, real) -> real,
    sqrt: real -> real,
    sin: real -> real,
    cos: real -> real,
    tan: real -> real,
    ln: real -> real,
    log10: real -> real,
    exp: real -> real)

  /** One constructor per operation class of Operations.cs:40-225. */
  datatype Operation =
    | AddOp | SubOp | MulOp | DivOp | ModOp | PowOp
    | SqrtOp | AbsOp | FactOp | SinOp | CosOp | TanOp | LnOp | Log10Op | ExpOp
  {
    function Symbol(): string {
      match this
      case AddOp => "+"
      case SubOp => "-"
      case MulOp => "*"
      case DivOp => "/"
      case ModOp => "%"
      case PowOp => "^"
      case SqrtOp => "sqrt"
      case AbsOp => "abs"
      case FactOp => "!"
      case SinOp => "sin"
      case CosOp => "cos"
      case TanOp => "tan"
      case LnOp => "ln"
      case Log10Op => "log"
      case ExpOp => "exp"
    }

    function Arity(): nat {
      match this
      case AddOp | SubOp | MulOp | DivOp | ModOp | PowOp => 2
      case _ => 1
    }

    /** Add, Sub, Mul and Div check only a minimum argument count
        (RequireAtLeast); every other operation checks an exact one. */
    predicate Variadic() {
      this == AddOp || this == SubOp || this == MulOp || this == DivOp
    }
  }

  // ---------------------------------------------------------------------------
  // Argument guards (Operations.cs:17-29): None when the count is right,
  // otherwise the ArgumentException the C# code throws.

  function RequireExact(args: seq<real>, expected: nat): (r: Option<Error>)
    ensures r.None? <==> |args| == expected
    ensures r.Some? ==> r.value == ArgumentCount(expected, |args|)
  {
    if |args| != expected then Some(ArgumentCount(expected, |args|)) else None
  }

  function RequireAtLeast(args: seq<real>, min: nat): (r: Option<Error>)
    ensures r.None? <==> |args| >= min
    ensures r.Some? ==> r.value == ArgumentCount(min, |args|)
  {
    if |args| < min then Some(ArgumentCount(min, |args|)) else None
  }

  /** The guard each Apply starts with. */
  function Guard(op: Operation, args: seq<real>): Option<Error> {
    if op.Variadic() then RequireAtLeast(args, 2) else RequireExact(args, op.Arity())
  }

  // ---------------------------------------------------------------------------
  // Arithmetic helpers

  /** The sum of a sequence, adding from the front as the C# loop does. */
  function Sum(xs: seq<real>): real {
    if xs == [] then 0.0 else Sum(xs[..|xs| - 1]) + xs[|xs| - 1]
  }

  function Product(xs: seq<real>): (p: real)
    ensures (forall k :: 0 <= k < |xs| ==> xs[k] != 0.0) ==> p != 0.0
  {
    if xs == [] then 1.0 else Product(xs[..|xs| - 1]) * xs[|xs| - 1]
  }

  function Factorial(n: nat): (r: nat)
    ensures r >= 1
  {
    if n == 0 then 1 else n * Factorial(n - 1)
  }

  function Abs(x: real): (r: real)
    ensures r >= 0.0 && (r == x || r == -x)
  {
    if x < 0.0 then -x else x
  }

  /** Rounds toward zero, as C#'s floating-point remainder does. */
  function Trunc(x: real): (t: int)
    ensures x >= 0.0 ==> 0.0 <= x - t as real < 1.0
    ensures x <= 0.0 ==> -1.0 < x - t as real <= 0.0
  {
    if x >= 0.0 then x.Floor else -((-x).Floor)
  }

  /** C#'s `%` on doubles: the remainder of the division truncated toward
      zero. It has the sign of the dividend and is smaller than the divisor
      in magnitude. */
  function Rem(a: real, b: real): (r: real)
    requires b != 0.0
    ensures Abs(r) < Abs(b)
    ensures a >= 0.0 ==> r >= 0.0
    ensures a <= 0.0 ==> r <= 0.0
    ensures a == Trunc(a / b) as real * b + r
  {
    RemBounds(a, b);
    a - Trunc(a / b) as real * b
  }

  lemma RemBounds(a: real, b: real)
    requires b != 0.0
    ensures var r := a - Trunc(a / b) as real * b;
      Abs(r) < Abs(b) && (a >= 0.0 ==> r >= 0.0) && (a <= 0.0 ==> r <= 0.0)
  {
    var q := a / b;
    var t := Trunc(q) as real;
    assert a == q * b;
    assert a - t * b == (q - t) * b;
    RemCore(q, b, q - t);
  }

  /** The remainder is `f * b` where `f` is the fractional part of the
      quotient `q`, taken toward zero. */
  lemma RemCore(q: real, b: real, f: real)
    requires b != 0.0
    requires q > 0.0 ==> 0.0 <= f < 1.0
    requires q < 0.0 ==> -1.0 < f <= 0.0
    requires q == 0.0 ==> f == 0.0
    ensures Abs(f * b) < Abs(b)
    ensures q * b >= 0.0 ==> f * b >= 0.0
    ensures q * b <= 0.0 ==> f * b <= 0.0
  {
    ProductSign(q, b);
    ProductSign(f, b);
    if q == 0.0 {
      assert f * b == 0.0;
    } else {
      FractionTimes(f, b);
    }
  }

  lemma ProductSign(x: real, y: real)
    ensures x > 0.0 && y > 0.0 ==> x * y > 0.0
    ensures x < 0.0 && y < 0.0 ==> x * y > 0.0
    ensures x > 0.0 && y < 0.0 ==> x * y < 0.0
    ensures x < 0.0 && y > 0.0 ==> x * y < 0.0
  {
  }

  /** A proper fraction of `b` is smaller than `b` in magnitude. */
  lemma FractionTimes(f: real, b: real)
    requires -1.0 < f < 1.0 && b != 0.0
    ensures Abs(f * b) < Abs(b)
  {
    var p := f * b;
    var below := 1.0 - f;
    var above := 1.0 + f;
    ProductSign(below, b);
    ProductSign(above, b);
    assert below * b == b - p;
    assert above * b == b + p;
  }

  /** The integer test of the factorial, without the 1e-9 tolerance of the
      C# code. */
  predicate IsInteger(x: real) {
    x.Floor as real == x
  }

  function DegToRad(deg: real, pi: real): real {
    deg * pi / 180.0
  }

  // ---------------------------------------------------------------------------
  // What each operation computes

  /** The result of `op.Apply(args)`: the argument-count guard first, then
      the domain check, then the value. Add, Sub, Mul and Div are written here
      in closed form; the loops of the C# code are the methods further down. */
  function Apply(op: Operation, args: seq<real>, m: MathLib): Result<real> {
    var guard := Guard(op, args);
    if guard.Some? then Err(guard.value)
    else
      match op
      case AddOp => Ok(Sum(args))
      case SubOp => Ok(args[0] - Sum(args[1..]))
      case MulOp => Ok(Product(args))
      case DivOp =>
        if exists k :: 1 <= k < |args| && args[k] == 0.0 then Err(DivideByZero)
        else Ok(args[0] / Product(args[1..]))
      case ModOp => if args[1] == 0.0 then Err(DivideByZero) else Ok(Rem(args[0], args[1]))
      case PowOp => Ok(m.pow(args[0], args[1]))
      case _ => ApplyUnary(op, args[0], m)
  }

  /** The unary operations, once their single argument is checked. */
  function ApplyUnary(op: Operation, x: real, m: MathLib): Result<real>
    requires op.Arity() == 1
  {
    match op
    case SqrtOp => if x < 0.0 then Err(DomainError) else Ok(m.sqrt(x))
    case AbsOp => Ok(Abs(x))
    case FactOp => Fact(x)
    case SinOp => Ok(m.sin(DegToRad(x, m.pi)))
    case CosOp => Ok(m.cos(DegToRad(x, m.pi)))
    case TanOp => Ok(m.tan(DegToRad(x, m.pi)))
    case LnOp => if x <= 0.0 then Err(DomainError) else Ok(m.ln(x))
    case Log10Op => if x <= 0.0 then Err(DomainError) else Ok(m.log10(x))
    case ExpOp => Ok(m.exp(x))
  }

  /** FactOp.Apply once its argument is checked: an integer from 0 to 170. */
  function Fact(x: real): Result<real> {
    if !IsInteger(x) then Err(DomainError)
    else if x.Floor < 0 then Err(DomainError)
    else if x.Floor > 170 then Err(Overflow)
    else Ok(Factorial(x.Floor) as real)
  }

  /** The domain each operation accepts, stated per operation without
      reference to the order of the checks in Apply. */
  ghost predicate InDomain(op: Operation, args: seq<real>)
    requires |args| == op.Arity()
  {
    match op
    case DivOp => args[1] != 0.0
    case ModOp => args[1] != 0.0
    case SqrtOp => args[0] >= 0.0
    case FactOp => IsInteger(args[0]) && 0.0 <= args[0] <= 170.0
    case LnOp => args[0] > 0.0
    case Log10Op => args[0] > 0.0
    case _ => true
  }

  // ---------------------------------------------------------------------------
  // Properties of Apply

  /** Every operation rejects a wrong argument count, and only that, with an
      ArgumentCount error naming the count it wanted. */
  lemma ArgumentCountChecked(op: Operation, args: seq<real>, m: MathLib)
    ensures var wanted := if op.Variadic() then |args| >= 2 else |args| == op.Arity();
      (Apply(op, args, m).Err? && Apply(op, args, m).error.ArgumentCount?) <==> !wanted
    ensures Apply(op, args, m).Err? && Apply(op, args, m).error.ArgumentCount? ==>
      Apply(op, args, m).error == ArgumentCount(if op.Variadic() then 2 else op.Arity(), |args|)
  {
    if Guard(op, args).None? {
      match op
      case DivOp =>
      case ModOp =>
      case SqrtOp =>
      case FactOp =>
      case LnOp =>
      case Log10Op =>
      case _ =>
    }
  }

  /** With as many arguments as its arity, an operation succeeds exactly when
      its argument lies in its domain. */
  lemma ApplySucceedsIff(op: Operation, args: seq<real>, m: MathLib)
    requires |args| == op.Arity()
    ensures Apply(op, args, m).Ok? <==> InDomain(op, args)
  {
    if op == DivOp {
      assert (exists k :: 1 <= k < |args| && args[k] == 0.0) <==> args[1] == 0.0;
    } else if op == FactOp {
      FactSucceedsIff(args[0]);
    }
  }

  lemma FactSucceedsIff(x: real)
    ensures Fact(x).Ok? <==> IsInteger(x) && 0.0 <= x <= 170.0
  {
    if IsInteger(x) {
      assert x == x.Floor as real;
    }
  }

  /** On two arguments the variadic operations are the binary operators of
      the expression: the loops of Operations.cs:44-93 reduce to them. */
  lemma BinaryForms(a: real, b: real, m: MathLib)
    ensures Apply(AddOp, [a, b], m) == Ok(a + b)
    ensures Apply(SubOp, [a, b], m) == Ok(a - b)
    ensures Apply(MulOp, [a, b], m) == Ok(a * b)
    ensures Apply(DivOp, [a, b], m) == if b == 0.0 then Err(DivideByZero) else Ok(a / b)
  {
    var args := [a, b];
    assert args[..1] == [a] && [a][..0] == [] && args[1..] == [b];
    assert Sum([a]) == a && Product([a]) == a && Sum([b]) == b && Product([b]) == b;
    assert Apply(AddOp, args, m) == Ok(Sum(args)) && Sum(args) == a + b;
    assert Apply(SubOp, args, m) == Ok(a - Sum([b]));
    assert Apply(MulOp, args, m) == Ok(Product(args)) && Product(args) == a * b;
    assert Apply(DivOp, args, m) ==
      if exists k :: 1 <= k < |args| && args[k] == 0.0 then Err(DivideByZero) else Ok(a / Product([b]));
    if b == 0.0 {
      assert 1 <= 1 < |args| && args[1] == 0.0;
    }
  }

  /** The loops of Operations.cs:46-91 as left folds: each argument in turn
      is combined with the running value. */
  function AddFold(acc: real, xs: seq<real>): real
    decreases |xs|
  {
    if xs == [] then acc else AddFold(acc + xs[0], xs[1..])
  }

  function SubFold(acc: real, xs: seq<real>): real
    decreases |xs|
  {
    if xs == [] then acc else SubFold(acc - xs[0], xs[1..])
  }

  function MulFold(acc: real, xs: seq<real>): real
    decreases |xs|
  {
    if xs == [] then acc else MulFold(acc * xs[0], xs[1..])
  }

  function DivFold(acc: real, xs: seq<real>): real
    requires forall k :: 0 <= k < |xs| ==> xs[k] != 0.0
    decreases |xs|
  {
    if xs == [] then acc else DivFold(acc / xs[0], xs[1..])
  }

  /** Add, Sub, Mul and Div applied to any number of arguments are the left
      folds of the C# loops: s = 0 then s += a for each argument, res =
      args[0] then res -= args[i], res = 1 then res *= a, and res = args[0]
      then res /= args[i] when no divisor is zero. */
  lemma VariadicFolds(args: seq<real>, m: MathLib)
    requires |args| >= 2
    ensures Apply(AddOp, args, m) == Ok(AddFold(0.0, args))
    ensures Apply(SubOp, args, m) == Ok(SubFold(args[0], args[1..]))
    ensures Apply(MulOp, args, m) == Ok(MulFold(1.0, args))
    ensures (forall k :: 1 <= k < |args| ==> args[k] != 0.0) ==>
      Apply(DivOp, args, m) == Ok(DivFold(args[0], args[1..]))
  {
    AddFolds(args, m);
    SubFolds(args, m);
    MulFolds(args, m);
    if forall k :: 1 <= k < |args| ==> args[k] != 0.0 {
      DivFolds(args, m);
    }
  }

  lemma AddFolds(args: seq<real>, m: MathLib)
    requires |args| >= 2
    ensures Apply(AddOp, args, m) == Ok(AddFold(0.0, args))
  {
    assert Guard(AddOp, args) == None;
    AddFoldSum(0.0, args);
  }

  lemma SubFolds(args: seq<real>, m: MathLib)
    requires |args| >= 2
    ensures Apply(SubOp, args, m) == Ok(SubFold(args[0], args[1..]))
  {
    assert Guard(SubOp, args) == None;
    SubFoldSum(args[0], args[1..]);
  }

  lemma MulFolds(args: seq<real>, m: MathLib)
    requires |args| >= 2
    ensures Apply(MulOp, args, m) == Ok(MulFold(1.0, args))
  {
    assert Guard(MulOp, args) == None;
    MulFoldProduct(1.0, args);
  }

  lemma DivFolds(args: seq<real>, m: MathLib)
    requires |args| >= 2 && forall k :: 1 <= k < |args| ==> args[k] != 0.0
    ensures Apply(DivOp, args, m) == Ok(DivFold(args[0], args[1..]))
  {
    assert Guard(DivOp, args) == None;
    var rest := args[1..];
    assert forall k :: 0 <= k < |rest| ==> rest[k] == args[k + 1];
    DivFoldProduct(args[0], rest);
  }

  lemma {:induction false} AddFoldSum(acc: real, xs: seq<real>)
    ensures AddFold(acc, xs) == acc + Sum(xs)
    decreases |xs|
  {
    if xs != [] {
      assert [xs[0]] + xs[1..] == xs;
      SumCons(xs[0], xs[1..]);
      AddFoldSum(acc + xs[0], xs[1..]);
    }
  }

  lemma {:induction false} SubFoldSum(acc: real, xs: seq<real>)
    ensures SubFold(acc, xs) == acc - Sum(xs)
    decreases |xs|
  {
    if xs != [] {
      assert [xs[0]] + xs[1..] == xs;
      SumCons(xs[0], xs[1..]);
      SubFoldSum(acc - xs[0], xs[1..]);
    }
  }

  lemma {:induction false} MulFoldProduct(acc: real, xs: seq<real>)
    ensures MulFold(acc, xs) == acc * Product(xs)
    decreases |xs|
  {
    if xs != [] {
      assert [xs[0]] + xs[1..] == xs;
      ProductCons(xs[0], xs[1..]);
      MulFoldProduct(acc * xs[0], xs[1..]);
    }
  }

  lemma {:induction false} DivFoldProduct(acc: real, xs: seq<real>)
    requires forall k :: 0 <= k < |xs| ==> xs[k] != 0.0
    ensures DivFold(acc, xs) == acc / Product(xs)
    decreases |xs|
  {
    if xs != [] {
      var x, rest := xs[0], xs[1..];
      assert [x] + rest == xs;
      assert forall k :: 0 <= k < |rest| ==> rest[k] == xs[k + 1];
      DivFoldProduct(acc / x, rest);
      ProductCons(x, rest);
      QuotientOfQuotient(acc, x, Product(rest));
    }
  }

  lemma QuotientOfQuotient(a: real, x: real, p: real)
    requires x != 0.0 && p != 0.0
    ensures (a / x) / p == a / (x * p)
  {
  }

  lemma {:induction false} ProductCons(x: real, rest: seq<real>)
    ensures Product([x] + rest) == x * Product(rest)
  {
    if rest == [] {
      assert [x] + rest == [x];
      assert [x][..0] == [];
    } else {
      var init := rest[..|rest| - 1];
      assert ([x] + rest)[..|rest|] == [x] + init;
      ProductCons(x, init);
    }
  }

  lemma {:induction false} SumCons(x: real, rest: seq<real>)
    ensures Sum([x] + rest) == x + Sum(rest)
  {
    if rest == [] {
      assert [x] + rest == [x];
      assert [x][..0] == [];
    } else {
      var init := rest[..|rest| - 1];
      assert ([x] + rest)[..|rest|] == [x] + init;
      SumCons(x, init);
    }
  }

  /** The values of test.cs, reproduced on the model for the operations whose
      value does not depend on the library functions. */
  lemma SampleResults(m: MathLib)
    ensures Apply(AddOp, [2.0, 3.0], m) == Ok(5.0)
    ensures Apply(SubOp, [10.0, 4.0, 1.0], m) == Ok(5.0)
    ensures Apply(MulOp, [6.0, 7.0], m) == Ok(42.0)
    ensures Apply(DivOp, [20.0, 5.0, 2.0], m) == Ok(2.0)
    ensures Apply(ModOp, [10.0, 3.0], m) == Ok(1.0)
    ensures Apply(AbsOp, [-12.5], m) == Ok(12.5)
    ensures Apply(FactOp, [5.0], m) == Ok(120.0)
  {
    BinaryForms(2.0, 3.0, m);
    BinaryForms(6.0, 7.0, m);
    SampleDifference(m);
    SampleQuotient(m);
    SampleRemainder(m);
    SampleFactorial(m);
    assert Guard(AbsOp, [-12.5]) == None;
  }

  lemma SampleRemainder(m: MathLib)
    ensures Apply(ModOp, [10.0, 3.0], m) == Ok(1.0)
  {
    assert Guard(ModOp, [10.0, 3.0]) == None;
    assert (10.0 / 3.0).Floor == 3;
  }

  lemma SampleFactorial(m: MathLib)
    ensures Apply(FactOp, [5.0], m) == Ok(120.0)
  {
    assert Guard(FactOp, [5.0]) == None;
    assert (5.0).Floor == 5;
    assert Factorial(5) == 120;
  }

  lemma SampleDifference(m: MathLib)
    ensures Apply(SubOp, [10.0, 4.0, 1.0], m) == Ok(5.0)
  {
    var sub := [10.0, 4.0, 1.0];
    assert Guard(SubOp, sub) == None;
    assert sub[1..] == [4.0, 1.0];
    assert [4.0, 1.0][..1] == [4.0] && [4.0][..0] == [];
    assert Sum([4.0, 1.0]) == 5.0;
  }

  lemma SampleQuotient(m: MathLib)
    ensures Apply(DivOp, [20.0, 5.0, 2.0], m) == Ok(2.0)
  {
    var div := [20.0, 5.0, 2.0];
    assert Guard(DivOp, div) == None;
    assert div[1..] == [5.0, 2.0];
    assert [5.0, 2.0][..1] == [5.0] && [5.0][..0] == [];
    assert Product([5.0, 2.0]) == 10.0;
  }

  /** The factorial limits: 170 is the last value accepted, and negative or
      fractional arguments are domain errors. */
  lemma FactorialLimits(m: MathLib)
    ensures Apply(FactOp, [170.0], m).Ok?
    ensures Apply(FactOp, [171.0], m) == Err(Overflow)
    ensures Apply(FactOp, [-1.0], m) == Err(DomainError)
    ensures Apply(FactOp, [2.5], m) == Err(DomainError)
    ensures Apply(ModOp, [1.0, 0.0], m) == Err(DivideByZero)
    ensures Apply(SqrtOp, [-1.0], m) == Err(DomainError)
  {
    assert (170.0).Floor == 170;
    assert (171.0).Floor == 171;
    assert (-1.0).Floor == -1;
    assert (2.5).Floor == 2;
  }

  // ---------------------------------------------------------------------------
  // The loops of the C# Apply methods

  /** AddOp.Apply (Operations.cs:44-50). */
  method AddApply(args: seq<real>) returns (r: Result<real>)
    ensures |args| < 2 ==> r == Err(ArgumentCount(2, |args|))
    ensures |args| >= 2 ==> r == Ok(Sum(args))
  {
    if |args| < 2 {
      return Err(ArgumentCount(2, |args|));
    }
    var s := 0.0;
    for i := 0 to |args|
      invariant s == Sum(args[..i])
    {
      assert args[..i + 1][..i] == args[..i];
      s := s + args[i];
    }
    assert args[..|args|] == args;
    r := Ok(s);
  }

  /** SubOp.Apply (Operations.cs:57-63): subtracting the arguments one by one
      from the first is subtracting their sum. */
  method SubApply(args: seq<real>) returns (r: Result<real>)
    ensures |args| < 2 ==> r == Err(ArgumentCount(2, |args|))
    ensures |args| >= 2 ==> r == Ok(args[0] - Sum(args[1..]))
  {
    if |args| < 2 {
      return Err(ArgumentCount(2, |args|));
    }
    var res := args[0];
    for i := 1 to |args|
      invariant res == args[0] - Sum(args[1..i])
    {
      assert args[1..i + 1][..i - 1] == args[1..i];
      res := res - args[i];
    }
    assert args[1..|args|] == args[1..];
    r := Ok(res);
  }

  /** MulOp.Apply (Operations.cs:70-76). */
  method MulApply(args: seq<real>) returns (r: Result<real>)
    ensures |args| < 2 ==> r == Err(ArgumentCount(2, |args|))
    ensures |args| >= 2 ==> r == Ok(Product(args))
  {
    if |args| < 2 {
      return Err(ArgumentCount(2, |args|));
    }
    var res := 1.0;
    for i := 0 to |args|
      invariant res == Product(args[..i])
    {
      assert args[..i + 1][..i] == args[..i];
      res := res * args[i];
    }
    assert args[..|args|] == args;
    r := Ok(res);
  }

  /** DivOp.Apply (Operations.cs:83-93): dividing the first argument by the
      others one by one fails at the first zero divisor, and otherwise is
      dividing it by their product. */
  method DivApply(args: seq<real>) returns (r: Result<real>)
    ensures |args| < 2 ==> r == Err(ArgumentCount(2, |args|))
    ensures |args| >= 2 ==>
      r == if exists k :: 1 <= k < |args| && args[k] == 0.0 then Err(DivideByZero)
           else Ok(args[0] / Product(args[1..]))
  {
    if |args| < 2 {
      return Err(ArgumentCount(2, |args|));
    }
    var res := args[0];
    for i := 1 to |args|
      invariant forall k :: 1 <= k < i ==> args[k] != 0.0
      invariant Product(args[1..i]) != 0.0
      invariant res == args[0] / Product(args[1..i])
    {
      if args[i] == 0.0 {
        assert 1 <= i < |args| && args[i] == 0.0;
        return Err(DivideByZero);
      }
      DivideNext(args, i);
      res := res / args[i];
    }
    assert args[1..|args|] == args[1..];
    r := Ok(res);
  }

  /** One pass of the loop of DivOp.Apply: dividing by the next non-zero
      argument is dividing by the product of the divisors so far and it. */
  lemma DivideNext(args: seq<real>, i: nat)
    requires 1 <= i < |args| && Product(args[1..i]) != 0.0 && args[i] != 0.0
    ensures Product(args[1..i + 1]) != 0.0
    ensures (args[0] / Product(args[1..i])) / args[i] == args[0] / Product(args[1..i + 1])
  {
    assert args[1..i + 1] == args[1..i] + [args[i]];
    QuotientStep(args[0], args[1..i], args[i]);
  }

  /** Dividing by one more non-zero divisor is dividing by the product
      extended with it. */
  lemma QuotientStep(a: real, divisors: seq<real>, x: real)
    requires Product(divisors) != 0.0 && x != 0.0
    ensures Product(divisors + [x]) != 0.0
    ensures (a / Product(divisors)) / x == a / Product(divisors + [x])
  {
    var p := Product(divisors);
    assert (divisors + [x])[..|divisors|] == divisors;
    assert Product(divisors + [x]) == p * x;
  }

  /** FactOp.Apply (Operations.cs:146-158): the loop multiplies 2..n. */
  method FactApply(args: seq<real>) returns (r: Result<real>)
    ensures |args| != 1 ==> r == Err(ArgumentCount(1, |args|))
    ensures |args| == 1 ==> r == Fact(args[0])
  {
    if |args| != 1 {
      return Err(ArgumentCount(1, |args|));
    }
    var x := args[0];
    if !IsInteger(x) {
      return Err(DomainError);
    }
    var n := x.Floor;
    if n < 0 {
      return Err(DomainError);
    }
    if n > 170 {
      return Err(Overflow);
    }
    var res := 1.0;
    var i := 2;
    while i <= n
      invariant 2 <= i <= if n < 2 then 2 else n + 1
      invariant res == Factorial(i - 1) as real
    {
      res := res * i as real;
      i := i + 1;
    }
    r := Ok(res);
  }

  /** `op.Apply(args)` through the object's own method: the variadic
      operations and the factorial run their loops, the rest compute
      directly. */
  method ApplyOp(op: Operation, args: seq<real>, m: MathLib) returns (r: Result<real>)
    ensures r == Apply(op, args, m)
  {
    match op
    case AddOp => r := AddApply(args);
    case SubOp => r := SubApply(args);
    case MulOp => r := MulApply(args);
    case DivOp => r := DivApply(args);
    case FactOp => r := FactApply(args);
    case _ => r := Apply(op, args, m);
  }

  // ---------------------------------------------------------------------------
  // The registry (Operations.cs:227-256)

  /** The symbol-to-operation map of the default registry. */
  function DefaultOps(): map<string, Operation> {
    map[
      "+" := AddOp, "-" := SubOp, "*" := MulOp, "/" := DivOp, "%" := ModOp,
      "^" := PowOp, "sqrt" := SqrtOp, "abs" := AbsOp, "!" := FactOp,
      "sin" := SinOp, "cos" := CosOp, "tan" := TanOp, "ln" := LnOp,
      "log" := Log10Op, "exp" := ExpOp]
  }

  /** A map in which every operation is stored under its own symbol. */
  ghost predicate KeyedBySymbol(ops: map<string, Operation>) {
    forall s :: s in ops ==> ops[s].Symbol() == s
  }

  /** The default registry holds every operation, each under its own symbol,
      and nothing else; in particular it has no entry for the parser's
      unary minus `neg`. */
  lemma DefaultOpsComplete()
    ensures KeyedBySymbol(DefaultOps())
    ensures forall op: Operation :: op.Symbol() in DefaultOps() && DefaultOps()[op.Symbol()] == op
    ensures "neg" !in DefaultOps()
  {
    var d := DefaultOps();
    forall op: Operation
      ensures op.Symbol() in d && d[op.Symbol()] == op
    {
      match op
      case AddOp => case SubOp => case MulOp => case DivOp => case ModOp =>
      case PowOp => case SqrtOp => case AbsOp => case FactOp => case SinOp =>
      case CosOp => case TanOp => case LnOp => case Log10Op => case ExpOp =>
    }
    forall s | s in d
      ensures d[s].Symbol() == s
    {
      DefaultKey(s);
    }
  }

  lemma DefaultKey(s: string)
    requires s in DefaultOps()
    ensures DefaultOps()[s].Symbol() == s
  {
    assert s == "+" || s == "-" || s == "*" || s == "/" || s == "%" || s == "^" || s == "sqrt" || s == "abs"
      || s == "!" || s == "sin" || s == "cos" || s == "tan" || s == "ln" || s == "log" || s == "exp";
  }

  class OpRegistry {
    var ops: map<string, Operation>

    ghost predicate Valid()
      reads this
    {
      KeyedBySymbol(ops)
    }

    constructor ()
      ensures Valid() && ops == map[]
    {
      ops := map[];
    }

    /** Stores `op` under its symbol, replacing any earlier entry, and
        returns the registry for chaining. */
    method Register(op: Operation) returns (self: OpRegistry)
      requires Valid()
      modifies this
      ensures Valid()
      ensures ops == old(ops)[op.Symbol() := op]
      ensures self == this
    {
      ops := ops[op.Symbol() := op];
      self := this;
    }

    /** The operation stored under `symbol`, if any; in a valid registry it
        is the operation whose symbol that is. */
    function TryGet(symbol: string): (r: Option<Operation>)
      reads this
      ensures r.Some? <==> symbol in ops
      ensures r.Some? ==> ops[symbol] == r.value
      ensures Valid() && r.Some? ==> r.value.Symbol() == symbol
    {
      if symbol in ops then Some(ops[symbol]) else None
    }

    static method CreateDefault() returns (r: OpRegistry)
      ensures fresh(r) && r.Valid()
      ensures r.ops == DefaultOps()
    {
      r := new OpRegistry();
      var _ := r.Register(AddOp);
      var _ := r.Register(SubOp);
      var _ := r.Register(MulOp);
      var _ := r.Register(DivOp);
      var _ := r.Register(ModOp);
      var _ := r.Register(PowOp);
      var _ := r.Register(SqrtOp);
      var _ := r.Register(AbsOp);
      var _ := r.Register(FactOp);
      var _ := r.Register(SinOp);
      var _ := r.Register(CosOp);
      var _ := r.Register(TanOp);
      var _ := r.Register(LnOp);
      var _ := r.Register(Log10Op);
      var _ := r.Register(ExpOp);
    }
  }
}
