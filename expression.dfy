/**
  The expression evaluator of the plotting language: a binary tree of
  string-tagged nodes evaluated at a value `v` of the curve parameter `t`
  (src/tree_node.rs).

  Numbers are `real`. The float library the evaluator calls (Rust's
  `str::parse::<f64>`, `sin`, `cos`, `tan`, `ln`, `exp`, `sqrt`, `powf`, and
  the IEEE result of a division by zero) is not modelled: it is a parameter of
  type `Numerics`, and each lemma states what it needs of it.
*/
module Expression {
  import opened Wrappers

  /** The exact value of `std::f64::consts::PI`. */
  const PI: real := 3.141592653589793115997963468544185161590576171875
  /** The exact value of `std::f64::consts::E`. */
  const E: real := 2.718281828459045090795598298427648842334747314453125
  /** The exact value of `f64::MIN`, -(2^53 - 1) * 2^971: the sentinel for an unknown tag. */
  const F64_MIN: real := -179769313486231570814527423731704356798070567525844996598917476803157260780028538760589558632766878171540458953514382464234321326889464182768467546703537516986049910576551282076245490090389328944075868508455133942304583236903222948165808559332123348274797826204144723168738177180919299881250404026184124858368.0

  /** The floating-point library the evaluator relies on. */
  datatype Numerics = Numerics(
    parse: string -> Option<real>,  // str::parse::<f64>: Some(a) when the text is a number
    sin: real -> real,
    cos: real -> real,
    tan: real -> real,
    ln: real -> real,
    exp: real -> real,
    sqrt: real -> real,
    powf: (real, real) -> real,
    divByZero: real -> real)        // what the IEEE division l / 0.0 yields

  /** A node of an expression tree; a missing child is `None`. */
  datatype TreeNode = TreeNode(val: string, left: Option<TreeNode>, right: Option<TreeNode>)

  function Leaf(val: string): TreeNode {
    TreeNode(val, None, None)
  }

  /** Division; a zero divisor gives the library's IEEE result. */
  function Divide(num: Numerics, l: real, r: real): (q: real)
    ensures r != 0.0 ==> q * r == l
    ensures r == 0.0 ==> q == num.divByZero(l)
  {
    if r == 0.0 then num.divByZero(l) else l / r
  }

  /** `eval(root, v)`: a number literal first, then both children (0.0 when absent), then the tag. */
  function Eval(num: Numerics, root: TreeNode, v: real): real
    decreases root
  {
    match num.parse(root.val)
    case Some(a) => a
    case None =>
      var l := match root.left case Some(x) => Eval(num, x, v) case None => 0.0;
      var r := match root.right case Some(x) => Eval(num, x, v) case None => 0.0;
      match root.val
      case "t" => v
      case "pi" => PI
      case "e" => E
      case "sin" => num.sin(l)
      case "cos" => num.cos(l)
      case "tan" => num.tan(l)
      case "ln" => num.ln(l)
      case "exp" => num.exp(l)
      case "sqrt" => num.sqrt(l)
      case "+" => l + r
      case "-" => l - r
      case "*" => l * r
      case "/" => Divide(num, l, r)
      case "**" => num.powf(l, r)
      case _ => F64_MIN
  }

  const SymbolTags: set<string> := {"t", "pi", "e"}
  const UnaryTags: set<string> := {"sin", "cos", "tan", "ln", "exp", "sqrt"}
  const BinaryTags: set<string> := {"+", "-", "*", "/", "**"}

  /** Rust's parser rejects every tag that `eval` dispatches on (so it reaches the dispatch). */
  predicate TagsAreNotNumbers(num: Numerics) {
    && num.parse("t") == None && num.parse("pi") == None && num.parse("e") == None
    && num.parse("sin") == None && num.parse("cos") == None && num.parse("tan") == None
    && num.parse("ln") == None && num.parse("exp") == None && num.parse("sqrt") == None
    && num.parse("+") == None && num.parse("-") == None && num.parse("*") == None
    && num.parse("/") == None && num.parse("**") == None
  }

  /** A node whose text parses as a number is that number, whatever `v` and its children. */
  lemma EvalNumber(num: Numerics, root: TreeNode, v: real, a: real)
    requires num.parse(root.val) == Some(a)
    ensures Eval(num, root, v) == a
  {
  }

  /** The symbols: `t` is the parameter, `pi` and `e` the constants; children are ignored. */
  lemma EvalSymbols(num: Numerics, l: Option<TreeNode>, r: Option<TreeNode>, v: real)
    requires num.parse("t") == None && num.parse("pi") == None && num.parse("e") == None
    ensures Eval(num, TreeNode("t", l, r), v) == v
    ensures Eval(num, TreeNode("pi", l, r), v) == PI
    ensures Eval(num, TreeNode("e", l, r), v) == E
  {
  }

  /** A missing child evaluates exactly like the literal `0`. */
  lemma MissingChildIsZero(num: Numerics, tag: string, child: Option<TreeNode>, v: real)
    requires num.parse("0") == Some(0.0)
    ensures Eval(num, TreeNode(tag, None, child), v) == Eval(num, TreeNode(tag, Some(Leaf("0")), child), v)
    ensures Eval(num, TreeNode(tag, child, None), v) == Eval(num, TreeNode(tag, child, Some(Leaf("0"))), v)
  {
  }

  /** A childless `+` node is 0 + 0. */
  lemma ChildlessSumIsZero(num: Numerics, v: real)
    requires num.parse("+") == None
    ensures Eval(num, Leaf("+"), v) == 0.0
  {
  }

  /** A unary function reads only its left child: the right child may be changed or removed. */
  lemma UnaryIgnoresRight(num: Numerics, tag: string, l: Option<TreeNode>, r1: Option<TreeNode>, r2: Option<TreeNode>, v: real)
    requires tag in UnaryTags && num.parse(tag) == None
    ensures Eval(num, TreeNode(tag, l, r1), v) == Eval(num, TreeNode(tag, l, r2), v)
    ensures Eval(num, TreeNode(tag, l, r1), v) == Eval(num, TreeNode(tag, l, None), v)
  {
  }

  /** Any text that is neither a number nor a known tag yields the sentinel `f64::MIN`. */
  lemma UnknownTagIsSentinel(num: Numerics, root: TreeNode, v: real)
    requires num.parse(root.val) == None
    requires root.val !in SymbolTags + UnaryTags + BinaryTags
    ensures Eval(num, root, v) == F64_MIN
  {
  }

  /** True when some node of the tree carries the tag `t`. */
  predicate MentionsParam(root: TreeNode)
    decreases root
  {
    || root.val == "t"
    || (root.left.Some? && MentionsParam(root.left.value))
    || (root.right.Some? && MentionsParam(root.right.value))
  }

  /** `t` is the only variable: a tree without a `t` node has the same value for every parameter. */
  lemma {:induction false} ValueWithoutParam(num: Numerics, root: TreeNode, v1: real, v2: real)
    requires !MentionsParam(root)
    ensures Eval(num, root, v1) == Eval(num, root, v2)
    decreases root
  {
    if root.left.Some? {
      ValueWithoutParam(num, root.left.value, v1, v2);
    }
    if root.right.Some? {
      ValueWithoutParam(num, root.right.value, v1, v2);
    }
  }

  /*
    An independent reading of the same language: a typed syntax tree, its
    textbook meaning, and the string-tagged tree that represents it.
  */

  datatype UnaryOp = Sin | Cos | Tan | Ln | Exp | Sqrt
  datatype BinaryOp = Add | Sub | Mul | Div | Pow
  datatype Expr =
    | Literal(text: string)
    | Param
    | Pi
    | Euler
    | Unary(uop: UnaryOp, arg: Expr)
    | Binary(bop: BinaryOp, lhs: Expr, rhs: Expr)

  function UnaryTag(op: UnaryOp): string {
    match op
    case Sin => "sin"
    case Cos => "cos"
    case Tan => "tan"
    case Ln => "ln"
    case Exp => "exp"
    case Sqrt => "sqrt"
  }

  function BinaryTag(op: BinaryOp): string {
    match op
    case Add => "+"
    case Sub => "-"
    case Mul => "*"
    case Div => "/"
    case Pow => "**"
  }

  /** The tree for `e`: a unary node holds its operand on the left and no right child. */
  function ToTree(e: Expr): TreeNode {
    match e
    case Literal(text) => Leaf(text)
    case Param => Leaf("t")
    case Pi => Leaf("pi")
    case Euler => Leaf("e")
    case Unary(op, a) => TreeNode(UnaryTag(op), Some(ToTree(a)), None)
    case Binary(op, a, b) => TreeNode(BinaryTag(op), Some(ToTree(a)), Some(ToTree(b)))
  }

  /** Every literal of `e` is a number text. */
  predicate LiteralsParse(num: Numerics, e: Expr) {
    match e
    case Literal(text) => num.parse(text).Some?
    case Unary(_, a) => LiteralsParse(num, a)
    case Binary(_, a, b) => LiteralsParse(num, a) && LiteralsParse(num, b)
    case _ => true
  }

  /** The meaning of `e` at parameter value `v`. */
  function Denote(num: Numerics, e: Expr, v: real): real
    requires LiteralsParse(num, e)
  {
    match e
    case Literal(text) => num.parse(text).value
    case Param => v
    case Pi => PI
    case Euler => E
    case Unary(op, a) => ApplyUnary(num, op, Denote(num, a, v))
    case Binary(op, a, b) => ApplyBinary(num, op, Denote(num, a, v), Denote(num, b, v))
  }

  function ApplyUnary(num: Numerics, op: UnaryOp, x: real): real {
    match op
    case Sin => num.sin(x)
    case Cos => num.cos(x)
    case Tan => num.tan(x)
    case Ln => num.ln(x)
    case Exp => num.exp(x)
    case Sqrt => num.sqrt(x)
  }

  function ApplyBinary(num: Numerics, op: BinaryOp, x: real, y: real): real {
    match op
    case Add => x + y
    case Sub => x - y
    case Mul => x * y
    case Div => Divide(num, x, y)
    case Pow => num.powf(x, y)
  }

  /** A unary node applies its operator to its left child and ignores the missing right one. */
  lemma EvalUnaryNode(num: Numerics, op: UnaryOp, a: TreeNode, v: real)
    requires TagsAreNotNumbers(num)
    ensures Eval(num, TreeNode(UnaryTag(op), Some(a), None), v) == ApplyUnary(num, op, Eval(num, a, v))
  {
    match op
    case Sin =>
    case Cos =>
    case Tan =>
    case Ln =>
    case Exp =>
    case Sqrt =>
  }

  /** A binary node applies its operator to its two children. */
  lemma EvalBinaryNode(num: Numerics, op: BinaryOp, a: TreeNode, b: TreeNode, v: real)
    requires TagsAreNotNumbers(num)
    ensures Eval(num, TreeNode(BinaryTag(op), Some(a), Some(b)), v) ==
      ApplyBinary(num, op, Eval(num, a, v), Eval(num, b, v))
  {
    match op
    case Add =>
    case Sub =>
    case Mul =>
    case Div =>
    case Pow =>
  }

  /** The string-tagged evaluator computes the meaning of every well-formed expression. */
  lemma {:induction false} EvalToTree(num: Numerics, e: Expr, v: real)
    requires TagsAreNotNumbers(num) && LiteralsParse(num, e)
    ensures Eval(num, ToTree(e), v) == Denote(num, e, v)
  {
    match e
    case Literal(_) =>
    case Param =>
    case Pi =>
    case Euler =>
    case Unary(op, a) =>
      EvalToTree(num, a, v);
      EvalUnaryNode(num, op, ToTree(a), v);
    case Binary(op, a, b) =>
      EvalToTree(num, a, v);
      EvalToTree(num, b, v);
      EvalBinaryNode(num, op, ToTree(a), ToTree(b), v);
  }

  /** The tree of the evaluator's unit test: (t * 2 + t) - exp(t). */
  function TestTree(): TreeNode {
    TreeNode("-",
      Some(TreeNode("+",
        Some(TreeNode("*", Some(Leaf("t")), Some(Leaf("2")))),
        Some(Leaf("t")))),
      Some(TreeNode("exp", Some(Leaf("t")), None)))
  }

  /** The unit test's tree is 3v - exp(v) (the test checks it at v = 1 and v = 2). */
  lemma TestEval(num: Numerics, v: real)
    requires num.parse("-") == None && num.parse("+") == None && num.parse("*") == None
    requires num.parse("exp") == None && num.parse("t") == None
    requires num.parse("2") == Some(2.0)
    ensures Eval(num, TestTree(), v) == 3.0 * v - num.exp(v)
  {
    var product := TreeNode("*", Some(Leaf("t")), Some(Leaf("2")));
    assert Eval(num, product, v) == v * 2.0;
    var sum := TreeNode("+", Some(product), Some(Leaf("t")));
    assert Eval(num, sum, v) == 3.0 * v;
  }
}
