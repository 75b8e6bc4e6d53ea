/** The straight-line language of the expression-cost engine: its grammar after Python's own
    parser, the checks of `parse`, and what a program computes.  Every rejection in the source is
    a ValueError; it is `None` here, and the message texts are not modelled. */
module SsaProgram {
  import opened Outcomes

  datatype Operator = Plus | Minus | Times | Divide

  datatype Arg = Lit(n: int) | Name(id: string)

  /** `Copy` is a row whose operator is None; `Apply` is a row with an operator and two arguments. */
  datatype Rhs = Copy(arg: Arg) | Apply(op: Operator, left: Arg, right: Arg)

  datatype Row = Row(name: string, rhs: Rhs)

  /** The part of Python's syntax tree that `parse` looks at.  `op` is None for an operator outside
      the four; `OtherConstant` is a constant that is not exactly an int (a bool, a float, ...). */
  datatype Node =
    | NameNode(id: string)
    | IntNode(n: int)
    | OtherConstant
    | Negated(operand: Node)
    | Binary(left: Node, op: Option<Operator>, right: Node)
    | OtherNode

  datatype Statement = Assign(targets: seq<Node>, value: Node) | OtherStatement

  /** A source line: blank or a comment, a syntax error, or a list of statements. */
  datatype Line = Ignored | SyntaxError | Parsed(body: seq<Statement>)

  // ---------- What `parse` accepts ----------

  function Atom(node: Node): Option<Arg> {
    match node
    case NameNode(id) => Some(Name(id))
    case IntNode(n) => Some(Lit(n))
    case Negated(IntNode(n)) => Some(Lit(-n))
    case _ => None
  }

  function RhsOf(value: Node): Option<Rhs> {
    match value
    case Binary(left, Some(op), right) =>
      var a, b := Atom(left), Atom(right);
      if a.None? || b.None? || (op == Divide && b.value == Lit(0)) then None
      else Some(Apply(op, a.value, b.value))
    case _ =>
      var a := Atom(value);
      if a.None? then None else Some(Copy(a.value))
  }

  /** The row of one line that is neither blank nor a comment. */
  function RowOf(line: Line): Option<Row> {
    match line
    case Parsed(body) =>
      if |body| == 1 && body[0].Assign? && |body[0].targets| == 1 && body[0].targets[0].NameNode? then
        var rhs := RhsOf(body[0].value);
        if rhs.None? then None else Some(Row(body[0].targets[0].id, rhs.value))
      else None
    case _ => None
  }

  /** The rows of a program, or None when some line is not a simple assignment. */
  function RowsOf(program: seq<Line>): Option<seq<Row>> {
    if program == [] then Some([])
    else
      var front := RowsOf(program[..|program| - 1]);
      var last := program[|program| - 1];
      if last.Ignored? then front
      else
        var row := RowOf(last);
        if front.None? || row.None? then None else Some(front.value + [row.value])
  }

  function Args(rhs: Rhs): seq<Arg> {
    match rhs
    case Copy(a) => [a]
    case Apply(_, a, b) => [a, b]
  }

  function Names(rhs: Rhs): (names: set<string>)
    ensures forall x :: x in names <==> Name(x) in Args(rhs)
  {
    set a | a in Args(rhs) && a.Name? :: a.id
  }

  predicate Defines(rows: seq<Row>, x: string) {
    exists j :: 0 <= j < |rows| && rows[j].name == x
  }

  predicate SingleAssignment(rows: seq<Row>) {
    forall i, j :: 0 <= i < j < |rows| ==> rows[i].name != rows[j].name
  }

  predicate NoForwardReference(rows: seq<Row>) {
    forall i, x :: 0 <= i < |rows| && x in Names(rows[i].rhs) && Defines(rows, x) ==> Defines(rows[..i], x)
  }

  predicate WellFormed(rows: seq<Row>) {
    SingleAssignment(rows) && Defines(rows, "res") && NoForwardReference(rows)
  }

  /** Where no name is assigned twice, a forward reference is a row that reads the name of a row at or
      after it. */
  lemma ForwardReferences(rows: seq<Row>)
    requires SingleAssignment(rows)
    ensures NoForwardReference(rows) <==>
            forall i, j :: 0 <= i <= j < |rows| ==> Name(rows[j].name) !in Args(rows[i].rhs)
  {
    forall i, j | 0 <= i <= j < |rows| && Name(rows[j].name) in Args(rows[i].rhs) ensures !NoForwardReference(rows) {
      assert rows[j].name in Names(rows[i].rhs) && Defines(rows, rows[j].name) && !Defines(rows[..i], rows[j].name);
    }
    forall i, x | 0 <= i < |rows| && x in Names(rows[i].rhs) && Defines(rows, x) && !Defines(rows[..i], x)
      ensures exists j :: i <= j < |rows| && Name(rows[j].name) in Args(rows[i].rhs)
    {
      var j :| 0 <= j < |rows| && rows[j].name == x;
    }
  }

  function DefinedNames(rows: seq<Row>): (names: set<string>)
    ensures forall x :: x in names <==> Defines(rows, x)
  {
    set j | 0 <= j < |rows| :: rows[j].name
  }

  lemma DefinedNamesAppend(rows: seq<Row>, row: Row)
    ensures DefinedNames(rows + [row]) == DefinedNames(rows) + {row.name}
  {
    forall x ensures x in DefinedNames(rows + [row]) <==> x in DefinedNames(rows) + {row.name} {
      if x == row.name { assert (rows + [row])[|rows|].name == x; }
      if Defines(rows, x) {
        var j :| 0 <= j < |rows| && rows[j].name == x;
        assert (rows + [row])[j].name == x;
      }
    }
  }

  lemma RowsOfPrefixFails(program: seq<Line>, n: nat)
    requires n <= |program| && RowsOf(program[..n]).None?
    ensures RowsOf(program).None?
    decreases |program| - n
  {
    if n < |program| {
      assert program[..n + 1][..n] == program[..n];
      assert RowsOf(program[..n + 1]).None?;
      RowsOfPrefixFails(program, n + 1);
    } else {
      assert program[..n] == program;
    }
  }

  lemma {:induction false} RowsOfPrefixOf(program: seq<Line>, n: nat)
    requires n <= |program| && RowsOf(program).Some?
    ensures RowsOf(program[..n]).Some? && RowsOf(program[..n]).value <= RowsOf(program).value
    decreases |program|
  {
    if n == |program| {
      assert program[..n] == program;
    } else {
      var front := program[..|program| - 1];
      RowsOfPrefixOf(front, n);
      assert front[..n] == program[..n];
    }
  }

  lemma DuplicateRejects(rows: seq<Row>, row: Row, all: seq<Row>)
    requires Defines(rows, row.name) && rows + [row] <= all
    ensures !SingleAssignment(all)
  {
    var j :| 0 <= j < |rows| && rows[j].name == row.name;
    assert all[j] == (rows + [row])[j] && all[|rows|] == (rows + [row])[|rows|];
  }

  /** The first pass of `parse`: None where it raises. */
  method ReadRows(program: seq<Line>) returns (r: Option<seq<Row>>)
    ensures r.Some? <==> RowsOf(program).Some? && SingleAssignment(RowsOf(program).value)
    ensures r.Some? ==> r == RowsOf(program)
  {
    var rows: seq<Row> := [];
    var defined: set<string> := {};
    var i := 0;
    while i < |program|
      invariant 0 <= i <= |program|
      invariant RowsOf(program[..i]) == Some(rows)
      invariant defined == DefinedNames(rows) && SingleAssignment(rows)
    {
      var line := program[i];
      assert program[..i + 1][..i] == program[..i];
      if !line.Ignored? {
        var row := RowOf(line);
        if row.None? {
          RowsOfPrefixFails(program, i + 1);
          return None;
        }
        if row.value.name in defined {
          if RowsOf(program).Some? {
            RowsOfPrefixOf(program, i + 1);
            DuplicateRejects(rows, row.value, RowsOf(program).value);
          }
          return None;
        }
        DefinedNamesAppend(rows, row.value);
        defined := defined + {row.value.name};
        rows := rows + [row.value];
      }
      i := i + 1;
    }
    assert program[..i] == program;
    return Some(rows);
  }

  /** The second pass: no row refers to a name that is defined at or after it. */
  method RefersBackward(rows: seq<Row>) returns (ok: bool)
    ensures ok <==> NoForwardReference(rows)
  {
    var defined, available := DefinedNames(rows), {};
    var i := 0;
    while i < |rows|
      invariant 0 <= i <= |rows|
      invariant available == DefinedNames(rows[..i])
      invariant forall k, x :: 0 <= k < i && x in Names(rows[k].rhs) && Defines(rows, x) ==> Defines(rows[..k], x)
    {
      if exists x :: x in Names(rows[i].rhs) && x in defined && x !in available {
        return false;
      }
      assert rows[..i + 1] == rows[..i] + [rows[i]];
      DefinedNamesAppend(rows[..i], rows[i]);
      available := available + {rows[i].name};
      i := i + 1;
    }
    return true;
  }

  /** `parse`: accepted exactly when every line is a simple assignment, no name is assigned twice,
      `res` is assigned, and no row refers forward. */
  method Parse(program: seq<Line>) returns (r: Option<seq<Row>>)
    ensures r.Some? <==> RowsOf(program).Some? && WellFormed(RowsOf(program).value)
    ensures r.Some? ==> r == RowsOf(program)
  {
    r := ReadRows(program);
    if r.None? { return None; }
    if "res" !in DefinedNames(r.value) { return None; }
    var ok := RefersBackward(r.value);
    if !ok { return None; }
  }

  /** Operands are exactly the integers, negated integers and names. */
  lemma SimpleOperands(node: Node, n: int, x: string)
    ensures Atom(node) == Some(Lit(n)) <==> node == IntNode(n) || node == Negated(IntNode(-n))
    ensures Atom(node) == Some(Name(x)) <==> node == NameNode(x)
  {
    match node
    case Negated(IntNode(m)) => assert Atom(node) == Some(Lit(-m));
    case _ =>
  }

  /** What a line must be to be read as a row: one assignment to one name, of a simple operand or of one of
      the four operators on two of them, with no division by the literal 0. */
  lemma LineReadsAs(line: Line, name: string, op: Operator, a: Arg, b: Arg)
    ensures RowOf(line) == Some(Row(name, Copy(a))) <==>
            exists value :: line == Parsed([Assign([NameNode(name)], value)]) && Atom(value) == Some(a)
    ensures RowOf(line) == Some(Row(name, Apply(op, a, b))) <==>
            !(op == Divide && b == Lit(0)) &&
            exists left, right ::
              line == Parsed([Assign([NameNode(name)], Binary(left, Some(op), right))]) &&
              Atom(left) == Some(a) && Atom(right) == Some(b)
  {
    if RowOf(line).Some? {
      var value := line.body[0].value;
      assert line.body == [line.body[0]] && line.body[0].targets == [line.body[0].targets[0]];
      assert line == Parsed([Assign([NameNode(RowOf(line).value.name)], value)]);
      if RowOf(line).value.rhs.Apply? { assert value == Binary(value.left, value.op, value.right); }
    }
  }

  /** A program reads exactly if each of its lines does, is blank or is a comment. */
  lemma {:induction false} EachLineReads(program: seq<Line>)
    ensures RowsOf(program).Some? <==>
            forall k :: 0 <= k < |program| ==> program[k].Ignored? || RowOf(program[k]).Some?
    ensures RowsOf(program + [Ignored]) == RowsOf(program)
  {
    assert (program + [Ignored])[..|program|] == program;
    if program != [] {
      var front := program[..|program| - 1];
      EachLineReads(front);
      assert forall k :: 0 <= k < |front| ==> front[k] == program[k];
    }
  }

  /** The syntax of a row. */
  function NodeOf(a: Arg): Node {
    match a
    case Lit(n) => if n < 0 then Negated(IntNode(-n)) else IntNode(n)
    case Name(x) => NameNode(x)
  }

  function LineOf(row: Row): Line {
    Parsed([Assign([NameNode(row.name)],
                   match row.rhs
                   case Copy(a) => NodeOf(a)
                   case Apply(op, a, b) => Binary(NodeOf(a), Some(op), NodeOf(b)))])
  }

  predicate DividesByZero(row: Row) {
    row.rhs.Apply? && row.rhs.op == Divide && row.rhs.right == Lit(0)
  }

  lemma LineRoundTrip(row: Row)
    ensures RowOf(LineOf(row)) == if DividesByZero(row) then None else Some(row)
  {
  }

  /** Round trip: writing any rows as lines and reading them back gives the same rows, unless some row
      divides by the literal 0. */
  lemma {:induction false} ProgramRoundTrip(rows: seq<Row>)
    ensures RowsOf(seq(|rows|, k requires 0 <= k < |rows| => LineOf(rows[k]))) ==
            if exists k :: 0 <= k < |rows| && DividesByZero(rows[k]) then None else Some(rows)
  {
    var program := seq(|rows|, k requires 0 <= k < |rows| => LineOf(rows[k]));
    if rows == [] {
    } else {
      var front, last := rows[..|rows| - 1], rows[|rows| - 1];
      ProgramRoundTrip(front);
      LineRoundTrip(last);
      assert program[..|program| - 1] == seq(|front|, k requires 0 <= k < |front| => LineOf(front[k]));
      assert front + [last] == rows;
      if k :| 0 <= k < |front| && DividesByZero(front[k]) { assert DividesByZero(rows[k]); }
      if k :| 0 <= k < |rows| && DividesByZero(rows[k]) { assert k < |front| ==> DividesByZero(front[k]); }
    }
  }

  // ---------- What a program computes ----------

  type Inputs = string -> int

  function Abs(n: int): nat { if n < 0 then -n else n }

  /** `calculate`: division truncates toward zero, and dividing by zero raises. */
  function Calculate(op: Operator, a: int, b: int): Option<int> {
    match op
    case Plus => Some(a + b)
    case Minus => Some(a - b)
    case Times => Some(a * b)
    case Divide =>
      if b == 0 then None
      else Some((Abs(a) / Abs(b)) * (if (a < 0) != (b < 0) then -1 else 1))
  }

  /** Addition: zero on the right adds nothing, and one more on the right adds one. */
  lemma AdditionCounts(a: int, b: int)
    ensures Calculate(Plus, a, 0) == Some(a)
    ensures Calculate(Plus, a, b).Some? && Calculate(Plus, a, b + 1) == Some(Calculate(Plus, a, b).value + 1)
  {
  }

  /** Subtraction undoes addition. */
  lemma SubtractionUndoes(a: int, b: int, c: int)
    ensures Calculate(Minus, c, b) == Some(a) <==> Calculate(Plus, a, b) == Some(c)
  {
  }

  /** Multiplication: zero on the right gives zero, and one more on the right adds the left once more. */
  lemma MultiplicationAdds(a: int, b: int)
    ensures Calculate(Times, a, 0) == Some(0)
    ensures Calculate(Times, a, b).Some?
    ensures Calculate(Times, a, b + 1) == Calculate(Plus, Calculate(Times, a, b).value, a)
  {
  }

  /** Division is the truncated quotient: the remainder is smaller than the divisor and has the
      sign of the dividend, and no other quotient leaves such a remainder. */
  lemma DivisionTruncates(a: int, b: int, q: int)
    requires b != 0
    ensures Calculate(Divide, a, b) == Some(q) <==>
            Abs(a - q * b) < Abs(b) && (a >= 0 ==> a - q * b >= 0) && (a <= 0 ==> a - q * b <= 0)
  {
    var p := Calculate(Divide, a, b).value;
    TruncatedRemainder(a, b, p);
    if Abs(a - q * b) < Abs(b) && (a >= 0 ==> a - q * b >= 0) && (a <= 0 ==> a - q * b <= 0) {
      assert (q - p) * b == q * b - p * b;
      SmallMultiple(q - p, b);
    }
  }

  lemma TruncatedRemainder(a: int, b: int, p: int)
    requires b != 0 && Calculate(Divide, a, b) == Some(p)
    ensures Abs(a - p * b) < Abs(b) && (a >= 0 ==> a - p * b >= 0) && (a <= 0 ==> a - p * b <= 0)
  {
    var m: int, n: int := Abs(a), Abs(b);
    var k := m / n;
    Quotient(m, n);
    Signs(k, n);
    var s: int := if (a < 0) != (b < 0) then -1 else 1;
    assert p == k * s == if s == 1 then k else -k;
    assert p * b == if a < 0 then -(k * n) else k * n by {
      if b == n { assert p * b == p * n; } else { assert p * b == p * (-n); }
    }
  }

  lemma Quotient(m: nat, n: nat)
    requires n > 0
    ensures 0 <= m - (m / n) * n < n
  {
    assert m == n * (m / n) + m % n;
  }

  lemma Signs(k: int, n: int)
    ensures (-k) * n == -(k * n) && k * (-n) == -(k * n) && (-k) * (-n) == k * n
  {
  }

  lemma SmallMultiple(d: int, b: int)
    requires Abs(d * b) < Abs(b)
    ensures d == 0
  {
    if d != 0 { AbsMultiple(d, b); }
  }

  lemma AbsMultiple(d: int, b: int)
    requires d != 0
    ensures Abs(d * b) >= Abs(b)
  {
    Signs(d, b);
    if d > 0 { Grows(d, Abs(b)); } else { Signs(-d, Abs(b)); Grows(-d, Abs(b)); }
  }

  lemma Grows(d: nat, n: nat)
    requires d > 0
    ensures d * n >= n
  {
    assert (d - 1) * n >= 0;
  }

  function Look(a: Arg, env: map<string, int>, inputs: Inputs): int {
    match a
    case Lit(n) => n
    case Name(x) => if x in env then env[x] else inputs(x)
  }

  function Value(rhs: Rhs, env: map<string, int>, inputs: Inputs): Option<int> {
    match rhs
    case Copy(a) => Some(Look(a, env, inputs))
    case Apply(op, a, b) => Calculate(op, Look(a, env, inputs), Look(b, env, inputs))
  }

  /** All rows in order; None as soon as one of them has no value. */
  function Run(rows: seq<Row>, env: map<string, int>, inputs: Inputs): Option<map<string, int>> {
    if rows == [] then Some(env)
    else
      var v := Value(rows[0].rhs, env, inputs);
      if v.None? then None else Run(rows[1..], env[rows[0].name := v.value], inputs)
  }

  /** The value of `res`, or None when some row has no value. */
  function Meaning(rows: seq<Row>, inputs: Inputs): Option<int> {
    var env := Run(rows, map[], inputs);
    if env.Some? && "res" in env.value then Some(env.value["res"]) else None
  }
}
