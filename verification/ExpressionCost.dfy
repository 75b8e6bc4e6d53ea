/** `analyze`: dead-row elimination, constant folding, and the cost of what is left, as specified
    below the placeholder `raise` at the top of the function. */
module ExpressionCost {
  import opened Basics
  import opened Outcomes
  import opened SsaProgram

  // ---------- Dead rows ----------

  /** The names needed by a suffix of the program, `res` included. */
  function Needed(rows: seq<Row>): set<string> {
    if rows == [] then {"res"}
    else
      var later := Needed(rows[1..]);
      if rows[0].name in later then later + Names(rows[0].rhs) else later
  }

  function Live(rows: seq<Row>): seq<Row> {
    if rows == [] then []
    else if rows[0].name in Needed(rows[1..]) then [rows[0]] + Live(rows[1..])
    else Live(rows[1..])
  }

  // ---------- Constant folding ----------

  function Substitute(a: Arg, constants: map<string, int>): Arg {
    if a.Name? && a.id in constants then Lit(constants[a.id]) else a
  }

  function SubstituteAll(rhs: Rhs, constants: map<string, int>): Rhs {
    match rhs
    case Copy(a) => Copy(Substitute(a, constants))
    case Apply(op, a, b) => Apply(op, Substitute(a, constants), Substitute(b, constants))
  }

  predicate IsConstant(rhs: Rhs) {
    match rhs
    case Copy(a) => a.Lit?
    case Apply(_, a, b) => a.Lit? && b.Lit?
  }

  /** The value of a right-hand side whose arguments are all literals. */
  function ConstantValue(rhs: Rhs): Option<int>
    requires IsConstant(rhs)
  {
    match rhs
    case Copy(a) => Some(a.n)
    case Apply(op, a, b) => Calculate(op, a.n, b.n)
  }

  /** One row of the folding loop: its folded right-hand side, and the constants known after it.
      None when it raises division by zero. */
  function FoldRow(row: Row, constants: map<string, int>): Option<(Rhs, map<string, int>)> {
    var rhs := SubstituteAll(row.rhs, constants);
    if IsConstant(rhs) then
      var v := ConstantValue(rhs);
      if v.None? then None else Some((Copy(Lit(v.value)), constants[row.name := v.value]))
    else Some((rhs, constants))
  }

  function Prepended(row: Row, rest: Option<seq<Row>>): Option<seq<Row>> {
    if rest.None? then None else Some([row] + rest.value)
  }

  /** None when folding raises division by zero. */
  function Fold(rows: seq<Row>, constants: map<string, int>): Option<seq<Row>> {
    if rows == [] then Some([])
    else
      match FoldRow(rows[0], constants)
      case None => None
      case Some((rhs, constants')) => Prepended(Row(rows[0].name, rhs), Fold(rows[1..], constants'))
  }

  function Optimized(rows: seq<Row>): Option<seq<Row>> {
    Fold(Live(rows), map[])
  }

  // ---------- Optimizing is thorough ----------

  /** `res` depends on row i: it assigns `res`, or a later row that contributes reads it. */
  ghost predicate Contributes(rows: seq<Row>, i: nat)
    requires i < |rows|
    decreases |rows| - i
  {
    rows[i].name == "res" || exists j :: i < j < |rows| && Contributes(rows, j) && rows[i].name in Names(rows[j].rhs)
  }

  lemma {:induction false} NeededIffRead(rows: seq<Row>, i: nat, x: string)
    requires i <= |rows|
    ensures x in Needed(rows[i..]) <==>
            x == "res" || exists j :: i <= j < |rows| && Contributes(rows, j) && x in Names(rows[j].rhs)
    decreases |rows| - i
  {
    if i < |rows| {
      assert rows[i..][0] == rows[i] && rows[i..][1..] == rows[i + 1..];
      NeededIffRead(rows, i + 1, x);
      NeededIffRead(rows, i + 1, rows[i].name);
    }
  }

  /** Elimination keeps exactly the rows that contribute to `res`, in order. */
  lemma {:induction false} KeepsExactlyContributing(rows: seq<Row>, i: nat)
    requires i <= |rows|
    ensures Live(rows[i..]) == Contributing(rows, i)
    decreases |rows| - i
  {
    if i < |rows| {
      assert rows[i..][0] == rows[i] && rows[i..][1..] == rows[i + 1..];
      NeededIffRead(rows, i + 1, rows[i].name);
      KeepsExactlyContributing(rows, i + 1);
    }
  }

  ghost function Contributing(rows: seq<Row>, i: nat): seq<Row>
    requires i <= |rows|
    decreases |rows| - i
  {
    if i == |rows| then []
    else (if Contributes(rows, i) then [rows[i]] else []) + Contributing(rows, i + 1)
  }

  predicate IsLiteral(rhs: Rhs) {
    rhs.Copy? && rhs.arg.Lit?
  }

  /** A folded row is a literal, or still reads a name, and none of the names it reads was folded to
      a literal before it. */
  ghost predicate FullyFolded(folded: seq<Row>, constants: map<string, int>, k: nat)
    requires k < |folded|
  {
    IsLiteral(folded[k].rhs) ||
    (!IsConstant(folded[k].rhs) &&
     forall x :: x in Names(folded[k].rhs) ==>
       x !in constants && forall j :: 0 <= j < k && folded[j].name == x ==> !IsLiteral(folded[j].rhs))
  }

  lemma SubstitutedNames(rhs: Rhs, constants: map<string, int>, x: string)
    requires x in Names(SubstituteAll(rhs, constants))
    ensures x !in constants
  {
  }

  /** Folding misses nothing: after it no operation on literals is left, and no name that stands for
      a constant is read. */
  lemma {:induction false} FoldsEverything(rows: seq<Row>, constants: map<string, int>)
    requires Fold(rows, constants).Some?
    ensures forall k :: 0 <= k < |Fold(rows, constants).value| ==>
              FullyFolded(Fold(rows, constants).value, constants, k)
  {
    if rows == [] {
    } else {
      var (rhs, constants') := FoldRow(rows[0], constants).value;
      var folded, rest := Fold(rows, constants).value, Fold(rows[1..], constants').value;
      assert folded == [Row(rows[0].name, rhs)] + rest;
      FoldsEverything(rows[1..], constants');
      forall k | 0 <= k < |folded| ensures FullyFolded(folded, constants, k) {
        if k == 0 {
          forall x | x in Names(rhs) && !IsConstant(rhs) ensures x !in constants {
            SubstitutedNames(rows[0].rhs, constants, x);
          }
        } else {
          assert FullyFolded(rest, constants', k - 1) && folded[k] == rest[k - 1];
          forall j | 0 <= j < k ensures folded[j] == if j == 0 then Row(rows[0].name, rhs) else rest[j - 1] {}
        }
      }
    }
  }

  // ---------- When folding raises ----------

  /** `x = m op n; res = k / x`. */
  function DivisionBy(op: Operator, m: int, n: int, k: int): seq<Row> {
    [Row("x", Apply(op, Lit(m), Lit(n))), Row("res", Apply(Divide, Lit(k), Name("x")))]
  }

  lemma DivisionByFolds(op: Operator, m: int, n: int, k: int)
    ensures Optimized(DivisionBy(op, m, n, k)).None? <==>
            Calculate(op, m, n).None? || Calculate(op, m, n).value == 0
  {
    var rows := DivisionBy(op, m, n, k);
    var res := rows[1];
    assert rows[1..] == [res] && [res][1..] == [];
    assert Needed([res]) == {"res"} + Names(res.rhs);
    assert Name("x") in Args(res.rhs);
    assert Live([res]) == [res] + Live([]);
    assert Live(rows) == rows;
    var v := Calculate(op, m, n);
    if v.Some? {
      var known: map<string, int> := map["x" := v.value];
      assert FoldRow(rows[0], map[]) == Some((Copy(Lit(v.value)), known));
      assert SubstituteAll(res.rhs, known) == Apply(Divide, Lit(k), Lit(v.value));
      assert Fold([res], known).None? <==> v.value == 0;
    }
  }

  /** Folding raises division by zero exactly where the divisor it has computed is zero: a difference of
      equals, a sum of opposites, a product with a zero, or a quotient that is not one or that truncates
      to zero. */
  lemma FoldingRaisesOnZero(m: int, n: int, k: int)
    ensures Optimized(DivisionBy(Minus, m, n, k)).None? <==> m == n
    ensures Optimized(DivisionBy(Plus, m, n, k)).None? <==> m == -n
    ensures Optimized(DivisionBy(Times, m, n, k)).None? <==> m == 0 || n == 0
    ensures Optimized(DivisionBy(Divide, m, n, k)).None? <==> n == 0 || Abs(m) < Abs(n)
  {
    DivisionByFolds(Minus, m, n, k);
    DivisionByFolds(Plus, m, n, k);
    DivisionByFolds(Times, m, n, k);
    DivisionByFolds(Divide, m, n, k);
    ZeroProduct(m, n);
    if n != 0 { DivisionTruncates(m, n, 0); }
  }

  lemma ZeroProduct(m: int, n: int)
    ensures m * n == 0 <==> m == 0 || n == 0
  {
  }

  // ---------- Optimizing preserves meaning ----------

  /** Two environments give every name of `names` the same value. */
  ghost predicate Agree(names: set<string>, e1: map<string, int>, e2: map<string, int>, inputs: Inputs) {
    forall x :: x in names ==> Look(Name(x), e1, inputs) == Look(Name(x), e2, inputs)
  }

  lemma AgreeOnArgs(rhs: Rhs, e1: map<string, int>, e2: map<string, int>, inputs: Inputs)
    requires Agree(Names(rhs), e1, e2, inputs)
    ensures Value(rhs, e1, inputs) == Value(rhs, e2, inputs)
  {
    forall a | a in Args(rhs) ensures Look(a, e1, inputs) == Look(a, e2, inputs) {
      if a.Name? { assert a.id in Names(rhs); }
    }
    match rhs
    case Copy(a) => assert a in Args(rhs);
    case Apply(_, a, b) => assert a in Args(rhs) && b in Args(rhs);
  }

  /** A dead row may be skipped: the kept rows run from any environment that agrees on what is needed. */
  lemma {:induction false} LiveRuns(rows: seq<Row>, e1: map<string, int>, e2: map<string, int>, inputs: Inputs)
    requires Agree(Needed(rows), e1, e2, inputs) && Run(rows, e1, inputs).Some?
    ensures Run(Live(rows), e2, inputs).Some?
    ensures Agree({"res"}, Run(rows, e1, inputs).value, Run(Live(rows), e2, inputs).value, inputs)
  {
    if rows != [] {
      var row, rest := rows[0], rows[1..];
      var v := Value(row.rhs, e1, inputs).value;
      if row.name in Needed(rest) {
        AgreeOnArgs(row.rhs, e1, e2, inputs);
        LiveRuns(rest, e1[row.name := v], e2[row.name := v], inputs);
        assert Live(rows)[1..] == Live(rest);
      } else {
        LiveRuns(rest, e1[row.name := v], e2, inputs);
      }
    }
  }

  ghost predicate HoldsConstants(env: map<string, int>, constants: map<string, int>) {
    forall x :: x in constants ==> x in env && env[x] == constants[x]
  }

  lemma FoldRowRuns(row: Row, env: map<string, int>, constants: map<string, int>, inputs: Inputs)
    requires HoldsConstants(env, constants)
    ensures match FoldRow(row, constants)
            case None => Value(row.rhs, env, inputs).None?
            case Some((rhs, constants')) =>
              Value(rhs, env, inputs) == Value(row.rhs, env, inputs) &&
              (row.name !in constants && Value(row.rhs, env, inputs).Some? ==>
                 HoldsConstants(env[row.name := Value(row.rhs, env, inputs).value], constants') &&
                   constants'.Keys <= constants.Keys + {row.name})
  {
  }

  /** Folding changes no step of a run; where it raises, the run has no value. */
  lemma {:induction false} FoldRuns(rows: seq<Row>, env: map<string, int>, constants: map<string, int>, inputs: Inputs)
    requires SingleAssignment(rows) && HoldsConstants(env, constants)
    requires forall k :: 0 <= k < |rows| ==> rows[k].name !in constants
    ensures match Fold(rows, constants)
            case Some(folded) => Run(folded, env, inputs) == Run(rows, env, inputs)
            case None => Run(rows, env, inputs).None?
  {
    if rows == [] {
    } else {
      var row, rest := rows[0], rows[1..];
      FoldRowRuns(row, env, constants, inputs);
      match FoldRow(row, constants) {
        case None =>
        case Some((rhs, constants')) =>
          var v := Value(row.rhs, env, inputs);
          if v.Some? { FoldRuns(rest, env[row.name := v.value], constants', inputs); }
          var folded := Fold(rows, constants);
          if folded.Some? {
            assert folded.value[0] == Row(row.name, rhs) && folded.value[1..] == Fold(rest, constants').value;
          }
      }
    }
  }

  lemma LiveSubset(rows: seq<Row>)
    requires SingleAssignment(rows)
    ensures SingleAssignment(Live(rows)) && DefinedNames(Live(rows)) <= DefinedNames(rows)
  {
    if rows != [] {
      var row, rest := rows[0], rows[1..];
      LiveSubset(rest);
      forall x | x in DefinedNames(rest) ensures x in DefinedNames(rows) && x != row.name {
        var j :| 0 <= j < |rest| && rest[j].name == x;
        assert rows[j + 1].name == x;
      }
      if row.name in Needed(rest) {
        forall j | 0 <= j < |Live(rest)| ensures Live(rest)[j].name != row.name {
          assert Live(rest)[j].name in DefinedNames(Live(rest));
        }
        assert row.name in DefinedNames(rows) by { assert rows[0].name == row.name; }
      }
    }
  }

  /** Main result: an accepted program and its optimized form give `res` the same value on every
      assignment of inputs on which all rows evaluate, and folding raises only when no assignment
      gives the program a value. */
  lemma OptimizingPreservesMeaning(rows: seq<Row>)
    requires WellFormed(rows)
    ensures match Optimized(rows)
            case Some(optimized) =>
              forall inputs :: Meaning(rows, inputs).Some? ==> Meaning(optimized, inputs) == Meaning(rows, inputs)
            case None => forall inputs :: Meaning(rows, inputs).None?
  {
    LiveSubset(rows);
    forall inputs: Inputs | Meaning(rows, inputs).Some?
      ensures Optimized(rows).Some? && Meaning(Optimized(rows).value, inputs) == Meaning(rows, inputs)
    {
      LiveRuns(rows, map[], map[], inputs);
      FoldRuns(Live(rows), map[], map[], inputs);
      LiveDefinesRes(rows);
      RunDefines(Live(rows), map[], inputs);
    }
  }

  lemma LiveDefinesRes(rows: seq<Row>)
    requires Defines(rows, "res")
    ensures Defines(Live(rows), "res")
  {
    ResNeeded(rows[1..]);
    var j :| 0 <= j < |rows| && rows[j].name == "res";
    if j == 0 {
      assert Live(rows)[0].name == "res";
    } else {
      assert rows[1..][j - 1].name == "res";
      LiveDefinesRes(rows[1..]);
      var k :| 0 <= k < |Live(rows[1..])| && Live(rows[1..])[k].name == "res";
      if rows[0].name in Needed(rows[1..]) { assert Live(rows)[k + 1].name == "res"; }
    }
  }

  lemma ResNeeded(rows: seq<Row>)
    ensures "res" in Needed(rows)
  {
  }

  lemma RunDefines(rows: seq<Row>, env: map<string, int>, inputs: Inputs)
    requires Run(rows, env, inputs).Some?
    ensures env.Keys <= Run(rows, env, inputs).value.Keys
    ensures forall j :: 0 <= j < |rows| ==> rows[j].name in Run(rows, env, inputs).value
  {
    if rows != [] {
      var v := Value(rows[0].rhs, env, inputs).value;
      RunDefines(rows[1..], env[rows[0].name := v], inputs);
      forall j | 0 <= j < |rows| ensures rows[j].name in Run(rows, env, inputs).value {
        if j > 0 { assert rows[1..][j - 1] == rows[j]; }
      }
    }
  }

  // ---------- When optimizing gains a value ----------

  predicate DividesByZero(rhs: Rhs, env: map<string, int>, inputs: Inputs) {
    rhs.Apply? && rhs.op == Divide && Look(rhs.right, env, inputs) == 0
  }

  /** Evaluated row by row, no row that elimination removes divides by zero. */
  ghost predicate NoDeadDivisionByZero(rows: seq<Row>, env: map<string, int>, inputs: Inputs) {
    rows == [] ||
    (var row, rest := rows[0], rows[1..];
     if DividesByZero(row.rhs, env, inputs) then row.name in Needed(rest)
     else NoDeadDivisionByZero(rest, env[row.name := Value(row.rhs, env, inputs).value], inputs))
  }

  /** Where the kept rows run, all rows run exactly if no removed row divides by zero. */
  lemma {:induction false} AllRunIff(rows: seq<Row>, e1: map<string, int>, e2: map<string, int>, inputs: Inputs)
    requires Agree(Needed(rows), e1, e2, inputs) && Run(Live(rows), e2, inputs).Some?
    ensures Run(rows, e1, inputs).Some? <==> NoDeadDivisionByZero(rows, e1, inputs)
  {
    if rows == [] {
    } else {
      var row, rest := rows[0], rows[1..];
      var v := Value(row.rhs, e1, inputs);
      if row.name in Needed(rest) {
        AgreeOnArgs(row.rhs, e1, e2, inputs);
        assert Live(rows)[0] == row && Live(rows)[1..] == Live(rest);
        AllRunIff(rest, e1[row.name := v.value], e2[row.name := v.value], inputs);
      } else if v.Some? {
        AllRunIff(rest, e1[row.name := v.value], e2, inputs);
      }
    }
  }

  /** The exact condition for the converse: on any input the two meanings agree unless the optimized
      program has a value there and evaluating all rows meets a division by zero in a removed row. */
  lemma MeaningsAgreeIff(rows: seq<Row>, inputs: Inputs)
    requires WellFormed(rows) && Optimized(rows).Some?
    ensures var optimized := Optimized(rows).value;
            Meaning(rows, inputs) == Meaning(optimized, inputs) <==>
            Meaning(optimized, inputs).None? || NoDeadDivisionByZero(rows, map[], inputs)
  {
    OptimizingPreservesMeaning(rows);
    if Meaning(Optimized(rows).value, inputs).Some? {
      LiveSubset(rows);
      FoldRuns(Live(rows), map[], map[], inputs);
      AllRunIff(rows, map[], map[], inputs);
      if Run(rows, map[], inputs).Some? { RunDefines(rows, map[], inputs); }
    }
  }

  predicate SafeDivisor(rhs: Rhs) {
    rhs.Apply? && rhs.op == Divide ==> rhs.right.Lit? && rhs.right.n != 0
  }

  lemma {:induction false} SafeRowsDivide(rows: seq<Row>, env: map<string, int>, inputs: Inputs)
    requires forall i :: 0 <= i < |rows| ==> rows[i].name in Needed(rows[i + 1..]) || SafeDivisor(rows[i].rhs)
    ensures NoDeadDivisionByZero(rows, env, inputs)
  {
    if rows == [] {
    } else if !DividesByZero(rows[0].rhs, env, inputs) {
      var rest := rows[1..];
      forall i | 0 <= i < |rest| ensures rest[i].name in Needed(rest[i + 1..]) || SafeDivisor(rest[i].rhs) {
        assert rest[i] == rows[i + 1] && rest[i + 1..] == rows[i + 2..];
      }
      SafeRowsDivide(rest, env[rows[0].name := Value(rows[0].rhs, env, inputs).value], inputs);
    }
  }

  /** What can be checked beforehand: if every division among the rows that do not contribute to `res`
      is by a nonzero literal, optimizing keeps the meaning on every input, its absence included. */
  lemma SafeDivisorsAgree(rows: seq<Row>, inputs: Inputs)
    requires WellFormed(rows) && Optimized(rows).Some?
    requires forall i :: 0 <= i < |rows| ==> Contributes(rows, i) || SafeDivisor(rows[i].rhs)
    ensures Meaning(rows, inputs) == Meaning(Optimized(rows).value, inputs)
  {
    forall i | 0 <= i < |rows| ensures rows[i].name in Needed(rows[i + 1..]) || SafeDivisor(rows[i].rhs) {
      NeededIffRead(rows, i + 1, rows[i].name);
    }
    SafeRowsDivide(rows, map[], inputs);
    MeaningsAgreeIff(rows, inputs);
  }

  /** `z = 0; dead = 1 / z; res = 7`. */
  function DeadDivision(): seq<Row> {
    [Row("z", Copy(Lit(0))), Row("dead", Apply(Divide, Lit(1), Name("z"))), Row("res", Copy(Lit(7)))]
  }

  lemma DeadDivisionIsWellFormed()
    ensures WellFormed(DeadDivision())
  {
    var rows := DeadDivision();
    assert rows[2].name == "res" && rows[..1][0].name == "z";
  }

  lemma DeadDivisionHasNoValue(inputs: Inputs)
    ensures Meaning(DeadDivision(), inputs).None?
  {
    var rows := DeadDivision();
    assert Run(rows, map[], inputs) == Run(rows[1..], map["z" := 0], inputs);
  }

  lemma DeadDivisionIsRemoved()
    ensures Live(DeadDivision()) == [Row("res", Copy(Lit(7)))]
  {
    var z, dead, res := DeadDivision()[0], DeadDivision()[1], DeadDivision()[2];
    var rows := [z, dead, res];
    assert rows[1..] == [dead, res] && rows[1..][1..] == [res] && [res][1..] == [];
    assert Needed([res]) == {"res"} && Needed([dead, res]) == {"res"};
    assert Live([res]) == [res] + Live([]);
    assert Live([dead, res]) == Live([res]);
  }

  /** The condition can fail: removing a dead division gives a value where there was none. */
  lemma DeadDivisionGainsValue(inputs: Inputs)
    ensures var rows := DeadDivision();
            WellFormed(rows) && Meaning(rows, inputs).None? &&
            Optimized(rows).Some? && Meaning(Optimized(rows).value, inputs) == Some(7)
  {
    var res := Row("res", Copy(Lit(7)));
    DeadDivisionIsWellFormed();
    DeadDivisionHasNoValue(inputs);
    DeadDivisionIsRemoved();
    assert Fold([res], map[]) == Some([res] + []);
    assert Run([res], map[], inputs) == Run([], map["res" := 7], inputs);
  }

  // ---------- Cost ----------

  /** What one row does to storage: the root it allocates, if any, and the roots it reads. */
  datatype Cell = Cell(def: Option<string>, uses: set<string>)

  /** For each defined name, the storage root it stands for, or None when it needs no storage. */
  type Locations = map<string, Option<string>>

  function RootOf(a: Arg, locations: Locations): Option<string> {
    if a.Name? && a.id in locations then locations[a.id] else None
  }

  function AsSet(root: Option<string>): set<string> {
    if root.Some? then {root.value} else {}
  }

  function RootsRead(rhs: Rhs, locations: Locations): set<string> {
    match rhs
    case Copy(a) => AsSet(RootOf(a, locations))
    case Apply(_, a, b) => AsSet(RootOf(a, locations)) + AsSet(RootOf(b, locations))
  }

  function RowRoot(row: Row, locations: Locations): Option<string> {
    match row.rhs
    case Copy(a) => RootOf(a, locations)
    case Apply(_, _, _) => Some(row.name)
  }

  function CellOf(row: Row, locations: Locations): Cell {
    Cell(if row.rhs.Apply? then Some(row.name) else None, RootsRead(row.rhs, locations))
  }

  function Plan(rows: seq<Row>, locations: Locations): seq<Cell> {
    if rows == [] then []
    else [CellOf(rows[0], locations)] + Plan(rows[1..], locations[rows[0].name := RowRoot(rows[0], locations)])
  }

  function FinalLocations(rows: seq<Row>, locations: Locations): Locations {
    if rows == [] then locations
    else FinalLocations(rows[1..], locations[rows[0].name := RowRoot(rows[0], locations)])
  }

  type Costs = map<string, int>

  function Symbol(op: Operator): string {
    match op
    case Plus => "+"
    case Minus => "-"
    case Times => "*"
    case Divide => "/"
  }

  const SYMBOLS: set<string> := {"+", "-", "*", "/"}

  /** `validate_costs`. */
  predicate ValidCosts(costs: Costs) {
    costs.Keys == SYMBOLS && forall s :: s in costs ==> costs[s] >= 0
  }

  function Time(rows: seq<Row>, costs: Costs): int
    requires ValidCosts(costs)
  {
    if rows == [] then 0
    else (if rows[0].rhs.Apply? then costs[Symbol(rows[0].rhs.op)] else 0) + Time(rows[1..], costs)
  }

  /** How many rows apply the operator. */
  function Applied(rows: seq<Row>, op: Operator): nat {
    if rows == [] then 0
    else Applied(rows[1..], op) + if rows[0].rhs.Apply? && rows[0].rhs.op == op then 1 else 0
  }

  /** The time is what the applied operators cost, each by its own symbol. */
  lemma {:induction false} TimeByOperator(rows: seq<Row>, costs: Costs)
    requires ValidCosts(costs)
    ensures Time(rows, costs) ==
            costs["+"] * Applied(rows, Plus) + costs["-"] * Applied(rows, Minus) +
            costs["*"] * Applied(rows, Times) + costs["/"] * Applied(rows, Divide)
  {
    if rows == [] {
    } else {
      TimeByOperator(rows[1..], costs);
      AppliedCost(rows, Plus, costs["+"]);
      AppliedCost(rows, Minus, costs["-"]);
      AppliedCost(rows, Times, costs["*"]);
      AppliedCost(rows, Divide, costs["/"]);
    }
  }

  lemma AppliedCost(rows: seq<Row>, op: Operator, cost: int)
    requires rows != []
    ensures cost * Applied(rows, op) ==
            cost * Applied(rows[1..], op) + if rows[0].rhs.Apply? && rows[0].rhs.op == op then cost else 0
  {
  }

  /** Declarative liveness at row i, after its result is allocated and before last-used operands
      are freed: the roots allocated so far that are the output, are read at row i or later, or are
      allocated at i. */
  function LiveAt(plan: seq<Cell>, output: Option<string>, i: nat): set<string>
    requires i < |plan|
  {
    set r | r in Allocated(plan[..i + 1]) &&
            (output == Some(r) || plan[i].def == Some(r) || exists k :: i <= k < |plan| && r in plan[k].uses)
  }

  function Allocated(plan: seq<Cell>): (roots: set<string>)
    ensures forall r :: r in roots <==> exists j :: 0 <= j < |plan| && plan[j].def == Some(r)
  {
    set j | 0 <= j < |plan| && plan[j].def.Some? :: plan[j].def.value
  }

  /** `peak` is the largest live set of the first n rows, and 0 if there are none. */
  ghost predicate PeakOfFirst(plan: seq<Cell>, output: Option<string>, n: nat, peak: nat)
    requires n <= |plan|
  {
    && (forall i :: 0 <= i < n ==> |LiveAt(plan, output, i)| <= peak)
    && (peak == 0 || exists i :: 0 <= i < n && |LiveAt(plan, output, i)| == peak)
  }

  ghost predicate IsPeak(plan: seq<Cell>, output: Option<string>, peak: nat) {
    PeakOfFirst(plan, output, |plan|, peak)
  }

  /** The two numbers `analyze` reports for the rows it costs. */
  ghost predicate IsCost(rows: seq<Row>, costs: Costs, time: int, peak: int)
    requires ValidCosts(costs) && Defines(rows, "res")
  {
    ResLocated(rows, map[]);
    && time == Time(rows, costs)
    && peak >= 0
    && IsPeak(Plan(rows, map[]), FinalLocations(rows, map[])["res"], peak)
  }

  lemma ResLocated(rows: seq<Row>, locations: Locations)
    ensures FinalLocations(rows, locations).Keys == locations.Keys + DefinedNames(rows)
  {
    if rows != [] {
      var rest := rows[1..];
      ResLocated(rest, locations[rows[0].name := RowRoot(rows[0], locations)]);
      assert DefinedNames(rows) == {rows[0].name} + DefinedNames(rest) by {
        assert rows[0].name in DefinedNames(rows);
        forall x | x in DefinedNames(rest) ensures x in DefinedNames(rows) {
          var j :| 0 <= j < |rest| && rest[j].name == x;
          assert rows[j + 1].name == x;
        }
        forall x | x in DefinedNames(rows) && x != rows[0].name ensures x in DefinedNames(rest) {
          var j :| 0 <= j < |rows| && rows[j].name == x;
          assert rest[j - 1].name == x;
        }
      }
    }
  }

  // ---------- Liveness in the program's own terms ----------

  /** Name x, as seen after `rows`, shares the storage of the arithmetic row named r: following
      copies back from x ends there. */
  ghost predicate StandsFor(rows: seq<Row>, x: string, r: string) {
    rows != [] &&
    var front, last := rows[..|rows| - 1], rows[|rows| - 1];
    if last.name != x then StandsFor(front, x, r)
    else match last.rhs
         case Apply(_, _, _) => r == x
         case Copy(Name(y)) => StandsFor(front, y, r)
         case Copy(Lit(_)) => false
  }

  lemma {:induction false} FinalLocationsAppend(rows: seq<Row>, row: Row, locations: Locations)
    ensures FinalLocations(rows + [row], locations) ==
            var l := FinalLocations(rows, locations); l[row.name := RowRoot(row, l)]
  {
    if rows == [] {
    } else {
      var all := rows + [row];
      assert all[0] == rows[0] && all[1..] == rows[1..] + [row];
      FinalLocationsAppend(rows[1..], row, locations[rows[0].name := RowRoot(rows[0], locations)]);
    }
  }

  lemma {:induction false} LocatedIffStandsFor(rows: seq<Row>, x: string, r: string)
    ensures RootOf(Name(x), FinalLocations(rows, map[])) == Some(r) <==> StandsFor(rows, x, r)
  {
    if rows == [] {
    } else {
      var front, last := rows[..|rows| - 1], rows[|rows| - 1];
      assert front + [last] == rows;
      FinalLocationsAppend(front, last, map[]);
      LocatedIffStandsFor(front, x, r);
      if last.rhs.Copy? && last.rhs.arg.Name? { LocatedIffStandsFor(front, last.rhs.arg.id, r); }
    }
  }

  lemma {:induction false} PlanAt(rows: seq<Row>, locations: Locations, i: nat)
    requires i < |rows|
    ensures |Plan(rows, locations)| == |rows|
    ensures Plan(rows, locations)[i] == CellOf(rows[i], FinalLocations(rows[..i], locations))
  {
    PlanLength(rows, locations);
    if i == 0 {
    } else {
      PlanAt(rows[1..], locations[rows[0].name := RowRoot(rows[0], locations)], i - 1);
      assert rows[..i][1..] == rows[1..][..i - 1];
    }
  }

  lemma ReadsRoot(rows: seq<Row>, k: nat, r: string)
    requires k < |rows|
    ensures |Plan(rows, map[])| == |rows|
    ensures r in Plan(rows, map[])[k].uses <==> exists x :: x in Names(rows[k].rhs) && StandsFor(rows[..k], x, r)
  {
    PlanAt(rows, map[], k);
    forall x ensures RootOf(Name(x), FinalLocations(rows[..k], map[])) == Some(r) <==> StandsFor(rows[..k], x, r) {
      LocatedIffStandsFor(rows[..k], x, r);
    }
    var l := FinalLocations(rows[..k], map[]);
    if r in Plan(rows, map[])[k].uses {
      var a :| a in Args(rows[k].rhs) && a.Name? && RootOf(a, l) == Some(r);
      assert a.id in Names(rows[k].rhs);
    }
    if x :| x in Names(rows[k].rhs) && StandsFor(rows[..k], x, r) {
      assert Name(x) in Args(rows[k].rhs) && RootOf(Name(x), l) == Some(r);
    }
  }

  ghost predicate Computed(rows: seq<Row>, j: nat, r: string)
    requires j < |rows|
  {
    rows[j].name == r && rows[j].rhs.Apply?
  }

  /** Row k reads the storage r, through r itself or through an alias of it. */
  ghost predicate Reads(rows: seq<Row>, k: nat, r: string)
    requires k < |rows|
  {
    exists x :: x in Names(rows[k].rhs) && StandsFor(rows[..k], x, r)
  }

  lemma ComputedIffAllocated(rows: seq<Row>, i: nat, r: string)
    requires i < |rows| == |Plan(rows, map[])|
    ensures Plan(rows, map[])[i].def == Some(r) <==> Computed(rows, i, r)
    ensures r in Allocated(Plan(rows, map[])[..i + 1]) <==> exists j :: 0 <= j <= i && Computed(rows, j, r)
  {
    var plan := Plan(rows, map[]);
    forall j | 0 <= j <= i ensures plan[..i + 1][j].def == Some(r) <==> Computed(rows, j, r) {
      PlanAt(rows, map[], j);
    }
    if j :| 0 <= j <= i && Computed(rows, j, r) {
      assert plan[..i + 1][j].def == Some(r);
    }
    if r in Allocated(plan[..i + 1]) {
      var j :| 0 <= j < i + 1 && plan[..i + 1][j].def == Some(r);
      assert Computed(rows, j, r);
    }
  }

  /** The incremental live set at row i holds exactly the results computed by row i that are the
      output's storage, are read through some alias at row i or later, or are computed at i. */
  lemma LivenessIsDeclarative(rows: seq<Row>, i: nat, r: string)
    requires WellFormed(rows) && i < |rows|
    ensures |Plan(rows, map[])| == |rows| && "res" in FinalLocations(rows, map[])
    ensures r in LiveAt(Plan(rows, map[]), FinalLocations(rows, map[])["res"], i) <==>
            && (exists j :: 0 <= j <= i && Computed(rows, j, r))
            && (StandsFor(rows, "res", r) || Computed(rows, i, r) || exists k :: i <= k < |rows| && Reads(rows, k, r))
  {
    PlanLength(rows, map[]);
    ResLocated(rows, map[]);
    LocatedIffStandsFor(rows, "res", r);
    ComputedIffAllocated(rows, i, r);
    forall k | 0 <= k < |rows| ensures r in Plan(rows, map[])[k].uses <==> Reads(rows, k, r) {
      ReadsRoot(rows, k, r);
    }
  }

  // ---------- Optimizing never costs more ----------

  ghost predicate Increasing(m: seq<nat>, bound: nat) {
    (forall i, j :: 0 <= i < j < |m| ==> m[i] < m[j]) && (forall i :: 0 <= i < |m| ==> m[i] < bound)
  }

  /** `m` maps the cells of `small` in order into `big`, and every cell allocates and reads no more
      than its image. */
  ghost predicate Embeds(small: seq<Cell>, big: seq<Cell>, m: seq<nat>) {
    && |m| == |small|
    && Increasing(m, |big|)
    && (forall i :: 0 <= i < |small| ==>
          (small[i].def.Some? ==> small[i].def == big[m[i]].def) && small[i].uses <= big[m[i]].uses)
  }

  ghost predicate OutputKept(small: Option<string>, big: Option<string>) {
    small.Some? ==> small == big
  }

  lemma EmbeddedLiveSets(small: seq<Cell>, big: seq<Cell>, m: seq<nat>, out: Option<string>, out': Option<string>,
                         i: nat)
    requires Embeds(small, big, m) && OutputKept(out, out') && i < |small|
    ensures LiveAt(small, out, i) <= LiveAt(big, out', m[i])
  {
    forall r | r in LiveAt(small, out, i) ensures r in LiveAt(big, out', m[i]) {
      var j :| 0 <= j < i + 1 && small[..i + 1][j].def == Some(r);
      assert m[j] <= m[i] && big[..m[i] + 1][m[j]].def == Some(r);
      if k :| i <= k < |small| && r in small[k].uses {
        assert m[i] <= m[k] && r in big[m[k]].uses;
      }
    }
  }

  lemma EmbeddedPeak(small: seq<Cell>, big: seq<Cell>, m: seq<nat>, out: Option<string>, out': Option<string>,
                     peak: nat, peak': nat)
    requires Embeds(small, big, m) && OutputKept(out, out')
    requires IsPeak(small, out, peak) && IsPeak(big, out', peak')
    ensures peak <= peak'
  {
    if peak != 0 {
      var i :| 0 <= i < |small| && |LiveAt(small, out, i)| == peak;
      EmbeddedLiveSets(small, big, m, out, out', i);
      SubsetSize(LiveAt(small, out, i), LiveAt(big, out', m[i]));
    }
  }

  function Shift(m: seq<nat>): (s: seq<nat>)
    ensures |s| == |m| && forall i :: 0 <= i < |m| ==> s[i] == m[i] + 1
  {
    seq(|m|, i requires 0 <= i < |m| => m[i] + 1)
  }

  /** Where each kept row stood before dead rows were removed. */
  function Positions(rows: seq<Row>): seq<nat> {
    if rows == [] then []
    else if rows[0].name in Needed(rows[1..]) then [0] + Shift(Positions(rows[1..]))
    else Shift(Positions(rows[1..]))
  }

  lemma EmbedsCons(c: Cell, d: Cell, small: seq<Cell>, big: seq<Cell>, m: seq<nat>)
    requires Embeds(small, big, m)
    requires (c.def.Some? ==> c.def == d.def) && c.uses <= d.uses
    ensures Embeds([c] + small, [d] + big, [0] + Shift(m))
    ensures Embeds(small, [d] + big, Shift(m))
  {
  }

  /** The kept rows see, for every name, either nothing or what the full program sees, and they see
      everything that the rows still to come need. */
  ghost predicate SameView(kept: Locations, full: Locations, needed: set<string>) {
    && (forall x :: x in kept ==> x in full && kept[x] == full[x])
    && (forall x :: x in needed && x in full ==> x in kept)
  }

  lemma {:induction false} LiveEmbeds(rows: seq<Row>, kept: Locations, full: Locations)
    requires SameView(kept, full, Needed(rows)) && SingleAssignment(rows)
    requires forall k :: 0 <= k < |rows| ==> rows[k].name !in full
    ensures Embeds(Plan(Live(rows), kept), Plan(rows, full), Positions(rows))
    ensures SameView(FinalLocations(Live(rows), kept), FinalLocations(rows, full), {"res"})
  {
    if rows == [] {
    } else {
      var row, rest := rows[0], rows[1..];
      var full' := full[row.name := RowRoot(row, full)];
      if row.name in Needed(rest) {
        forall a | a in Args(row.rhs) ensures RootOf(a, kept) == RootOf(a, full) {
          if a.Name? { assert a.id in Names(row.rhs); }
        }
        SameCell(row, kept, full);
        var kept' := kept[row.name := RowRoot(row, kept)];
        LiveEmbeds(rest, kept', full');
        assert Live(rows)[1..] == Live(rest);
        EmbedsCons(CellOf(row, kept), CellOf(row, full), Plan(Live(rest), kept'), Plan(rest, full'), Positions(rest));
      } else {
        LiveEmbeds(rest, kept, full');
        EmbedsCons(CellOf(row, full), CellOf(row, full), Plan(Live(rest), kept), Plan(rest, full'), Positions(rest));
      }
    }
  }

  lemma SameCell(row: Row, kept: Locations, full: Locations)
    requires forall a :: a in Args(row.rhs) ==> RootOf(a, kept) == RootOf(a, full)
    ensures CellOf(row, kept) == CellOf(row, full) && RowRoot(row, kept) == RowRoot(row, full)
  {
    match row.rhs
    case Copy(a) => assert a in Args(row.rhs);
    case Apply(_, a, b) => assert a in Args(row.rhs) && b in Args(row.rhs);
  }

  /** After folding, a name stands for the same root as before or for no storage at all. */
  ghost predicate NoMoreRoots(folded: Locations, full: Locations) {
    folded.Keys == full.Keys && forall x :: x in folded ==> OutputKept(folded[x], full[x])
  }

  /** The first folded row, and the constants known after it. */
  lemma FoldHead(rows: seq<Row>, constants: map<string, int>) returns (row': Row, constants': map<string, int>)
    requires rows != [] && Fold(rows, constants).Some?
    ensures Fold(rows[1..], constants').Some? &&
            Fold(rows, constants).value == [row'] + Fold(rows[1..], constants').value
    ensures row'.name == rows[0].name
    ensures row'.rhs == SubstituteAll(rows[0].rhs, constants) || (row'.rhs.Copy? && row'.rhs.arg.Lit?)
  {
    var (rhs, after) := FoldRow(rows[0], constants).value;
    row', constants' := Row(rows[0].name, rhs), after;
  }

  lemma FoldedCell(row: Row, row': Row, constants: map<string, int>, folded: Locations, full: Locations)
    requires NoMoreRoots(folded, full) && row'.name == row.name
    requires row'.rhs == SubstituteAll(row.rhs, constants) || (row'.rhs.Copy? && row'.rhs.arg.Lit?)
    ensures OutputKept(CellOf(row', folded).def, CellOf(row, full).def) &&
            CellOf(row', folded).uses <= CellOf(row, full).uses
    ensures OutputKept(RowRoot(row', folded), RowRoot(row, full))
  {
  }

  lemma {:induction false} FoldEmbeds(rows: seq<Row>, constants: map<string, int>, folded: Locations, full: Locations)
    requires NoMoreRoots(folded, full) && Fold(rows, constants).Some?
    ensures Embeds(Plan(Fold(rows, constants).value, folded), Plan(rows, full), Indices(|rows|))
    ensures NoMoreRoots(FinalLocations(Fold(rows, constants).value, folded), FinalLocations(rows, full))
  {
    if rows == [] {
    } else {
      var row, rest := rows[0], rows[1..];
      var row', constants' := FoldHead(rows, constants);
      FoldedCell(row, row', constants, folded, full);
      var folded', full' := folded[row.name := RowRoot(row', folded)], full[row.name := RowRoot(row, full)];
      FoldEmbeds(rest, constants', folded', full');
      var rest' := Fold(rest, constants').value;
      assert Fold(rows, constants).value[0] == row' && Fold(rows, constants).value[1..] == rest';
      EmbedsCons(CellOf(row', folded), CellOf(row, full), Plan(rest', folded'), Plan(rest, full'), Indices(|rest|));
      assert Indices(|rows|) == [0] + Shift(Indices(|rest|));
    }
  }

  function Indices(n: nat): seq<nat> {
    seq(n, i => i)
  }

  lemma {:induction false} LiveTime(rows: seq<Row>, costs: Costs)
    requires ValidCosts(costs)
    ensures Time(Live(rows), costs) <= Time(rows, costs)
  {
    if rows == [] {
    } else {
      LiveTime(rows[1..], costs);
      if rows[0].name in Needed(rows[1..]) { assert Live(rows)[1..] == Live(rows[1..]); }
      if rows[0].rhs.Apply? { assert Symbol(rows[0].rhs.op) in costs; }
    }
  }

  lemma {:induction false} FoldTime(rows: seq<Row>, constants: map<string, int>, costs: Costs)
    requires ValidCosts(costs) && Fold(rows, constants).Some?
    ensures Time(Fold(rows, constants).value, costs) <= Time(rows, costs)
  {
    if rows == [] {
    } else {
      var row', constants' := FoldHead(rows, constants);
      assert Fold(rows, constants).value[0] == row' &&
             Fold(rows, constants).value[1..] == Fold(rows[1..], constants').value;
      FoldTime(rows[1..], constants', costs);
      if rows[0].rhs.Apply? { assert Symbol(rows[0].rhs.op) in costs; }
    }
  }

  lemma FoldDefines(rows: seq<Row>, constants: map<string, int>)
    requires Fold(rows, constants).Some?
    ensures |Fold(rows, constants).value| == |rows|
    ensures forall k :: 0 <= k < |rows| ==> Fold(rows, constants).value[k].name == rows[k].name
  {
  }

  lemma OptimizedDefinesRes(rows: seq<Row>)
    requires WellFormed(rows) && Optimized(rows).Some?
    ensures Defines(Optimized(rows).value, "res")
  {
    LiveDefinesRes(rows);
    FoldDefines(Live(rows), map[]);
    var k :| 0 <= k < |Live(rows)| && Live(rows)[k].name == "res";
    assert Optimized(rows).value[k].name == "res";
  }

  /** Main result: whenever folding does not raise, neither reported number grows. */
  lemma OptimizingNeverCostsMore(rows: seq<Row>, costs: Costs, time: int, peak: int, time': int, peak': int)
    requires WellFormed(rows) && ValidCosts(costs) && Optimized(rows).Some?
    requires IsCost(rows, costs, time, peak)
    requires Defines(Optimized(rows).value, "res") && IsCost(Optimized(rows).value, costs, time', peak')
    ensures time' <= time && peak' <= peak
  {
    LiveTime(rows, costs);
    FoldTime(Live(rows), map[], costs);
    var m := OptimizedEmbeds(rows);
    ResLocated(rows, map[]);
    ResLocated(Optimized(rows).value, map[]);
    EmbeddedPeak(Plan(Optimized(rows).value, map[]), Plan(rows, map[]), m,
                 FinalLocations(Optimized(rows).value, map[])["res"], FinalLocations(rows, map[])["res"], peak', peak);
  }

  /** The order-preserving map behind it: each optimized row allocates and reads no more than the
      row it came from, and the output is the same root or none. */
  lemma OptimizedEmbeds(rows: seq<Row>) returns (m: seq<nat>)
    requires WellFormed(rows) && Optimized(rows).Some?
    ensures Embeds(Plan(Optimized(rows).value, map[]), Plan(rows, map[]), m)
    ensures var full, small := FinalLocations(rows, map[]), FinalLocations(Optimized(rows).value, map[]);
            "res" in full && "res" in small && OutputKept(small["res"], full["res"])
  {
    m := Positions(rows);
    LiveEmbeds(rows, map[], map[]);
    FoldEmbeds(Live(rows), map[], map[], map[]);
    LiveDefinesRes(rows);
    ResLocated(rows, map[]);
    ResLocated(Live(rows), map[]);
    FoldDefines(Live(rows), map[]);
    PlanLength(Live(rows), map[]);
    PlanLength(Optimized(rows).value, map[]);
    EmbedsThrough(Plan(Optimized(rows).value, map[]), Plan(Live(rows), map[]), Plan(rows, map[]), m);
  }

  lemma EmbedsThrough(small: seq<Cell>, mid: seq<Cell>, big: seq<Cell>, m: seq<nat>)
    requires Embeds(small, mid, Indices(|small|)) && Embeds(mid, big, m) && |small| == |mid|
    ensures Embeds(small, big, m)
  {
    forall i | 0 <= i < |small|
      ensures (small[i].def.Some? ==> small[i].def == big[m[i]].def) && small[i].uses <= big[m[i]].uses
    {
      assert Indices(|small|)[i] == i;
    }
  }

  lemma PlanLength(rows: seq<Row>, locations: Locations)
    ensures |Plan(rows, locations)| == |rows|
  {
  }

  // ---------- The method ----------

  /** The reversed pass that keeps the rows `res` depends on. */
  method EliminateDead(rows: seq<Row>) returns (kept: seq<Row>)
    ensures kept == Live(rows)
  {
    var needed := {"res"};
    kept := [];
    var i := |rows|;
    while i > 0
      invariant 0 <= i <= |rows|
      invariant needed == Needed(rows[i..]) && kept == Live(rows[i..])
    {
      i := i - 1;
      assert rows[i..][1..] == rows[i + 1..] && rows[i..][0] == rows[i];
      if rows[i].name in needed {
        needed := needed + Names(rows[i].rhs);
        kept := [rows[i]] + kept;
      }
    }
  }

  function Appended(folded: seq<Row>, rest: Option<seq<Row>>): Option<seq<Row>> {
    if rest.None? then None else Some(folded + rest.value)
  }

  lemma AppendedPrepended(folded: seq<Row>, row: Row, rest: Option<seq<Row>>)
    ensures Appended(folded, Prepended(row, rest)) == Appended(folded + [row], rest)
  {
    if rest.Some? { assert folded + ([row] + rest.value) == (folded + [row]) + rest.value; }
  }

  /** The state of the folding loop after i rows. */
  ghost predicate FoldedTo(rows: seq<Row>, i: nat, constants: map<string, int>, folded: seq<Row>)
    requires i <= |rows|
  {
    Fold(rows, map[]) == Appended(folded, Fold(rows[i..], constants))
  }

  lemma FoldStart(rows: seq<Row>)
    ensures FoldedTo(rows, 0, map[], [])
  {
    assert rows[0..] == rows;
    if Fold(rows, map[]).Some? { assert [] + Fold(rows, map[]).value == Fold(rows, map[]).value; }
  }

  lemma FoldUnfolds(rows: seq<Row>, i: nat, constants: map<string, int>)
    requires i < |rows|
    ensures Fold(rows[i..], constants) ==
            match FoldRow(rows[i], constants)
            case None => None
            case Some((rhs, constants')) => Prepended(Row(rows[i].name, rhs), Fold(rows[i + 1..], constants'))
  {
    assert rows[i..][0] == rows[i] && rows[i..][1..] == rows[i + 1..];
  }

  lemma FoldStep(rows: seq<Row>, i: nat, constants: map<string, int>, folded: seq<Row>)
    requires i < |rows| && FoldedTo(rows, i, constants, folded)
    ensures match FoldRow(rows[i], constants)
            case None => Fold(rows, map[]).None?
            case Some((rhs, constants')) => FoldedTo(rows, i + 1, constants', folded + [Row(rows[i].name, rhs)])
  {
    FoldUnfolds(rows, i, constants);
    match FoldRow(rows[i], constants)
    case None =>
    case Some((rhs, constants')) => AppendedPrepended(folded, Row(rows[i].name, rhs), Fold(rows[i + 1..], constants'));
  }

  method FoldConstants(rows: seq<Row>) returns (r: Option<seq<Row>>)
    ensures r == Fold(rows, map[])
  {
    var constants: map<string, int> := map[];
    var folded: seq<Row> := [];
    FoldStart(rows);
    for i := 0 to |rows|
      invariant FoldedTo(rows, i, constants, folded)
    {
      FoldStep(rows, i, constants, folded);
      var rhs := SubstituteAll(rows[i].rhs, constants);
      if IsConstant(rhs) {
        var v := ConstantValue(rhs);
        if v.None? { return None; }
        constants := constants[rows[i].name := v.value];
        rhs := Copy(Lit(v.value));
      }
      folded := folded + [Row(rows[i].name, rhs)];
    }
    assert folded + [] == folded;
    return Some(folded);
  }

  /** `uses[r]` is the last row that reads root r. */
  ghost predicate LastUses(plan: seq<Cell>, uses: map<string, nat>) {
    && (forall r :: r in uses ==> uses[r] < |plan| && r in plan[uses[r]].uses)
    && (forall r, k :: 0 <= k < |plan| && r in plan[k].uses ==> r in uses && k <= uses[r])
  }

  lemma LastUsesAppend(plan: seq<Cell>, uses: map<string, nat>, cell: Cell, uses': map<string, nat>)
    requires LastUses(plan, uses)
    requires uses'.Keys == uses.Keys + cell.uses
    requires forall r :: r in uses' ==> uses'[r] == if r in cell.uses then |plan| else uses[r]
    ensures LastUses(plan + [cell], uses')
  {
    var plan' := plan + [cell];
    forall r, k | 0 <= k < |plan'| && r in plan'[k].uses ensures r in uses' && k <= uses'[r] {
      if k < |plan| { assert r in plan[k].uses; }
    }
  }

  ghost predicate DefsOf(plan: seq<Cell>, defs: seq<Option<string>>) {
    |defs| == |plan| && forall i :: 0 <= i < |defs| ==> defs[i] == plan[i].def
  }

  /** The state of the first loop after `index` rows. */
  ghost predicate Planned(rows: seq<Row>, costs: Costs, index: nat, plan: seq<Cell>, locations: Locations, time: int)
    requires ValidCosts(costs) && index <= |rows|
  {
    && |plan| == index
    && Plan(rows, map[]) == plan + Plan(rows[index..], locations)
    && FinalLocations(rows, map[]) == FinalLocations(rows[index..], locations)
    && Time(rows, costs) == time + Time(rows[index..], costs)
  }

  lemma PlannedStep(rows: seq<Row>, costs: Costs, index: nat, plan: seq<Cell>, locations: Locations, time: int)
    requires ValidCosts(costs) && index < |rows| && Planned(rows, costs, index, plan, locations, time)
    ensures rows[index].rhs.Apply? ==> Symbol(rows[index].rhs.op) in costs
    ensures var row := rows[index];
            Planned(rows, costs, index + 1, plan + [CellOf(row, locations)],
                    locations[row.name := RowRoot(row, locations)],
                    time + if row.rhs.Apply? then costs[Symbol(row.rhs.op)] else 0)
  {
    var suffix, row := rows[index..], rows[index];
    assert suffix[0] == row && suffix[1..] == rows[index + 1..];
    var rest := Plan(rows[index + 1..], locations[row.name := RowRoot(row, locations)]);
    assert plan + ([CellOf(row, locations)] + rest) == (plan + [CellOf(row, locations)]) + rest;
  }

  /** The first loop: locate every name, remember last uses, and add up the operator costs. */
  method PlanStorage(rows: seq<Row>, costs: Costs)
    returns (locations: Locations, uses: map<string, nat>, defs: seq<Option<string>>, time: int)
    requires ValidCosts(costs)
    ensures locations == FinalLocations(rows, map[]) && time == Time(rows, costs)
    ensures LastUses(Plan(rows, map[]), uses) && DefsOf(Plan(rows, map[]), defs)
  {
    locations, uses, defs, time := map[], map[], [], 0;
    ghost var plan: seq<Cell> := [];
    var index := 0;
    assert rows[0..] == rows && [] + Plan(rows, map[]) == Plan(rows, map[]);
    while index < |rows|
      invariant 0 <= index <= |rows|
      invariant Planned(rows, costs, index, plan, locations, time)
      invariant LastUses(plan, uses) && DefsOf(plan, defs)
    {
      var row := rows[index];
      PlannedStep(rows, costs, index, plan, locations, time);
      var read := RootsRead(row.rhs, locations);
      var uses' := uses + (map r | r in read :: index);
      LastUsesAppend(plan, uses, CellOf(row, locations), uses');
      uses := uses';
      defs := defs + [if row.rhs.Apply? then Some(row.name) else None];
      plan := plan + [CellOf(row, locations)];
      time := time + if row.rhs.Apply? then costs[Symbol(row.rhs.op)] else 0;
      locations := locations[row.name := RowRoot(row, locations)];
      index := index + 1;
    }
    assert plan + [] == plan;
  }

  lemma AllocatedAppend(plan: seq<Cell>, i: nat)
    requires i < |plan|
    ensures Allocated(plan[..i + 1]) == Allocated(plan[..i]) + AsSet(plan[i].def)
  {
    forall r ensures r in Allocated(plan[..i + 1]) <==> r in Allocated(plan[..i]) + AsSet(plan[i].def) {
      if r in Allocated(plan[..i + 1]) {
        var j :| 0 <= j < i + 1 && plan[..i + 1][j].def == Some(r);
        assert j < i ==> plan[..i][j].def == Some(r);
      }
      if r in Allocated(plan[..i]) {
        var j :| 0 <= j < i && plan[..i][j].def == Some(r);
        assert plan[..i + 1][j].def == Some(r);
      }
      if plan[i].def == Some(r) { assert plan[..i + 1][i].def == Some(r); }
    }
  }

  /** What survives row i in the incremental simulation. */
  ghost function Surviving(plan: seq<Cell>, output: Option<string>, i: nat): set<string>
    requires i <= |plan|
  {
    set r | r in Allocated(plan[..i]) && (output == Some(r) || exists k :: i <= k < |plan| && r in plan[k].uses)
  }

  lemma LiveStep(plan: seq<Cell>, output: Option<string>, i: nat)
    requires i < |plan|
    ensures Surviving(plan, output, i) + AsSet(plan[i].def) == LiveAt(plan, output, i)
  {
    AllocatedAppend(plan, i);
  }

  lemma SurvivingStep(plan: seq<Cell>, output: Option<string>, uses: map<string, nat>, i: nat)
    requires i < |plan| && LastUses(plan, uses)
    ensures (set r | r in LiveAt(plan, output, i) && (output == Some(r) || (r in uses && uses[r] > i))) ==
            Surviving(plan, output, i + 1)
  {
    forall r
      ensures (r in uses && uses[r] > i) <==> exists k :: i + 1 <= k < |plan| && r in plan[k].uses
    {
      if r in uses && uses[r] > i { assert r in plan[uses[r]].uses; }
    }
  }

  lemma PeakStep(plan: seq<Cell>, output: Option<string>, n: nat, peak: nat, size: nat)
    requires n < |plan| && PeakOfFirst(plan, output, n, peak) && size == |LiveAt(plan, output, n)|
    ensures PeakOfFirst(plan, output, n + 1, if peak < size then size else peak)
  {
    if peak != 0 {
      var i :| 0 <= i < n && |LiveAt(plan, output, i)| == peak;
      assert i < n + 1;
    }
  }

  /** The state of the second loop before row i. */
  ghost predicate Simulated(plan: seq<Cell>, output: Option<string>, i: nat, live: set<string>, peak: nat)
    requires i <= |plan|
  {
    live == Surviving(plan, output, i) && PeakOfFirst(plan, output, i, peak)
  }

  lemma SimulatedStep(plan: seq<Cell>, output: Option<string>, uses: map<string, nat>, i: nat, live: set<string>,
                      peak: nat)
    requires i < |plan| && LastUses(plan, uses) && Simulated(plan, output, i, live, peak)
    ensures var now := live + AsSet(plan[i].def);
            Simulated(plan, output, i + 1, set r | r in now && (output == Some(r) || (r in uses && uses[r] > i)),
                      if peak < |now| then |now| else peak)
  {
    LiveStep(plan, output, i);
    PeakStep(plan, output, i, peak, |LiveAt(plan, output, i)|);
    SurvivingStep(plan, output, uses, i);
  }

  /** The second loop: the incremental live set is the declarative one at every row, and the
      reported peak is the size of the largest. */
  method Simulate(ghost plan: seq<Cell>, defs: seq<Option<string>>, uses: map<string, nat>, output: Option<string>)
    returns (peak: nat)
    requires LastUses(plan, uses) && DefsOf(plan, defs)
    ensures IsPeak(plan, output, peak)
  {
    var live: set<string> := {};
    peak := 0;
    var index := 0;
    while index < |defs|
      invariant 0 <= index <= |plan|
      invariant Simulated(plan, output, index, live, peak)
    {
      SimulatedStep(plan, output, uses, index, live, peak);
      live, peak := SimulateRow(defs[index], uses, output, live, peak, index);
      index := index + 1;
    }
  }

  /** One row: allocate, measure, then free what is not used again. */
  method SimulateRow(def: Option<string>, uses: map<string, nat>, output: Option<string>, before: set<string>,
                     peak: nat, index: nat)
    returns (live: set<string>, peak': nat)
    ensures peak' == if peak < |before + AsSet(def)| then |before + AsSet(def)| else peak
    ensures live == set r | r in before + AsSet(def) && (output == Some(r) || (r in uses && uses[r] > index))
  {
    live := before + AsSet(def);
    peak' := if peak < |live| then |live| else peak;
    live := set r | r in live && (output == Some(r) || (r in uses && uses[r] > index));
  }

  /** `analyze`; None stands for its ValueError. */
  method Analyze(program: seq<Line>, costs: Costs, optimize: bool) returns (r: Option<(int, int)>)
    ensures r.Some? <==>
            costs.Keys == {"+", "-", "*", "/"} && (forall s :: s in costs ==> costs[s] >= 0) &&
            RowsOf(program).Some? && WellFormed(RowsOf(program).value) &&
            (optimize ==> Optimized(RowsOf(program).value).Some?)
    ensures r.Some? ==>
              var rows := if optimize then Optimized(RowsOf(program).value).value else RowsOf(program).value;
              Defines(rows, "res") && IsCost(rows, costs, r.value.0, r.value.1)
  {
    if costs.Keys != SYMBOLS || exists s :: s in costs && costs[s] < 0 { return None; }
    var parsed := Parse(program);
    if parsed.None? { return None; }
    var rows := parsed.value;
    if optimize {
      var kept := EliminateDead(rows);
      var folded := FoldConstants(kept);
      if folded.None? { return None; }
      OptimizedDefinesRes(rows);
      rows := folded.value;
    }
    var locations, uses, defs, time := PlanStorage(rows, costs);
    ResLocated(rows, map[]);
    var peak := Simulate(Plan(rows, map[]), defs, uses, locations["res"]);
    return Some((time, peak));
  }
}
