/**
 * The example machine of tm.py:74-94: it marks the first bit (0 as N, 1 as Z),
 * flips every later bit while scanning right, turns round at the blank past
 * the end, walks back to the mark, writes the flipped first bit and stops one
 * cell further on.
 */
module BitFlipper {
  import opened Engine
  import opened EngineFacts

  /** A machine definition as a caller hands it to the constructor. */
  datatype Description = Description(
    states: set<State>, alphabet: set<Symbol>, symbols: set<Symbol>, initState: State, rules: seq<Row>)

  function MakeBitFlipperTm(): (m: Description)
    ensures m.alphabet <= m.symbols && Blank in m.symbols && m.initState in m.states
    ensures forall i :: 0 <= i < |m.rules| ==>
      m.rules[i].next in m.states && m.rules[i].write in m.symbols && m.rules[i].dir in {"L", "R"}
  {
    Description(
      {"q", "p", "s", "t", "f"},
      {'0', '1'},
      {'N', 'Z', '0', '1', 'B'},
      "q",
      [ Row("q", '0', "p", 'N', "R"),
        Row("q", '1', "p", 'Z', "R"),
        Row("p", '0', "p", '1', "R"),
        Row("p", '1', "p", '0', "R"),
        Row("p", 'B', "s", 'B', "L"),
        Row("s", '0', "s", '0', "L"),
        Row("s", '1', "s", '1', "L"),
        Row("s", 'N', "t", '1', "R"),
        Row("s", 'Z', "t", '0', "R"),
        Row("t", '0', "f", '0', "L"),
        Row("t", '1', "f", '1', "L") ])
  }

  /** The definition a machine built from the fixture holds (see BitFlipperDefBuilt). */
  function BitFlipperDef(): Definition
  {
    Definition({"q", "p", "s", "t", "f"}, {'N', 'Z', '0', '1', 'B'}, BitFlipperTable, MaxSteps)
  }

  /** The table the fixture's rows build; no key is listed twice. */
  const BitFlipperTable: Table := map[
    ("q", '0') := Action("p", 'N', "R"),
    ("q", '1') := Action("p", 'Z', "R"),
    ("p", '0') := Action("p", '1', "R"),
    ("p", '1') := Action("p", '0', "R"),
    ("p", 'B') := Action("s", 'B', "L"),
    ("s", '0') := Action("s", '0', "L"),
    ("s", '1') := Action("s", '1', "L"),
    ("s", 'N') := Action("t", '1', "R"),
    ("s", 'Z') := Action("t", '0', "R"),
    ("t", '0') := Action("f", '0', "L"),
    ("t", '1') := Action("f", '1', "L")]

  lemma BitFlipperTableBuilt()
    ensures BuildTable(MakeBitFlipperTm().rules) == BitFlipperTable
  {
    var rows := MakeBitFlipperTm().rules;
    assert rows[..0] == [];
    BuildTableSnoc(rows, 0);
    BuildTableSnoc(rows, 1);
    BuildTableSnoc(rows, 2);
    BuildTableSnoc(rows, 3);
    BuildTableSnoc(rows, 4);
    BuildTableSnoc(rows, 5);
    BuildTableSnoc(rows, 6);
    BuildTableSnoc(rows, 7);
    BuildTableSnoc(rows, 8);
    BuildTableSnoc(rows, 9);
    BuildTableSnoc(rows, 10);
    assert rows[..|rows|] == rows;
  }

  /** The constructor, given the fixture, builds exactly this definition. */
  lemma BitFlipperDefBuilt()
    ensures var m := MakeBitFlipperTm();
      BitFlipperDef() == Definition(m.states, m.symbols, BuildTable(m.rules), MaxSteps)
  {
    BitFlipperTableBuilt();
  }

  predicate IsBit(b: Symbol) { b == '0' || b == '1' }

  function Flip(b: Symbol): Symbol { if b == '0' then '1' else '0' }

  function FlipAll(s: seq<Symbol>): seq<Symbol>
  {
    seq(|s|, i requires 0 <= i < |s| => Flip(s[i]))
  }

  /** The mark that state q leaves on the first cell: N for 0, Z for 1. */
  function Mark(b: Symbol): Symbol { if b == '0' then 'N' else 'Z' }

  /** The bit that state s writes over a mark: the flipped first bit. */
  function Unmark(m: Symbol): Symbol { if m == 'N' then '1' else '0' }

  /** The tape once the outward sweep is done: the first bit marked, the others flipped. */
  function Outward(w: seq<Symbol>): seq<Symbol>
    requires |w| >= 1
  {
    [Mark(w[0])] + FlipAll(w[1..])
  }

  /** The inputs the general run lemma covers: bit strings of length 2 to 499. */
  predicate FlipperInput(w: seq<Symbol>)
  {
    2 <= |w| && 2 * |w| + 2 <= MaxSteps && forall j :: 0 <= j < |w| ==> IsBit(w[j])
  }

  // ---------------------------------------------------------------------------
  // The fixture's transitions, stated of any definition, one predicate per rule
  // kind, and proved of the fixture's own table
  // ---------------------------------------------------------------------------

  /** In q on the first cell holding a bit: write its mark, go to p, move right. */
  ghost predicate MarksFirst(d: Definition)
  {
    forall t: seq<Symbol> {:trigger Step(d, Config("q", t, 0))} :: |t| >= 1 && IsBit(t[0]) ==>
      Step(d, Config("q", t, 0)) == Moved(Config("p", t[0 := Mark(t[0])], 1))
  }

  /** In p on a bit: flip it, stay in p, move right. */
  ghost predicate FlipsRight(d: Definition)
  {
    forall t: seq<Symbol>, i: nat {:trigger Step(d, Config("p", t, i))} :: i < |t| && IsBit(t[i]) ==>
      Step(d, Config("p", t, i)) == Moved(Config("p", t[i := Flip(t[i])], i + 1))
  }

  /** In p on the blank past the end: write blank (a no-op there), go to s, move left. */
  ghost predicate TurnsAtEnd(d: Definition)
  {
    forall t: seq<Symbol> {:trigger Step(d, Config("p", t, |t|))} :: |t| >= 1 ==>
      Step(d, Config("p", t, |t|)) == Moved(Config("s", t, |t| - 1))
  }

  /** In s on a bit past the first cell: keep it, stay in s, move left. */
  ghost predicate WalksLeft(d: Definition)
  {
    forall t: seq<Symbol>, i: nat {:trigger Step(d, Config("s", t, i))} :: 0 < i < |t| && IsBit(t[i]) ==>
      Step(d, Config("s", t, i)) == Moved(Config("s", t, i - 1))
  }

  /** In s on a mark on the first cell: write the flipped first bit, go to t, move right. */
  ghost predicate Unmarks(d: Definition)
  {
    forall t: seq<Symbol> {:trigger Step(d, Config("s", t, 0))} :: |t| >= 1 && (t[0] == 'N' || t[0] == 'Z') ==>
      Step(d, Config("s", t, 0)) == Moved(Config("t", t[0 := Unmark(t[0])], 1))
  }

  /** In t on a bit in the second cell: keep it, go to f, move left. */
  ghost predicate StepsHome(d: Definition)
  {
    forall t: seq<Symbol> {:trigger Step(d, Config("t", t, 1))} :: |t| >= 2 && IsBit(t[1]) ==>
      Step(d, Config("t", t, 1)) == Moved(Config("f", t, 0))
  }

  /** No rule in f; none in t or q for the blank past the end. */
  ghost predicate HaltsAsExpected(d: Definition)
  {
    && (forall t: seq<Symbol>, h: nat {:trigger Step(d, Config("f", t, h))} :: Step(d, Config("f", t, h)) == NoRule)
    && (forall t: seq<Symbol> {:trigger Step(d, Config("t", t, |t|))} :: Step(d, Config("t", t, |t|)) == NoRule)
    && (forall t: seq<Symbol> {:trigger Step(d, Config("q", t, |t|))} :: Step(d, Config("q", t, |t|)) == NoRule)
  }

  lemma StepMark()
    ensures MarksFirst(BitFlipperDef())
  {
    forall t: seq<Symbol> | |t| >= 1 && IsBit(t[0])
      ensures Step(BitFlipperDef(), Config("q", t, 0)) == Moved(Config("p", t[0 := Mark(t[0])], 1))
    {
      LowerDirection("R");
    }
  }

  lemma StepFlip()
    ensures FlipsRight(BitFlipperDef())
  {
    forall t: seq<Symbol>, i: nat | i < |t| && IsBit(t[i])
      ensures Step(BitFlipperDef(), Config("p", t, i)) == Moved(Config("p", t[i := Flip(t[i])], i + 1))
    {
      LowerDirection("R");
    }
  }

  lemma StepTurn()
    ensures TurnsAtEnd(BitFlipperDef())
  {
    forall t: seq<Symbol> | |t| >= 1
      ensures Step(BitFlipperDef(), Config("p", t, |t|)) == Moved(Config("s", t, |t| - 1))
    {
      LowerDirection("L");
    }
  }

  lemma StepBack()
    ensures WalksLeft(BitFlipperDef())
  {
    forall t: seq<Symbol>, i: nat | 0 < i < |t| && IsBit(t[i])
      ensures Step(BitFlipperDef(), Config("s", t, i)) == Moved(Config("s", t, i - 1))
    {
      LowerDirection("L");
      assert t[i := t[i]] == t;
    }
  }

  lemma StepUnmark()
    ensures Unmarks(BitFlipperDef())
  {
    forall t: seq<Symbol> | |t| >= 1 && (t[0] == 'N' || t[0] == 'Z')
      ensures Step(BitFlipperDef(), Config("s", t, 0)) == Moved(Config("t", t[0 := Unmark(t[0])], 1))
    {
      LowerDirection("R");
    }
  }

  lemma StepFinal()
    ensures StepsHome(BitFlipperDef())
  {
    forall t: seq<Symbol> | |t| >= 2 && IsBit(t[1])
      ensures Step(BitFlipperDef(), Config("t", t, 1)) == Moved(Config("f", t, 0))
    {
      LowerDirection("L");
      assert t[1 := t[1]] == t;
    }
  }

  lemma StepHalt()
    ensures HaltsAsExpected(BitFlipperDef())
  {
    assert ("t", Blank) !in BitFlipperTable && ("q", Blank) !in BitFlipperTable;
  }

  /** Every transition a run of the fixture relies on, and the bound of 1000. */
  ghost predicate FlipperSteps(d: Definition)
  {
    && d.maxSteps == MaxSteps
    && MarksFirst(d) && FlipsRight(d) && TurnsAtEnd(d) && WalksLeft(d)
    && Unmarks(d) && StepsHome(d) && HaltsAsExpected(d)
  }

  lemma FlipperDefSteps()
    ensures FlipperSteps(BitFlipperDef())
  {
    StepMark();
    StepFlip();
    StepTurn();
    StepBack();
    StepUnmark();
    StepFinal();
    StepHalt();
  }

  // ---------------------------------------------------------------------------
  // Whole runs of any definition that makes those transitions
  // ---------------------------------------------------------------------------

  lemma FlipOneMore(t: seq<Symbol>, i: nat)
    requires i < |t|
    ensures var t' := t[i := Flip(t[i])]; t'[..i + 1] + FlipAll(t'[i + 1..]) == t[..i] + FlipAll(t[i..])
  {
    var t' := t[i := Flip(t[i])];
    assert t'[..i + 1] + FlipAll(t'[i + 1..]) == t[..i] + FlipAll(t[i..]);
  }

  /** Scanning right in state p flips every bit from `i` to the end, one transition per cell. */
  lemma {:induction false} ScanRight(d: Definition, t: seq<Symbol>, i: nat, steps: nat)
    requires FlipsRight(d)
    requires i <= |t| && forall j :: i <= j < |t| ==> IsBit(t[j])
    requires steps + (|t| - i) <= d.maxSteps
    ensures Exec(d, Config("p", t, i), steps)
         == Exec(d, Config("p", t[..i] + FlipAll(t[i..]), |t|), steps + (|t| - i))
    decreases |t| - i
  {
    if i == |t| {
      assert t[..i] + FlipAll(t[i..]) == t;
    } else {
      var t' := t[i := Flip(t[i])];
      assert Step(d, Config("p", t, i)) == Moved(Config("p", t', i + 1));
      ExecMoved(d, Config("p", t, i), steps);
      ScanRight(d, t', i + 1, steps + 1);
      FlipOneMore(t, i);
    }
  }

  /** Scanning left in state s walks back over the bits to the first cell, one transition per cell. */
  lemma {:induction false} ScanLeft(d: Definition, t: seq<Symbol>, i: nat, steps: nat)
    requires WalksLeft(d)
    requires i < |t| && forall j :: 0 < j <= i ==> IsBit(t[j])
    requires steps + i <= d.maxSteps
    ensures Exec(d, Config("s", t, i), steps) == Exec(d, Config("s", t, 0), steps + i)
    decreases i
  {
    if i > 0 {
      assert Step(d, Config("s", t, i)) == Moved(Config("s", t, i - 1));
      ExecMoved(d, Config("s", t, i), steps);
      ScanLeft(d, t, i - 1, steps + 1);
    }
  }

  /** The outward sweep: mark the first bit, flip the others, end on the blank past the end. */
  lemma SweepOut(d: Definition, w: seq<Symbol>)
    requires MarksFirst(d) && FlipsRight(d)
    requires 1 <= |w| <= d.maxSteps && forall j :: 0 <= j < |w| ==> IsBit(w[j])
    ensures Exec(d, Config("q", w, 0), 0) == Exec(d, Config("p", Outward(w), |w|), |w|)
  {
    var t := w[0 := Mark(w[0])];
    assert Step(d, Config("q", w, 0)) == Moved(Config("p", t, 1));
    ExecMoved(d, Config("q", w, 0), 0);
    ScanRight(d, t, 1, 1);
    assert t[..1] + FlipAll(t[1..]) == Outward(w);
  }

  /** The way back: turn round on the blank and walk back to the first cell. */
  lemma SweepBack(d: Definition, t: seq<Symbol>, steps: nat)
    requires TurnsAtEnd(d) && WalksLeft(d)
    requires |t| >= 1 && forall j :: 0 < j < |t| ==> IsBit(t[j])
    requires steps + |t| <= d.maxSteps
    ensures Exec(d, Config("p", t, |t|), steps) == Exec(d, Config("s", t, 0), steps + |t|)
  {
    assert Step(d, Config("p", t, |t|)) == Moved(Config("s", t, |t| - 1));
    ExecMoved(d, Config("p", t, |t|), steps);
    ScanLeft(d, t, |t| - 1, steps + 1);
  }

  /** Home: unmark the first cell, step onto the second, step back to the first in f and halt. */
  lemma SweepHome(d: Definition, t: seq<Symbol>, steps: nat)
    requires Unmarks(d) && StepsHome(d) && HaltsAsExpected(d)
    requires |t| >= 2 && (t[0] == 'N' || t[0] == 'Z') && IsBit(t[1])
    requires steps + 2 <= d.maxSteps
    ensures Exec(d, Config("s", t, 0), steps) == Finished(Config("f", t[0 := Unmark(t[0])], 0), true, steps + 2)
  {
    var t' := t[0 := Unmark(t[0])];
    assert Step(d, Config("s", t, 0)) == Moved(Config("t", t', 1));
    ExecMoved(d, Config("s", t, 0), steps);
    assert Step(d, Config("t", t', 1)) == Moved(Config("f", t', 0));
    ExecMoved(d, Config("t", t', 1), steps + 1);
    assert Step(d, Config("f", t', 0)) == NoRule;
  }

  /** The whole run on a bit string of length 2 to 499. */
  lemma FlipperRun(d: Definition, w: seq<Symbol>)
    requires FlipperSteps(d) && FlipperInput(w)
    ensures Exec(d, Config("q", w, 0), 0) == Finished(Config("f", FlipAll(w), 0), true, 2 * |w| + 2)
  {
    var t := Outward(w);
    SweepOut(d, w);
    SweepBack(d, t, |w|);
    SweepHome(d, t, 2 * |w|);
    assert t[0 := Unmark(t[0])] == FlipAll(w);
  }

  /** The short inputs: an empty tape, and a single bit. */
  lemma FlipperShortRuns(d: Definition, b: Symbol)
    requires FlipperSteps(d) && IsBit(b)
    ensures Exec(d, Config("q", [], 0), 0) == Finished(Config("q", [], 0), true, 0)
    ensures Exec(d, Config("q", [b], 0), 0) == Finished(Config("t", [Flip(b)], 1), true, 3)
  {
    assert |[b]| == 1;
    assert [b][0 := Mark(b)] == [Mark(b)];
    ExecMoved(d, Config("q", [b], 0), 0);
    ExecMoved(d, Config("p", [Mark(b)], 1), 1);
    assert [Mark(b)][0 := Unmark(Mark(b))] == [Flip(b)];
    ExecMoved(d, Config("s", [Mark(b)], 0), 2);
  }

  // ---------------------------------------------------------------------------
  // The fixture itself
  // ---------------------------------------------------------------------------

  /**
   * On a bit string of length n with 2 <= n and 2n + 2 <= 1000, the machine
   * halts in state f with every bit flipped and the head back on cell 0,
   * after 2n + 2 transitions.
   */
  lemma BitFlipperFlips(w: seq<Symbol>)
    requires FlipperInput(w)
    ensures Run(BitFlipperDef(), "q", w) == Finished(Config("f", FlipAll(w), 0), true, 2 * |w| + 2)
  {
    FlipperDefSteps();
    FlipperRun(BitFlipperDef(), w);
  }

  /** An empty tape halts at once; a single bit is flipped and the machine halts in t on the blank. */
  lemma BitFlipperShortTapes(b: Symbol)
    requires IsBit(b)
    ensures Run(BitFlipperDef(), "q", []) == Finished(Config("q", [], 0), true, 0)
    ensures Run(BitFlipperDef(), "q", [b]) == Finished(Config("t", [Flip(b)], 1), true, 3)
  {
    FlipperDefSteps();
    FlipperShortRuns(BitFlipperDef(), b);
  }

  /**
   * The regression run: "11001100" comes back as "00110011", head at 0,
   * halted, after 18 transitions. The tape is a parameter fixed by the
   * precondition rather than a literal in the postcondition: with the literal
   * the verifier evaluates the 18-transition run term by term, which costs far
   * more than deriving it from BitFlipperFlips.
   */
  lemma BitFlipperRegression(w: seq<Symbol>)
    requires w == "11001100"
    ensures Run(BitFlipperDef(), "q", w) == Finished(Config("f", "00110011", 0), true, 18)
  {
    RegressionTapeFacts(w);
    BitFlipperFlips(w);
  }

  /**
   * The regression tape is a valid input, and flipping it gives "00110011".
   * The tape is a parameter fixed by the precondition, for the same reason as
   * in BitFlipperRegression.
   */
  lemma RegressionTapeFacts(w: seq<Symbol>)
    requires w == "11001100"
    ensures FlipperInput(w) && FlipAll(w) == "00110011"
  {
  }

  /**
   * The control state survives a run: after the regression run the machine
   * sits in state f, and a second run on "0" halts at once, where a machine
   * starting in q would flip the bit. The regression tape is a parameter
   * fixed by the precondition, for the same reason as in BitFlipperRegression.
   */
  lemma StateCarriesOver(w: seq<Symbol>)
    requires w == "11001100"
    ensures Run(BitFlipperDef(), "q", w).final.state == "f"
    ensures Outcome(Run(BitFlipperDef(), "q", w)) == Success(Output("00110011", 0, true))
    ensures Outcome(Run(BitFlipperDef(), "f", "0")) == Success(Output("0", 0, true))
    ensures Outcome(Run(BitFlipperDef(), "q", "0")) == Success(Output("1", 1, true))
  {
    BitFlipperRegression(w);
    OutcomeFinished(Run(BitFlipperDef(), "q", w));
    StepHalt();
    BitFlipperShortTapes('0');
  }

  /** The fixture driven through the engine object: two runs on one instance. */
  method ReusedMachine() returns (first: Result<Output>, second: Result<Output>)
    ensures first == Success(Output("00110011", 0, true))
    ensures second == Success(Output("0", 0, true))
  {
    var m := MakeBitFlipperTm();
    var tm := new TuringMachine(m.states, m.symbols, m.initState, m.rules);
    BitFlipperDefBuilt();
    assert tm.Def() == BitFlipperDef() && tm.state == "q";
    var w := "11001100";
    StateCarriesOver(w);
    first := tm.Call(w);
    second := tm.Call("0");
  }
}
