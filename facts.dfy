/**
 * Properties of the engine: how the table is built, how one step reads,
 * validates and writes, and how a whole run ends.
 */
module EngineFacts {
  import opened Engine

  datatype Option<T> = None | Some(value: T)

  // ---------------------------------------------------------------------------
  // Building the transition table (tm.py:66-71)
  // ---------------------------------------------------------------------------

  /** A key is in the table exactly when some row carries it. */
  lemma {:induction false} BuildTableKeys(rows: seq<Row>, k: Key)
    ensures k in BuildTable(rows) <==> exists i :: 0 <= i < |rows| && KeyOf(rows[i]) == k
  {
    if rows != [] {
      var init := rows[..|rows| - 1];
      BuildTableKeys(init, k);
      if k in BuildTable(init) {
        var i :| 0 <= i < |init| && KeyOf(init[i]) == k;
        assert KeyOf(rows[i]) == k;
      }
      if exists i :: 0 <= i < |rows| && KeyOf(rows[i]) == k {
        var i :| 0 <= i < |rows| && KeyOf(rows[i]) == k;
        if i < |init| {
          assert KeyOf(init[i]) == k;
        }
      }
    }
  }

  /** Adding one more row updates the table at that row's key. */
  lemma BuildTableSnoc(rows: seq<Row>, i: nat)
    requires i < |rows|
    ensures BuildTable(rows[..i + 1]) == BuildTable(rows[..i])[KeyOf(rows[i]) := ActionOf(rows[i])]
  {
    assert rows[..i + 1][..i] == rows[..i];
  }

  /** For a duplicated key the last row with that key wins. */
  lemma {:induction false} BuildTableLastWins(rows: seq<Row>, i: nat)
    requires i < |rows|
    requires forall j :: i < j < |rows| ==> KeyOf(rows[j]) != KeyOf(rows[i])
    ensures KeyOf(rows[i]) in BuildTable(rows)
    ensures BuildTable(rows)[KeyOf(rows[i])] == ActionOf(rows[i])
  {
    var init := rows[..|rows| - 1];
    if i < |rows| - 1 {
      forall j | i < j < |init| ensures KeyOf(init[j]) != KeyOf(init[i]) {
        assert init[j] == rows[j];
      }
      BuildTableLastWins(init, i);
      assert init[i] == rows[i];
    }
  }

  // ---------------------------------------------------------------------------
  // Direction tokens (tm.py:38, tm.py:44)
  // ---------------------------------------------------------------------------

  /** Lower-casing accepts exactly the tokens "l", "L", "r" and "R". */
  lemma LowerDirection(dir: string)
    ensures Lower(dir) == "l" <==> dir == "l" || dir == "L"
    ensures Lower(dir) == "r" <==> dir == "r" || dir == "R"
  {
    if |dir| == 1 {
      assert Lower(dir)[0] == LowerChar(dir[0]);
      if Lower(dir) == "l" || Lower(dir) == "r" {
        assert dir == [dir[0]];
      }
    }
  }

  // ---------------------------------------------------------------------------
  // One step (tm.py:32-56)
  // ---------------------------------------------------------------------------

  /** No rule for (state, symbol under the head): the loop halts, nothing changes. */
  lemma NoRuleHalts(d: Definition, c: Config, steps: nat)
    requires c.head >= 0 && steps <= d.maxSteps
    ensures Step(d, c) == NoRule <==> (c.state, Read(c.tape, c.head)) !in d.table
    ensures Step(d, c) == NoRule ==> Exec(d, c, steps) == Finished(c, true, steps)
  {
  }

  /** One validation of a rule: whether it fails, and the error it raises then. */
  datatype Check = Check(fails: bool, error: Error)

  /** The validations of rule `a` at configuration `c`, in the order they run. */
  function Checks(d: Definition, c: Config, a: Action): (cs: seq<Check>)
    ensures |cs| == 5
  {
    var dir := Lower(a.dir);
    [ Check(a.next !in d.states, BadTapeInput(BadStateMessage(a.next))),
      Check(a.write !in d.symbols, BadTapeInput(BadSymbolMessage(a.write))),
      Check(dir != "l" && dir != "r", BadTapeInput(BadDirectionMessage(dir))),
      Check(c.head == 0 && dir == "l", BadTapeInput(LeftEdgeMessage)),
      Check(c.head >= |c.tape| && a.write != Blank, BadTapeInput(BlankAreaMessage)) ]
  }

  /** Index of the first failing check, or |cs| when every check passes. */
  function FirstFailing(cs: seq<Check>): (k: nat)
    ensures k <= |cs|
    ensures k < |cs| ==> cs[k].fails
    ensures forall j :: 0 <= j < k ==> !cs[j].fails
  {
    if cs == [] then 0
    else if cs[0].fails then 0
    else 1 + FirstFailing(cs[1..])
  }

  /** The index of the blank-area check, the only one run after the state update (tm.py:49-52). */
  const BlankAreaCheck: nat := 4

  /**
   * Validation is fail-fast in source order: when a rule applies, the step
   * aborts exactly when some check fails, with the error of the first one;
   * the control state has already moved to the rule's next state only when
   * the failing check is the blank-area write.
   */
  lemma StepValidationOrder(d: Definition, c: Config)
    requires c.head >= 0
    requires (c.state, Read(c.tape, c.head)) in d.table
    ensures var cs := Checks(d, c, d.table[(c.state, Read(c.tape, c.head))]);
      var k := FirstFailing(cs);
      && (Step(d, c).Fault? <==> k < |cs|)
      && (Step(d, c).Moved? <==> k == |cs|)
      && (k < |cs| ==> Step(d, c).error == cs[k].error)
      && (k < |cs| ==> Step(d, c).at.state ==
                       (if k == BlankAreaCheck then d.table[(c.state, Read(c.tape, c.head))].next else c.state))
  {
    var a := d.table[(c.state, Read(c.tape, c.head))];
    var cs := Checks(d, c, a);
    var k := FirstFailing(cs);
    if k == 0 {
    } else if k == 1 {
      assert !cs[0].fails;
    } else if k == 2 {
      assert !cs[0].fails && !cs[1].fails;
    } else if k == 3 {
      assert !cs[0].fails && !cs[1].fails && !cs[2].fails;
    } else if k == 4 {
      assert !cs[0].fails && !cs[1].fails && !cs[2].fails && !cs[3].fails;
    } else {
      assert !cs[0].fails && !cs[1].fails && !cs[2].fails && !cs[3].fails && !cs[4].fails;
    }
  }

  /**
   * An applied step: the rule's next state and write symbol are declared, the
   * head moves by exactly one cell (left only from a positive index), only the
   * cell under the head may change, and the tape keeps its length.
   */
  lemma StepApplied(d: Definition, c: Config)
    requires c.head >= 0 && Step(d, c).Moved?
    ensures (c.state, Read(c.tape, c.head)) in d.table
    ensures var a := d.table[(c.state, Read(c.tape, c.head))];
      var c' := Step(d, c).next;
      && a.next in d.states && a.write in d.symbols
      && c'.state == a.next
      && (Lower(a.dir) == "r" || Lower(a.dir) == "l")
      && (Lower(a.dir) == "r" ==> c'.head == c.head + 1)
      && (Lower(a.dir) == "l" ==> c.head > 0 && c'.head == c.head - 1)
      && |c'.tape| == |c.tape|
      && (forall i :: 0 <= i < |c.tape| && i != c.head ==> c'.tape[i] == c.tape[i])
      && (c.head < |c.tape| ==> c'.tape[c.head] == a.write)
      && (c.head >= |c.tape| ==> c'.tape == c.tape && a.write == Blank)
  {
  }

  // ---------------------------------------------------------------------------
  // Whole runs (tm.py:25-64)
  // ---------------------------------------------------------------------------

  /** The configuration reached after exactly `n` applied transitions, if the machine gets that far. */
  function StepN(d: Definition, c: Config, n: nat): (r: Option<Config>)
    requires c.head >= 0
    ensures r.Some? ==> r.value.head >= 0 && |r.value.tape| == |c.tape|
    decreases n
  {
    if n == 0 then Some(c)
    else
      match Step(d, c)
      case Moved(c') => StepN(d, c', n - 1)
      case _ => None
  }

  /** An applied transition within the bound hands the run on to the next configuration. */
  lemma ExecMoved(d: Definition, c: Config, steps: nat)
    requires c.head >= 0 && steps < d.maxSteps && Step(d, c).Moved?
    ensures Exec(d, c, steps) == Exec(d, Step(d, c).next, steps + 1)
  {
  }

  /** What the caller's Result holds when a run halts or is stopped. */
  lemma OutcomeFinished(e: RunEnd)
    requires e.Finished?
    ensures Outcome(e) == Success(Output(e.final.tape, e.final.head, e.halted))
  {
  }

  /** Throughout a run the head stays non-negative and the tape keeps its length. */
  lemma {:induction false} ExecKeepsHeadAndLength(d: Definition, c: Config, steps: nat)
    requires c.head >= 0 && steps <= d.maxSteps
    ensures Exec(d, c, steps).final.head >= 0
    ensures |Exec(d, c, steps).final.tape| == |c.tape|
    decreases d.maxSteps - steps
  {
    match Step(d, c)
    case NoRule =>
    case Fault(_, _) =>
    case Moved(c') =>
      if steps + 1 <= d.maxSteps {
        ExecKeepsHeadAndLength(d, c', steps + 1);
      }
  }

  /**
   * How a run ends, in terms of the transitions it applied: a halt happens
   * within the bound at a configuration with no rule; a forced stop happens
   * after exactly maxSteps + 1 transitions; an abort happens within the bound
   * at a configuration whose step faults.
   */
  lemma {:induction false} ExecEnds(d: Definition, c: Config, steps: nat)
    requires c.head >= 0 && steps <= d.maxSteps
    ensures var e := Exec(d, c, steps);
      && steps <= e.steps
      && (e.Finished? ==> StepN(d, c, e.steps - steps) == Some(e.final))
      && (e.Finished? ==> (e.halted <==> e.steps <= d.maxSteps))
      && (e.Finished? && e.halted ==> Step(d, e.final) == NoRule)
      && (e.Finished? && !e.halted ==> e.steps == d.maxSteps + 1)
      && (e.Aborted? ==> e.steps <= d.maxSteps && StepN(d, c, e.steps - steps).Some?
                         && Step(d, StepN(d, c, e.steps - steps).value) == Fault(e.final, e.error))
    decreases d.maxSteps - steps
  {
    match Step(d, c)
    case NoRule =>
    case Fault(_, _) =>
    case Moved(c') =>
      if steps + 1 <= d.maxSteps {
        ExecEnds(d, c', steps + 1);
        var e := Exec(d, c', steps + 1);
        assert StepN(d, c, e.steps - steps) == StepN(d, c', e.steps - (steps + 1));
      }
  }

  /**
   * A run is forcibly stopped (halted = false) exactly when the machine can
   * apply the maxSteps + 1 - steps transitions still allowed without halting
   * or faulting.
   */
  lemma {:induction false} ExecStoppedIff(d: Definition, c: Config, steps: nat)
    requires c.head >= 0 && steps <= d.maxSteps
    ensures (Exec(d, c, steps).Finished? && !Exec(d, c, steps).halted)
            <==> StepN(d, c, d.maxSteps + 1 - steps).Some?
    decreases d.maxSteps - steps
  {
    match Step(d, c)
    case NoRule =>
    case Fault(_, _) =>
    case Moved(c') =>
      if steps + 1 <= d.maxSteps {
        ExecStoppedIff(d, c', steps + 1);
      }
  }

  /** The triple a run hands back holds a tape of the input's length and a non-negative head. */
  lemma RunOutput(d: Definition, start: State, input: seq<Symbol>)
    ensures var r := Outcome(Run(d, start, input));
      r.Success? ==> |r.value.tape| == |input| && r.value.head >= 0
  {
    ExecKeepsHeadAndLength(d, Config(start, input, 0), 0);
  }

  /**
   * With the bound every machine is built with: halted = true only when no
   * rule matched, and halted = false only after exactly 1001 transitions.
   */
  lemma RunEnds(d: Definition, start: State, input: seq<Symbol>)
    requires d.maxSteps == MaxSteps
    ensures var e := Run(d, start, input);
      && e.final.head >= 0 && |e.final.tape| == |input|
      && (e.Finished? && e.halted ==> Step(d, e.final) == NoRule && e.steps <= 1000)
      && (e.Finished? && !e.halted ==> e.steps == 1001)
      && (e.Finished? ==> StepN(d, Config(start, input, 0), e.steps) == Some(e.final))
  {
    ExecEnds(d, Config(start, input, 0), 0);
    ExecKeepsHeadAndLength(d, Config(start, input, 0), 0);
  }
}
