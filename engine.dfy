/**
 * A single-tape deterministic Turing machine engine (tm.py).
 *
 * The tape is a finite sequence of symbols; every cell past its right end is a
 * virtual blank. One run reads the symbol under the head, looks up the rule
 * for (state, symbol), validates the rule in a fixed fail-fast order, applies
 * it, and counts the step, until no rule matches (a genuine halt) or the step
 * counter exceeds the bound (presumed divergence).
 */
module Engine {

  type State = string
  type Symbol = char

  /** The blank symbol that fills the virtual region past the tape's end. */
  const Blank: Symbol := 'B'

  /** The step bound every machine is built with (tm.py:17). */
  const MaxSteps: nat := 1000

  /** The one failure kind of the engine, carrying a human-readable message. */
  datatype Error = BadTapeInput(message: string)

  datatype Result<T> = Success(value: T) | Failure(error: Error)

  /** A transition rule as the caller lists it: a 5-tuple. */
  datatype Row = Row(state: State, symbol: Symbol, next: State, write: Symbol, dir: string)

  /** What the table holds for a key: the last three fields of a row. */
  datatype Action = Action(next: State, write: Symbol, dir: string)

  type Key = (State, Symbol)
  type Table = map<Key, Action>

  function KeyOf(row: Row): Key { (row.state, row.symbol) }

  function ActionOf(row: Row): Action { Action(row.next, row.write, row.dir) }

  /**
   * The table that inserting the rows one by one, in list order, produces.
   * Every entry comes from some row carrying its key.
   */
  function BuildTable(rows: seq<Row>): (t: Table)
    ensures forall k :: k in t ==>
      exists i :: 0 <= i < |rows| && KeyOf(rows[i]) == k && t[k] == ActionOf(rows[i])
  {
    if rows == [] then map[]
    else
      var last := rows[|rows| - 1];
      BuildTable(rows[..|rows| - 1])[KeyOf(last) := ActionOf(last)]
  }

  /** The static part of a machine: what a run consults but never changes. */
  datatype Definition = Definition(states: set<State>, symbols: set<Symbol>, table: Table, maxSteps: nat)

  /** The run-time configuration: control state, tape contents and head index. */
  datatype Config = Config(state: State, tape: seq<Symbol>, head: int)

  /** The symbol under the head: a tape cell, or blank past the tape's end. */
  function Read(tape: seq<Symbol>, head: int): Symbol
    requires head >= 0
  {
    if head < |tape| then tape[head] else Blank
  }

  /** ASCII lower-casing of one character; every other character is left alone. */
  function LowerChar(ch: char): char
  {
    if 'A' <= ch <= 'Z' then (ch as int + 32) as char else ch
  }

  /** The direction token after lower-casing (tm.py:38). */
  function Lower(s: string): (r: string)
    ensures |r| == |s|
    ensures forall i :: 0 <= i < |s| ==> !('A' <= r[i] <= 'Z')
    ensures forall i :: 0 <= i < |s| && !('A' <= s[i] <= 'Z') ==> r[i] == s[i]
  {
    seq(|s|, i requires 0 <= i < |s| => LowerChar(s[i]))
  }

  function BadStateMessage(next: State): string
  {
    "New state " + next + " is not in set of allowed states"
  }

  function BadSymbolMessage(write: Symbol): string
  {
    "Symbol to write " + [write] + " not in set of allowed symbols"
  }

  function BadDirectionMessage(dir: string): string
  {
    "Direction " + dir + " not \"l\" or \"r\""
  }

  const LeftEdgeMessage: string := "Trying to move head to the left at leftmost position"

  const BlankAreaMessage: string := "Trying to write non-blank symbol in the blank area"

  /** The tape after writing `w` under the head; past the end nothing is stored. */
  function Write(tape: seq<Symbol>, head: int, w: Symbol): seq<Symbol>
    requires head >= 0
  {
    if head < |tape| then tape[head := w] else tape
  }

  /** What one pass of the loop body does to a configuration. */
  datatype StepResult = NoRule | Moved(next: Config) | Fault(at: Config, error: Error)

  /**
   * One iteration of the run loop: look up the rule, validate it in source
   * order, apply it. A fault reports the configuration at the moment of the
   * raise: the control state is already the rule's next state when the last
   * check (the blank-area write) fails.
   */
  function Step(d: Definition, c: Config): (r: StepResult)
    requires c.head >= 0
    ensures r.Moved? ==> r.next.head >= 0 && |r.next.tape| == |c.tape|
    ensures r.Fault? ==> r.at.tape == c.tape && r.at.head == c.head
  {
    var symbol := Read(c.tape, c.head);
    if (c.state, symbol) !in d.table then NoRule
    else
      var a := d.table[(c.state, symbol)];
      var dir := Lower(a.dir);
      if a.next !in d.states then Fault(c, BadTapeInput(BadStateMessage(a.next)))
      else if a.write !in d.symbols then Fault(c, BadTapeInput(BadSymbolMessage(a.write)))
      else if dir != "l" && dir != "r" then Fault(c, BadTapeInput(BadDirectionMessage(dir)))
      else if c.head == 0 && dir == "l" then Fault(c, BadTapeInput(LeftEdgeMessage))
      else if c.head >= |c.tape| && a.write != Blank then
        Fault(c.(state := a.next), BadTapeInput(BlankAreaMessage))
      else
        Moved(Config(a.next, Write(c.tape, c.head, a.write), c.head + if dir == "r" then 1 else -1))
  }

  /**
   * How a run ends. `steps` is the value of the step counter at the end:
   * the number of transitions applied.
   */
  datatype RunEnd =
    | Finished(final: Config, halted: bool, steps: nat)
    | Aborted(final: Config, error: Error, steps: nat)

  /** The rest of a run from configuration `c` with the counter at `steps`. */
  function Exec(d: Definition, c: Config, steps: nat): (r: RunEnd)
    requires c.head >= 0 && steps <= d.maxSteps
    ensures steps <= r.steps <= d.maxSteps + 1
    ensures r.Aborted? || r.halted ==> r.steps <= d.maxSteps
    decreases d.maxSteps - steps
  {
    match Step(d, c)
    case NoRule => Finished(c, true, steps)
    case Fault(at, e) => Aborted(at, e, steps)
    case Moved(c') =>
      if steps + 1 > d.maxSteps then Finished(c', false, steps + 1)
      else Exec(d, c', steps + 1)
  }

  /** A whole run: the head starts at 0, the control state wherever it is. */
  function Run(d: Definition, start: State, input: seq<Symbol>): (r: RunEnd)
    ensures r.steps <= d.maxSteps + 1
  {
    Exec(d, Config(start, input, 0), 0)
  }

  /** Which way one pass of the run loop went. */
  datatype Pass = Halted | Applied | Raised(error: Error)

  /** The triple a run hands back: tape, head index and the halted flag. */
  datatype Output = Output(tape: seq<Symbol>, head: int, halted: bool)

  /** What the caller receives: the triple, or the error that aborted the run. */
  function Outcome(e: RunEnd): (r: Result<Output>)
    ensures r.Success? <==> e.Finished?
    ensures r.Failure? ==> r.error == e.error
  {
    match e
    case Finished(c, halted, _) => Success(Output(c.tape, c.head, halted))
    case Aborted(_, err, _) => Failure(err)
  }

  class TuringMachine {
    const maxSteps: nat
    const states: set<State>
    const symbols: set<Symbol>
    const transitions: Table
    var state: State
    var headIdx: int

    function Def(): Definition
    {
      Definition(states, symbols, transitions, maxSteps)
    }

    /** The alphabet the source also takes and stores is never consulted, so it is not kept. */
    constructor (states: set<State>, symbols: set<Symbol>, initState: State, rows: seq<Row>)
      ensures this.states == states && this.symbols == symbols
      ensures transitions == BuildTable(rows) && maxSteps == MaxSteps
      ensures state == initState && headIdx == 0
    {
      var table := Dictify(rows);
      maxSteps := MaxSteps;
      this.states := states;
      this.symbols := symbols;
      state := initState;
      transitions := table;
      headIdx := 0;
    }

    /** Turns the rule list into a table; a later row overwrites an earlier one with the same key. */
    static method Dictify(rows: seq<Row>) returns (dictified: Table)
      ensures dictified == BuildTable(rows)
    {
      dictified := map[];
      for i := 0 to |rows|
        invariant dictified == BuildTable(rows[..i])
      {
        assert rows[..i + 1][..i] == rows[..i];
        dictified := dictified[KeyOf(rows[i]) := ActionOf(rows[i])];
      }
      assert rows[..|rows|] == rows;
    }

    /**
     * Runs the machine on a copy of `input`. The head is reset to 0; the
     * control state is not, so a run starts where the previous one ended.
     * On a failure the fields keep the values they had when it was raised.
     */
    method Call(input: seq<Symbol>) returns (r: Result<Output>)
      modifies this
      ensures var e := Run(Def(), old(state), input);
        r == Outcome(e) && state == e.final.state && headIdx == e.final.head
    {
      ghost var start := state;
      var tape := new Symbol[|input|](i requires 0 <= i < |input| => input[i]);
      assert tape[..] == input;
      headIdx := 0;
      var halt := false;
      var steps: nat := 0;
      while !halt
        invariant tape.Length == |input| && headIdx >= 0 && steps <= maxSteps && !halt
        invariant Run(Def(), start, input) == Exec(Def(), Config(state, tape[..], headIdx), steps)
        decreases maxSteps - steps
      {
        var pass := Advance(tape);
        if pass.Halted? {
          halt := true;
          break;
        }
        if pass.Raised? {
          return Failure(pass.error);
        }
        steps := steps + 1;
        if steps > maxSteps {
          break;
        }
      }
      return Success(Output(tape[..], headIdx, halt));
    }

    /**
     * One pass of the run loop's body on the working tape: read, look up,
     * validate in source order, apply. It does to the fields and the tape
     * exactly what `Step` says, and reports which way the pass went.
     */
    method Advance(tape: array<Symbol>) returns (pass: Pass)
      requires headIdx >= 0
      modifies this, tape
      ensures var c := Config(old(state), old(tape[..]), old(headIdx));
        match Step(Def(), c)
        case NoRule => pass == Halted && state == c.state && tape[..] == c.tape && headIdx == c.head
        case Fault(at, e) => pass == Raised(e) && state == at.state && tape[..] == at.tape && headIdx == at.head
        case Moved(next) => pass == Applied && state == next.state && tape[..] == next.tape && headIdx == next.head
    {
      var symbol := if headIdx < tape.Length then tape[headIdx] else Blank;
      if (state, symbol) !in transitions {
        return Halted;
      }
      var a := transitions[(state, symbol)];
      var dir := Lower(a.dir);
      if a.next !in states {
        return Raised(BadTapeInput(BadStateMessage(a.next)));
      }
      if a.write !in symbols {
        return Raised(BadTapeInput(BadSymbolMessage(a.write)));
      }
      if dir != "l" && dir != "r" {
        return Raised(BadTapeInput(BadDirectionMessage(dir)));
      }
      if headIdx == 0 && dir == "l" {
        return Raised(BadTapeInput(LeftEdgeMessage));
      }
      state := a.next;
      if headIdx >= tape.Length {
        if a.write != Blank {
          return Raised(BadTapeInput(BlankAreaMessage));
        }
      } else {
        tape[headIdx] := a.write;
      }
      headIdx := headIdx + if dir == "r" then 1 else -1;
      return Applied;
    }
  }
}
