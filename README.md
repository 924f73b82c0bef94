# Single-tape Turing machine engine

A model of the `TuringMachine` class of `tm.py`: a deterministic single-tape
Turing machine whose tape is a finite sequence of one-character symbols. Every cell
past the right end of the tape is a virtual blank `'B'`. A machine is built from
its states, its symbol set, an initial state and a list of 5-tuple rules. Calling
it on an input tape runs a bounded loop. Each pass reads the symbol under the
head and looks up the rule for (state, symbol). It validates the rule in a fixed
fail-fast order, applies it and counts the step. The loop stops when no rule
matches (halted), when the counter exceeds 1000 (stopped, presumed divergent), or
when a validation fails (the run aborts with `BadTapeInput`).

Layout:

- `engine.dfy`, module `Engine`. Symbols, states, rules and the table are modelled as
  values. `BuildTable` is the table that inserting the rows in order produces.
  `Step` is one pass of the loop, `Exec`/`Run` is the whole run as a function, and
  `Outcome` is what the caller receives. The class `TuringMachine` has the source's
  fields (`states`, `symbols`, `transitions`, `maxSteps`, and the mutable `state` and
  `headIdx`). `Dictify` is its table-building loop. `Call` is the run loop over a
  fixed-length array copy of the input, proved equal to `Run`. Its body, one pass, is
  `Advance`, proved to do what `Step` says.
- `facts.dfy`, module `EngineFacts`: the properties of the table, of one step and of
  whole runs.
- `bitflipper.dfy`, module `BitFlipper`: the example machine of `make_bit_flipper_tm`.
  It proves the machine's behaviour on every bit string of length 2 to 499, the
  regression run on `"11001100"`, and a two-run scenario that shows the control
  state carrying over from one call to the next.

Failures are one flat error kind, `BadTapeInput(message)`. The messages are the
source's messages with the offending value inserted. A failed run returns
`Failure(...)` instead of the result triple. The object's fields keep the values
they had when the error was raised. In particular, `state` has already moved to the
rule's next state when the last check (a non-blank write in the blank area) fails.

`Call` resets only the head index (tm.py:27), not the control state, so a run starts
in the state the previous run ended in. `StateCarriesOver` and `ReusedMachine` show
this.

## Model

| member | source | states |
|---|---|---|
| `Engine.BuildTable` | tm.py:66-71 | the table that inserting the rows in list order produces, a later row overwriting an earlier one with the same key; every entry comes from a row that carries its key |
| `Engine.Lower` | tm.py:38 | lower-casing of the direction: same length, no upper-case ASCII letter left, every other character unchanged |
| `Engine.Exec` | tm.py:28-62 | the rest of a run, one pass per call: it ends halted when no rule matches, stopped with halted false once the counter passes the bound, aborted at a failing check; the final counter lies between the starting one and bound + 1, and is within the bound unless the run was stopped |
| `Engine.Run` | tm.py:25-30 | a whole run starts at head 0 and counter 0 in the current control state; it applies at most bound + 1 transitions |
| `Engine.Outcome` | tm.py:64 | the caller receives the triple exactly when the run did not abort, and otherwise the error that aborted it |
| `Engine.TuringMachine.constructor` | tm.py:11-23 | the bound is 1000, states and symbols are stored as given, the table is the one the rows build, state is the initial state, head is 0 |
| `Engine.TuringMachine.Dictify` | tm.py:66-71 | the loop that fills the dictionary row by row yields exactly the table that inserting the rows in list order defines |
| `Engine.TuringMachine.Call` | tm.py:25-64 | the run loop returns what the run function predicts from the state left by the previous call and head 0 (the triple, or the error that aborted it), and leaves `state`/`headIdx` at the final configuration, also after an error |
| `Engine.TuringMachine.Advance` | tm.py:32-56 | one pass of the loop body on the working tape changes the state, tape and head exactly as `Step` says, and reports whether it halted, applied the rule or raised, with the error raised |
| `Engine.Step` | tm.py:32-56 | an applied step keeps the head non-negative and the tape length unchanged; a fault leaves tape and head as they were |
| `EngineFacts.BuildTableKeys` | tm.py:66-71 | a key is in the table exactly when some row carries it (both directions) |
| `EngineFacts.BuildTableLastWins` | tm.py:68-70 | for a key, the row with the last occurrence provides the table's entry |
| `EngineFacts.LowerDirection` | tm.py:38-45 | after lower-casing, a direction is "l" exactly for "l"/"L" and "r" exactly for "r"/"R" |
| `EngineFacts.NoRuleHalts` | tm.py:32-35 | the step halts exactly when (state, symbol under the head) has no rule, the symbol being the cell or blank past the end; the run then ends halted with tape and head unchanged |
| `EngineFacts.StepValidationOrder` | tm.py:40-52 | with a rule present, the step aborts exactly when one of the five checks fails, with the error of the first failing one in source order; only a failure of the last check leaves the state already moved to the rule's next state |
| `EngineFacts.StepApplied` | tm.py:40-56 | an applied step uses a declared next state and write symbol, sets the state to the rule's next state, moves the head by exactly +1 for "r" or -1 for "l" (left only from a positive index), changes no cell but the one under the head (written when in bounds, untouched when past the end and the write is blank) and keeps the tape length |
| `EngineFacts.StepN` | tm.py:30-58 | the configuration reached after n applied transitions has a non-negative head and the input's tape length |
| `EngineFacts.ExecKeepsHeadAndLength` | tm.py:46-64 | at the end of every run, halted, stopped or aborted, the head is non-negative and the tape has the input's length |
| `EngineFacts.ExecEnds` | tm.py:28-64 | a halt happens within the bound at the configuration reached by the transitions applied, and that configuration has no rule; a stop happens after exactly bound + 1 transitions; an abort happens within the bound at a reached configuration whose step faults; halted is true exactly when the counter did not exceed the bound |
| `EngineFacts.ExecStoppedIff` | tm.py:58-62 | a run is stopped with halted = false exactly when the machine can apply all the transitions the bound still allows without halting or faulting |
| `EngineFacts.RunOutput` | tm.py:64 | the triple a run returns holds a tape of the input's length and a non-negative head index |
| `EngineFacts.RunEnds` | tm.py:17-64 | with the bound 1000: halted = true only when no rule matched, within 1000 transitions; halted = false only after exactly 1001 transitions; head non-negative and tape length preserved |
| `BitFlipper.MakeBitFlipperTm` | tm.py:74-94 | the example machine's alphabet is within its symbols, the symbols include blank, the initial state is declared, and every rule targets a declared state and symbol with direction "L" or "R" |
| `BitFlipper.BitFlipperTableBuilt` | tm.py:79-92 | the example's rows build exactly the eleven-entry table listed |
| `BitFlipper.BitFlipperDefBuilt` | tm.py:11-23 | the constructor given the example's states, symbols and rows holds exactly the fixture's definition, with the bound 1000 |
| `BitFlipper.StepMark` | tm.py:80-81 | in state q on a first cell holding a bit, the bit is overwritten by its mark (N for 0, Z for 1), the state becomes p and the head moves right, on every tape |
| `BitFlipper.StepFlip` | tm.py:82-83 | in state p on a bit, the bit is flipped and the head moves right, on every tape and cell |
| `BitFlipper.StepTurn` | tm.py:84 | in state p on the blank past the tape's end, the blank write changes nothing, the state becomes s and the head moves back onto the last cell |
| `BitFlipper.StepBack` | tm.py:86-87 | in state s on a bit past the first cell, the tape is unchanged and the head moves left |
| `BitFlipper.StepUnmark` | tm.py:88-89 | in state s on a mark in the first cell, the mark becomes the flipped first bit, the state becomes t and the head moves right |
| `BitFlipper.StepFinal` | tm.py:90-91 | in state t on a bit in the second cell, the state becomes f, the tape is unchanged and the head moves left |
| `BitFlipper.StepHalt` | tm.py:79-92 | there is no rule in state f, and none in t or q for the blank past the end, so the machine halts there |
| `BitFlipper.FlipperDefSteps` | tm.py:79-92 | the fixture's definition makes every transition above and has the bound 1000 |
| `BitFlipper.ScanRight` | tm.py:82-83 | for any definition that flips right in p, scanning from a cell flips every remaining bit and ends on the blank past the end, one transition per cell |
| `BitFlipper.ScanLeft` | tm.py:86-87 | for any definition that walks left in s, scanning from a cell walks back over the bits to the first cell, one transition per cell |
| `BitFlipper.SweepOut` | tm.py:80-83 | the outward sweep marks the first bit and flips the others in as many transitions as the tape has cells |
| `BitFlipper.SweepBack` | tm.py:84-87 | the way back turns round on the blank and reaches the first cell in as many transitions as the tape has cells |
| `BitFlipper.SweepHome` | tm.py:88-92 | from the mark, two transitions write the flipped first bit and return the head to cell 0 in state f, where the run halts |
| `BitFlipper.FlipperRun` | tm.py:79-92 | for any definition making those transitions, a bit string of length n (2 to 499) ends halted in f with every bit flipped and the head on cell 0 after 2n + 2 transitions |
| `BitFlipper.FlipperShortRuns` | tm.py:79-92 | for any such definition, an empty tape halts at once in q, and a single bit is flipped with the run halting in t on the blank after 3 transitions |
| `BitFlipper.BitFlipperFlips` | tm.py:74-94 | the fixture itself: on every bit string of length n between 2 and 499 it halts in f with every bit flipped and the head on cell 0, after 2n + 2 transitions |
| `BitFlipper.BitFlipperShortTapes` | tm.py:79-92 | the fixture on an empty tape halts at once in q; on a single bit it flips the bit and halts in t with the head on the blank past the end, after 3 transitions |
| `BitFlipper.BitFlipperRegression` | tm.py:97-101 | the run on "11001100" ends halted with tape "00110011" and head 0, in state f, after 18 transitions |
| `BitFlipper.StateCarriesOver` | tm.py:21-27 | after the regression run the state is f and the caller receives ("00110011", 0, true); a run of "0" from f returns ("0", 0, true), while one from q returns ("1", 1, true) |
| `BitFlipper.ReusedMachine` | tm.py:21-27 | two calls on one engine object: the first returns ("00110011", 0, true); the second, on "0", returns ("0", 0, true) because it starts in state f |

## Left out

- The `__main__` block (tm.py:96-102) only prints. The regression lemmas above take its place.
- The `errors` payload of `BadTapeInputException` (tm.py:3-6) is not modelled. The
  exception's constructor requires `errors`, yet every `raise` passes only a message.
  Python would therefore raise a `TypeError` at each of those points instead. The model
  keeps the evident intent: one error kind that carries the message.
- The alphabet is not stored, because a run never consults it (tm.py:19).
- The string/list conversions (tm.py:26, tm.py:64) are not modelled: tapes are sequences
  of characters throughout. A write symbol must be one character. A longer string
  written into a cell, which `''.join` would splice into the output, is not modelled.
- Rows are 5-field records. The unpacking error that Python raises for a tuple of another
  length is not modelled, and neither is a direction that is not a string.
- `Engine.Lower` lower-cases ASCII letters only. Python's `str.lower` also maps non-ASCII
  letters. No non-ASCII string lowers to "l" or "r", so this can change only the text of the
  invalid-direction message.
- Python's negative list indexing is not modelled: the head is proved never to be negative.
- The commented-out divergent rule (tm.py:85) and the commented-out debug print (tm.py:31) are not behaviour.
- The object stores the states and symbols as values. In Python it keeps references to
  the caller's sets, so a later change by the caller to those sets changes the validation
  of later runs; that aliasing is not modelled.
- `MAX_STEPS` and the other attributes can be reassigned on a Python object from outside
  the class. The model's bound, states, symbols and table are constant fields, so such
  reassignment is not modelled.
- A single engine object shared by concurrent callers is not modelled. Calls are sequential.
- BitFlipper.BitFlipperFlips: covers bit strings of length 2 to 499 only. For 500 bits or
  more, 2n + 2 exceeds the bound and the run is stopped. That case and non-bit tapes are not proved.
