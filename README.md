# Port button debouncer, modelled in Dafny

The modelled system is a platform-independent debouncer for the buttons on one
8-line GPIO port. Each debouncer keeps the following:

- a ring of the last N port samples, normalised against the pull-up mask so
  that 1 means "at the pull level" (idle) and 0 means "driven" (active);
- the write cursor into that ring;
- the debounced state, which is the AND of every slot;
- the lines whose debounced state flipped on the last sample;
- the pull-up mask itself.

The operations are:

- `ButtonDebounceInit` resets the debouncer.
- `ButtonProcess` takes one raw port sample. It normalises the sample, stores it
  under the cursor, votes the debounced state again over the whole ring,
  advances and wraps the cursor, and records the flipped lines.
- `ButtonPressed`, `ButtonReleased` and `ButtonDebounceStateGet` are read-only
  queries on the result.

The project has two files:

- `debounce_spec.dfy` (module `DebounceSpec`) is the value-level specification.
  - `Normalize` is the polarity map.
  - `AndAll` is the vote over a ring.
  - `Vote`, `Before` and `Changed` describe the debounced state over the last
    N samples, the state one sample earlier, and the lines that flipped.
  - `Snapshot`, `Step`, `Feed` and `Run` describe the debouncer state as a
    value and its evolution: `Step` is one call, `Feed` folds `Step` over a
    sequence of samples, and `Run` feeds them from the reset state.
  - The lemmas prove what that evolution means: the ring read from the cursor
    is the window of the last N samples, and the vote is asymmetric.
- `button_debounce.dfy` (module `ButtonDebounce`) holds the class `Debouncer`.
  - It has the source's fields: the ring is an `array<bv8>` of length `N`, and
    `index`, `debouncedState`, `changed` and `pullType` are mutable fields.
  - It has a ghost history `Inputs` of the raw samples since the last `Init`.
  - Its object invariant `Valid()` says that the fields equal `Run` of the
    normalised history.
  - `Init`, `Process`, `Store` and `Revote` are imperative methods that update
    the fields and the array in place; `Init` and `Revote` keep the source's
    two loops.
  - `Pressed`, `Released` and `StateGet` are reading functions.

All masks are `bv8`, as the source's `uint8_t` values are. `~`, `&`, `^` and `|`
become `!`, `&`, `^` and `|`.

## Model

| member | source | states |
|---|---|---|
| DebounceSpec.Normalize | C/test_button_debounce/button_debounce.c:79 | a line reads 0 exactly when its raw level differs from its pull level, and 1 otherwise; mapping the result back with the same pull mask returns the raw sample (the map is its own inverse) |
| DebounceSpec.MirroredSamples | C/test_button_debounce/button_debounce.c:79 | inverting some raw lines and the same lines of the pull mask leaves every normalised sample unchanged |
| DebounceSpec.NormalizeSnoc | C/test_button_debounce/button_debounce.c:79 | one more raw sample adds exactly its normalisation to the end of the normalised history |
| DebounceSpec.AndAllConcat | C/test_button_debounce/button_debounce.c:85-88 | the vote over two joined ring pieces is the AND of their votes |
| DebounceSpec.AndAllCovers | C/test_button_debounce/button_debounce.c:85-88 | a line is idle in the vote if and only if it is idle in every slot |
| DebounceSpec.RotatedAndAll | C/test_button_debounce/button_debounce.c:85-88 | the vote does not depend on where the cursor stands: the ring read from any slot votes the same |
| DebounceSpec.AndAllPad | C/test_button_debounce/button_debounce.c:58-66 | a ring of untouched idle slots votes idle on every line |
| DebounceSpec.Initial | C/test_button_debounce/button_debounce.c:57-66 | the reset state has N slots and a debounced state equal to the vote of its ring |
| DebounceSpec.Step | C/test_button_debounce/button_debounce.c:82-102 | after one sample the slot under the old cursor holds the sample, the cursor stays inside the ring, and the debounced state is the vote of the new ring |
| DebounceSpec.Feed | C/test_button_debounce/button_debounce.c:70-103 | any number of calls from a well-formed state keep the ring length and keep the cursor inside the ring |
| DebounceSpec.Run | C/test_button_debounce/button_debounce.c:53-103 | after any samples from a reset, the ring has N slots and the cursor is below N |
| DebounceSpec.CursorStep | C/test_button_debounce/button_debounce.c:91-95 | increment-then-wrap at N equals the successor modulo N |
| DebounceSpec.RingStep | C/test_button_debounce/button_debounce.c:82-95 | writing under the cursor and advancing it drops the oldest slot of the ring read from the cursor and appends the sample |
| DebounceSpec.WindowStep | C/test_button_debounce/button_debounce.c:82-95 | the window of the last N samples slides by one: oldest out, new sample in |
| DebounceSpec.WindowVote | C/test_button_debounce/button_debounce.c:85-88 | the vote over the N-slot window (idle padding included) is the vote over the last N samples |
| DebounceSpec.VoteCovers | C/test_button_debounce/button_debounce.c:85-88 | a line is idle in the debounced state if and only if it was idle in each of the last N samples (each sample taken, when fewer than N were) |
| DebounceSpec.ActiveSampleClears | C/test_button_debounce/button_debounce.c:79-88 | fast press: one active sample makes its lines active in the debounced state on the same call, whatever came before |
| DebounceSpec.ReleaseNeedsFullWindow | C/test_button_debounce/button_debounce.c:79-88 | slow release: after an active sample, a line returns to idle if and only if at least N idle samples have followed |
| DebounceSpec.SteadyVote | C/test_button_debounce/button_debounce.c:85-88 | when the last N samples (all of them, if fewer) are equal, the debounced state is that sample |
| DebounceSpec.SteadyNoChange | C/test_button_debounce/button_debounce.c:85-102 | when the last N + 1 samples are equal, the last sample flipped no line |
| DebounceSpec.ChangedStep | C/test_button_debounce/button_debounce.c:73-102 | the flipped lines after a sample are the new vote XOR the vote before it |
| DebounceSpec.ConsistentStep | C/test_button_debounce/button_debounce.c:82-95 | one store-vote-advance step keeps the ring, read from the cursor, equal to the window of the samples, and the debounced state equal to both the ring's vote and the last-N vote |
| DebounceSpec.FeedSnoc | C/test_button_debounce/button_debounce.c:70-103 | feeding a history plus one sample is feeding the history and then taking one more step |
| DebounceSpec.RunSnoc | C/test_button_debounce/button_debounce.c:70-103 | the state after one more sample is one `Step` of the state before it |
| DebounceSpec.RunMeaning | C/test_button_debounce/button_debounce.c:53-103 | after any samples from a reset, the ring read from the cursor is the window of the last N samples, the debounced state is the AND of the ring and the vote of the last N samples, and the change mask is the lines the last sample flipped |
| DebounceSpec.RunVote | C/test_button_debounce/button_debounce.c:85-102 | after any samples, the debounced state is their last-N vote and the change mask is that vote XOR the vote before the last sample |
| DebounceSpec.RunPressed | C/test_button_debounce/button_debounce.c:102-110 | the flipped lines that are now active are exactly those that were idle before the last sample and are active after it |
| DebounceSpec.RunReleased | C/test_button_debounce/button_debounce.c:102-118 | the flipped lines that are now idle are exactly those that were active before the last sample and are idle after it |
| DebounceSpec.MirroredLevel | C/test_button_debounce/button_debounce.c:128 | inverting some lines of the pull mask inverts the same lines of the restored level |
| ButtonDebounce.Debouncer.constructor | C/test_button_debounce/button_debounce.c:53-67 | a new N-slot debouncer is in the reset state |
| ButtonDebounce.Debouncer.Init | C/test_button_debounce/button_debounce.c:53-67 | after reset: cursor 0, debounced state all idle, no change recorded, pull mask stored, every slot idle, empty history, invariant established |
| ButtonDebounce.Debouncer.Revote | C/test_button_debounce/button_debounce.c:85-88 | the loop that starts from all-idle and ANDs in every slot yields the AND of the whole ring |
| ButtonDebounce.Debouncer.Store | C/test_button_debounce/button_debounce.c:82-102 | only the slot under the old cursor changes, and it now holds the sample; the cursor advances modulo N; the debounced state is the vote of the new ring; the change mask is new XOR old debounced state, zero exactly when the state did not change |
| ButtonDebounce.Debouncer.Process | C/test_button_debounce/button_debounce.c:70-103 | the slot under the old cursor now holds the normalised sample and no other slot changes; the cursor advances modulo N; the debounced state is the vote of the ring; the change mask is zero exactly when the debounced state did not change; the pull mask is kept; the history grows by the raw sample; the invariant holds again |
| ButtonDebounce.Debouncer.StepKeepsValid | C/test_button_debounce/button_debounce.c:70-103 | the fields after one call equal `Run` of the history extended by the new sample |
| ButtonDebounce.Debouncer.Pressed | C/test_button_debounce/button_debounce.c:106-111 | the result lies within the queried pins and within the changed lines, and those lines are active |
| ButtonDebounce.Debouncer.Released | C/test_button_debounce/button_debounce.c:114-119 | the result lies within the queried pins and within the changed lines, and those lines are idle |
| ButtonDebounce.Debouncer.StateGet | C/test_button_debounce/button_debounce.c:122-129 | the result is the raw port level whose normalisation is the debounced state |
| ButtonDebounce.Debouncer.EdgesSplitChanged | C/test_button_debounce/button_debounce.c:106-119 | pressed and released are disjoint, and together they are exactly the changed queried pins |
| ButtonDebounce.Debouncer.PressedIsFlip | C/test_button_debounce/button_debounce.c:102-110 | a pin is reported pressed if and only if it was idle in the debounced state before the last sample and is active after it |
| ButtonDebounce.Debouncer.ReleasedIsFlip | C/test_button_debounce/button_debounce.c:102-118 | a pin is reported released if and only if it was active in the debounced state before the last sample and is idle after it |
| ButtonDebounce.Debouncer.SteadyInputState | C/test_button_debounce/button_debounce.c:79-128 | when the last N raw samples (all of them, if fewer) were r, the debounced state is r normalised and the level query returns r |
| ButtonDebounce.Debouncer.SteadyInputNoEdges | C/test_button_debounce/button_debounce.c:85-118 | when the last N + 1 raw samples were equal, nothing changed and no press or release is reported |
| ButtonDebounce.Debouncer.MirroredFields | C/test_button_debounce/button_debounce.c:79-102 | a debouncer with some pull bits inverted, fed the raw samples with the same bits inverted, holds the same debounced state and change mask |
| ButtonDebounce.Debouncer.MirroredEdges | C/test_button_debounce/button_debounce.c:79-118 | that mirrored debouncer reports the same presses and releases |
| ButtonDebounce.Debouncer.MirroredLevelQuery | C/test_button_debounce/button_debounce.c:79-128 | the mirrored debouncer's level query differs by exactly the inverted bits |

## Left out

- The header `button_debounce.h` is not part of this model. The history length
  `MAX_BUTTON_CHECKS` is a constructor parameter `N`, and `N >= 1` is required.
  The `tDebouncer` record becomes the class `Debouncer`.
- The loop counters are `uint8_t`. If `MAX_BUTTON_CHECKS` were 256 or more, the
  loops at lines 63-66 and 85-88 would not terminate. The model's loop counters
  are unbounded, so it does not capture that case.
- C integer promotion of `~` and `^` on `uint8_t` is not modelled. Every result
  is stored back into 8 bits, and `bv8` gives the same bits.
- Hardware sampling and timing are left out: which port is read, and how often
  `ButtonProcess` runs. Each raw sample is a parameter of `Process`.
- Interrupts and concurrency are left out. The source says the debouncer plays
  well with button interrupts, but nothing in it synchronises, so the model
  treats calls as sequential.
- The comments at lines 108-109 and 116-117 describe presses and releases in
  terms of the raw signal. The model follows the code instead: a press is a
  changed line whose normalised debounced bit is 0, and a release is one whose
  bit is 1.
- `ButtonDebounceStateGet` follows line 128: it returns the electrical level
  (the normalisation undone), not a "1 = pressed" mask. For a pulled-up line
  at rest the query returns 1, and for a pulled-down line at rest it returns 0.
- Process: its contract does not repeat "change mask = new debounced state XOR
  old one". That fact is in `Store`'s contract, which does the ring update
  (line 73 and lines 82-102). `Process` only adds the normalisation (line 79) and the ghost
  history. `Valid()` after `Process` still pins the change mask down, through
  `RunVote` and `RunMeaning`.
