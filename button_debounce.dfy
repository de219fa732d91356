/**
  The debouncer of one 8-line port: a ring of the last N normalised samples,
  the debounced state voted from it, the lines that flipped on the last call,
  and the pull-up mask. Init and Process change it in place; the three
  queries only read it.
*/
module ButtonDebounce {
  import opened DebounceSpec

  class Debouncer {
    /** The depth of the sample window (the build-time history length). */
    const N: nat
    /** The ring of the last N normalised samples. */
    const state: array<bv8>
    /** The slot the next sample is written to. */
    var index: nat
    /** The debounced state, normalised: 1 = idle, 0 = active. */
    var debouncedState: bv8
    /** The lines whose debounced state flipped on the last call of Process. */
    var changed: bv8
    /** One bit per line: 1 = pulled up (idle high), 0 = pulled down (idle low). */
    var pullType: bv8

    /** The raw port samples given to Process since the last Init, oldest first. */
    ghost var Inputs: seq<bv8>

    /** The normalised samples since the last Init. */
    ghost function Samples(): seq<bv8>
      reads this
    {
      NormalizeAll(Inputs, pullType)
    }

    /** The fields as a value. */
    ghost function Current(): Snapshot
      reads this, state
    {
      Snapshot(state[..], index, debouncedState, changed)
    }

    /** The object invariant: the fields hold the state that the samples
        since the last Init lead to, one Process call each. */
    ghost predicate Valid()
      reads this, state
    {
      && 1 <= N == state.Length
      && Current() == Run(Samples(), N)
    }

    /** A debouncer with an n-sample window, initialised for the given pulls. */
    constructor (n: nat, pulledUpButtons: bv8)
      requires n >= 1
      ensures Valid() && fresh(state)
      ensures N == n && pullType == pulledUpButtons && Inputs == []
      ensures index == 0 && debouncedState == Idle && changed == 0
      ensures state[..] == Pad(n)
    {
      N := n;
      state := new bv8[n];
      new;
      Init(pulledUpButtons);
    }

    /** Resets the debouncer: every slot and the debounced state idle, no
        change recorded, the write cursor at slot 0, the pulls stored. */
    method Init(pulledUpButtons: bv8)
      requires 1 <= N == state.Length
      modifies this, state
      ensures Valid()
      ensures index == 0 && debouncedState == Idle && changed == 0
      ensures pullType == pulledUpButtons
      ensures state[..] == Pad(N)
      ensures Inputs == []
    {
      index := 0;
      debouncedState := Idle;
      changed := 0;
      pullType := pulledUpButtons;
      for i := 0 to N
        invariant forall j :: 0 <= j < i ==> state[j] == Idle
        modifies state
      {
        state[i] := Idle;
      }
      Inputs := [];
      assert state[..] == Pad(N);
      AndAllPad(N);
    }

    /** The vote over the ring: the AND of every slot, accumulated slot by
        slot from the idle state. */
    method Revote() returns (vote: bv8)
      requires N == state.Length
      ensures vote == AndAll(state[..])
    {
      vote := Idle;
      for i := 0 to N
        invariant vote == AndAll(state[..i])
      {
        assert state[..i + 1][..i] == state[..i];
        vote := vote & state[i];
      }
      assert state[..N] == state[..];
    }

    /** Takes one raw port sample: stores it normalised in the ring,
        re-votes, advances the cursor and records which lines flipped; the
        samples since Init grow by this one. */
    method Process(portStatus: bv8)
      requires Valid()
      modifies this`index, this`debouncedState, this`changed, this`Inputs, state
      ensures Inputs == old(Inputs) + [portStatus]
      ensures pullType == old(pullType)
      ensures state[..] == old(state[..])[old(index) := Normalize(portStatus, pullType)]
      ensures index == (old(index) + 1) % N
      ensures debouncedState == AndAll(state[..])
      ensures changed == 0 <==> debouncedState == old(debouncedState)
      ensures Valid()
    {
      Store(Normalize(portStatus, pullType));
      Inputs := Inputs + [portStatus];
      StepKeepsValid(portStatus);
    }

    /** The ring update of one call: the sample overwrites the slot under the
        cursor, the debounced state is re-voted over the whole ring, the
        cursor advances and wraps, and the change mask records the lines
        whose debounced state flipped. */
    method Store(sample: bv8)
      requires 1 <= N == state.Length && index < N
      modifies this`index, this`debouncedState, this`changed, state
      ensures state[..] == old(state[..])[old(index) := sample]
      ensures index == (old(index) + 1) % N
      ensures debouncedState == AndAll(state[..])
      ensures changed == debouncedState ^ old(debouncedState)
      ensures changed == 0 <==> debouncedState == old(debouncedState)
    {
      var lastDebouncedState := debouncedState;
      state[index] := sample;
      debouncedState := Revote();
      index := index + 1;
      if index >= N {
        index := 0;
      }
      changed := debouncedState ^ lastDebouncedState;
      CursorStep(old(index), N);
    }

    /** The new fields after one call are one Step of the old ones, so the
        invariant carries over to the samples with the new one appended. */
    twostate lemma StepKeepsValid(portStatus: bv8)
      requires old(Valid())
      requires N == state.Length && pullType == old(pullType)
      requires Inputs == old(Inputs) + [portStatus]
      requires state[..] == old(state[..])[old(index) := Normalize(portStatus, pullType)]
      requires index == (old(index) + 1) % N
      requires debouncedState == AndAll(state[..])
      requires changed == debouncedState ^ old(debouncedState)
      ensures Valid()
    {
      CursorStep(old(index), N);
      NormalizeSnoc(old(Inputs), portStatus, pullType);
      RunSnoc(old(Samples()), N, Normalize(portStatus, pullType));
    }

    /** The lines of `pins` that became active on the last call of Process. */
    function Pressed(pins: bv8): (r: bv8)
      reads this
      ensures r & !pins == 0
      ensures r & !changed == 0
      ensures r & debouncedState == 0
    {
      (changed & !debouncedState) & pins
    }

    /** The lines of `pins` that became idle on the last call of Process. */
    function Released(pins: bv8): (r: bv8)
      reads this
      ensures r & !pins == 0
      ensures r & !changed == 0
      ensures r & !debouncedState == 0
    {
      (changed & debouncedState) & pins
    }

    /** The debounced state in the port's own polarity: the raw level whose
        normalisation is the debounced state. */
    function StateGet(): (r: bv8)
      reads this
      ensures Normalize(r, pullType) == debouncedState
    {
      !(debouncedState ^ pullType)
    }

    /** Every changed line of `pins` is reported as exactly one of pressed
        and released. */
    lemma EdgesSplitChanged(pins: bv8)
      ensures Pressed(pins) & Released(pins) == 0
      ensures Pressed(pins) | Released(pins) == changed & pins
    {
    }

    /** A pressed line went from idle to active on the last call. */
    lemma PressedIsFlip(pins: bv8)
      requires Valid()
      ensures Pressed(pins) == pins & Before(Samples(), N) & !Vote(Samples(), N)
    {
      RunPressed(Samples(), N, pins);
    }

    /** A released line went from active to idle on the last call. */
    lemma ReleasedIsFlip(pins: bv8)
      requires Valid()
      ensures Released(pins) == pins & !Before(Samples(), N) & Vote(Samples(), N)
    {
      RunReleased(Samples(), N, pins);
    }

    /** When the last N raw samples (all of them, when fewer were taken) were
        r, the debounced state is r normalised and the query returns r. */
    lemma SteadyInputState(r: bv8)
      requires Valid()
      requires Inputs != []
      requires forall i :: 0 <= i < |Inputs| && |Inputs| - N <= i ==> Inputs[i] == r
      ensures debouncedState == Normalize(r, pullType)
      ensures StateGet() == r
    {
      RunVote(Samples(), N);
      SteadyVote(Samples(), N, Normalize(r, pullType));
    }

    /** When the last N + 1 raw samples were all equal, the last call flipped
        no line: no press and no release is reported. */
    lemma SteadyInputNoEdges(r: bv8, pins: bv8)
      requires Valid()
      requires |Inputs| > N
      requires forall i :: |Inputs| - N - 1 <= i < |Inputs| ==> Inputs[i] == r
      ensures changed == 0
      ensures Pressed(pins) == 0 && Released(pins) == 0
    {
      var s := Samples();
      var x := Normalize(r, pullType);
      assert forall i :: |s| - N - 1 <= i < |s| ==> s[i] == x;
      RunVote(s, N);
      SteadyNoChange(s, N, x);
    }

    /** Polarity independence: a debouncer with the mirrored pulls that is fed
        the mirrored raw samples holds the same debounced state and change
        mask. */
    lemma MirroredFields(other: Debouncer, q: bv8)
      requires Valid() && other.Valid()
      requires other.N == N && other.pullType == pullType ^ q
      requires other.Inputs == Mirror(Inputs, q)
      ensures other.debouncedState == debouncedState && other.changed == changed
    {
      MirroredSamples(Inputs, pullType, q);
      assert other.Samples() == Samples();
    }

    /** So it reports the same presses and releases. */
    lemma MirroredEdges(other: Debouncer, q: bv8, pins: bv8)
      requires Valid() && other.Valid()
      requires other.N == N && other.pullType == pullType ^ q
      requires other.Inputs == Mirror(Inputs, q)
      ensures other.Pressed(pins) == Pressed(pins)
      ensures other.Released(pins) == Released(pins)
    {
      MirroredFields(other, q);
    }

    /** And its level query differs only by the mirroring. */
    lemma MirroredLevelQuery(other: Debouncer, q: bv8)
      requires Valid() && other.Valid()
      requires other.N == N && other.pullType == pullType ^ q
      requires other.Inputs == Mirror(Inputs, q)
      ensures other.StateGet() == StateGet() ^ q
    {
      MirroredFields(other, q);
      MirroredLevel(debouncedState, pullType, q);
    }
  }
}
