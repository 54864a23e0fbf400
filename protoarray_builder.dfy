/** The fluent builder that collects the settings seeding the fork-choice
    proto-array: the prune threshold, the justified and finalized checkpoints
    and the initial epoch. The builder is a class whose setters assign one
    field in place; `State()` reads the four fields as one value, and each
    setter is specified by `Step` on that value. `Run` replays a chain of
    setter calls, which is what the lemmas at the end reason about. */
module ProtoArrayBuilding {
  import opened Common

  /** Default prune threshold of the fork-choice array (Teku's
      `Constants.PROTOARRAY_FORKCHOICE_PRUNE_THRESHOLD`). */
  const PROTOARRAY_FORKCHOICE_PRUNE_THRESHOLD: Int32 := 256

  /** The first epoch of the chain (`SpecConfig.GENESIS_EPOCH`). */
  const GENESIS_EPOCH: UInt64 := 0

  type Bytes32 = s: seq<bv8> | |s| == 32 witness seq(32, _ => 0)

  /** A checkpoint: an epoch and the root of the block at its start. */
  datatype Checkpoint = Checkpoint(epoch: UInt64, root: Bytes32)

  /** The built fork-choice array, seen only through the four arguments
      its constructor receives. */
  datatype ProtoArray = ProtoArray(
    pruneThreshold: Int32,
    justifiedCheckpoint: Checkpoint,
    finalizedCheckpoint: Checkpoint,
    initialEpoch: UInt64)

  /** The `NullPointerException`s that `checkNotNull` throws, one per message. */
  datatype BuilderError = JustifiedCheckpointNotSupplied | FinalizedCheckpointNotSupplied

  /** The builder's four fields; a null checkpoint is `None`. */
  datatype BuilderState = BuilderState(
    pruneThreshold: Int32,
    justifiedCheckpoint: Option<Checkpoint>,
    finalizedCheckpoint: Option<Checkpoint>,
    initialEpoch: UInt64)

  /** One fluent setter call, with its (possibly null) argument. */
  datatype Call =
    | SetPruneThreshold(threshold: Int32)
    | SetInitialEpoch(epoch: UInt64)
    | SetJustifiedCheckpoint(justified: Option<Checkpoint>)
    | SetFinalizedCheckpoint(finalized: Option<Checkpoint>)
    | SetInitialCheckpoint(initial: Option<Checkpoint>)

  /** The field a setter call assigns. */
  datatype Field = PruneThresholdField | JustifiedField | FinalizedField | InitialEpochField

  function FieldOf(call: Call): Field {
    match call
    case SetPruneThreshold(_) => PruneThresholdField
    case SetInitialEpoch(_) => InitialEpochField
    case SetJustifiedCheckpoint(_) => JustifiedField
    case SetFinalizedCheckpoint(_) => FinalizedField
    case SetInitialCheckpoint(_) => InitialEpochField
  }

  /** A checkpoint setter called with null: it throws before assigning. */
  predicate IsNullCheckpoint(call: Call) {
    (call.SetJustifiedCheckpoint? && call.justified.None?) ||
    (call.SetFinalizedCheckpoint? && call.finalized.None?)
  }

  /** The field values of a freshly constructed builder. */
  function Defaults(): BuilderState {
    BuilderState(PROTOARRAY_FORKCHOICE_PRUNE_THRESHOLD, None, None, GENESIS_EPOCH)
  }

  /** The epoch `initialCheckpoint` hands to `initialEpoch`: the checkpoint's
      epoch when one is present, the genesis epoch when the Optional is empty. */
  function InitialEpochOf(initial: Option<Checkpoint>): (e: UInt64)
    ensures initial.Some? ==> e == initial.value.epoch
    ensures initial.None? ==> e == GENESIS_EPOCH
  {
    match initial
    case Some(c) => c.epoch
    case None => GENESIS_EPOCH
  }

  // What a call stores in each field; None when it leaves that field alone.

  function ThresholdWritten(call: Call): Option<Int32> {
    if call.SetPruneThreshold? then Some(call.threshold) else None
  }

  function JustifiedWritten(call: Call): Option<Option<Checkpoint>> {
    if call.SetJustifiedCheckpoint? then Some(call.justified) else None
  }

  function FinalizedWritten(call: Call): Option<Option<Checkpoint>> {
    if call.SetFinalizedCheckpoint? then Some(call.finalized) else None
  }

  function EpochWritten(call: Call): Option<UInt64> {
    match call
    case SetInitialEpoch(e) => Some(e)
    case SetInitialCheckpoint(c) => Some(InitialEpochOf(c))
    case _ => None
  }

  /** The effect of one setter call: a null checkpoint throws and leaves the
      builder as it was; any other call overwrites exactly its own field. */
  function Step(s: BuilderState, call: Call): (r: Result<BuilderState, BuilderError>)
    ensures r.Err? <==> IsNullCheckpoint(call)
    ensures call.SetJustifiedCheckpoint? && r.Err? ==> r.error == JustifiedCheckpointNotSupplied
    ensures call.SetFinalizedCheckpoint? && r.Err? ==> r.error == FinalizedCheckpointNotSupplied
    ensures r.Ok? ==> r.value.pruneThreshold == ThresholdWritten(call).GetOr(s.pruneThreshold)
    ensures r.Ok? ==> r.value.justifiedCheckpoint == JustifiedWritten(call).GetOr(s.justifiedCheckpoint)
    ensures r.Ok? ==> r.value.finalizedCheckpoint == FinalizedWritten(call).GetOr(s.finalizedCheckpoint)
    ensures r.Ok? ==> r.value.initialEpoch == EpochWritten(call).GetOr(s.initialEpoch)
  {
    match call
    case SetPruneThreshold(t) => Ok(s.(pruneThreshold := t))
    case SetInitialEpoch(e) => Ok(s.(initialEpoch := e))
    case SetJustifiedCheckpoint(c) =>
      if c.None? then Err(JustifiedCheckpointNotSupplied) else Ok(s.(justifiedCheckpoint := c))
    case SetFinalizedCheckpoint(c) =>
      if c.None? then Err(FinalizedCheckpointNotSupplied) else Ok(s.(finalizedCheckpoint := c))
    case SetInitialCheckpoint(c) => Ok(s.(initialEpoch := InitialEpochOf(c)))
  }

  /** A chain of setter calls, run in order; the first exception ends the chain. */
  function Run(s: BuilderState, calls: seq<Call>): (r: Result<BuilderState, BuilderError>)
    ensures r.Err? <==> exists i :: 0 <= i < |calls| && IsNullCheckpoint(calls[i])
    decreases |calls|
  {
    if calls == [] then Ok(s)
    else
      match Step(s, calls[0])
      case Err(e) => Err(e)
      case Ok(t) =>
        var r := Run(t, calls[1..]);
        assert forall i :: 1 <= i < |calls| ==> calls[1..][i - 1] == calls[i];
        r
  }

  /** `build()`: both checkpoints must have been supplied; the justified
      checkpoint is checked first. The result carries the builder's values. */
  function BuildOf(s: BuilderState): (r: Result<ProtoArray, BuilderError>)
    ensures s.justifiedCheckpoint.None? ==> r == Err(JustifiedCheckpointNotSupplied)
    ensures s.justifiedCheckpoint.Some? && s.finalizedCheckpoint.None? ==> r == Err(FinalizedCheckpointNotSupplied)
    ensures r.Ok? <==> s.justifiedCheckpoint.Some? && s.finalizedCheckpoint.Some?
    ensures r.Ok? ==> r.value.pruneThreshold == s.pruneThreshold
    ensures r.Ok? ==> Some(r.value.justifiedCheckpoint) == s.justifiedCheckpoint
    ensures r.Ok? ==> Some(r.value.finalizedCheckpoint) == s.finalizedCheckpoint
    ensures r.Ok? ==> r.value.initialEpoch == s.initialEpoch
  {
    match (s.justifiedCheckpoint, s.finalizedCheckpoint)
    case (None, _) => Err(JustifiedCheckpointNotSupplied)
    case (Some(_), None) => Err(FinalizedCheckpointNotSupplied)
    case (Some(j), Some(f)) => Ok(ProtoArray(s.pruneThreshold, j, f, s.initialEpoch))
  }

  class ProtoArrayBuilder {
    var pruneThreshold: Int32
    var justifiedCheckpoint: Option<Checkpoint>
    var finalizedCheckpoint: Option<Checkpoint>
    var initialEpoch: UInt64

    /** The four fields as one value. */
    function State(): BuilderState
      reads this
    {
      BuilderState(pruneThreshold, justifiedCheckpoint, finalizedCheckpoint, initialEpoch)
    }

    constructor ()
      ensures State() == Defaults()
    {
      pruneThreshold := PROTOARRAY_FORKCHOICE_PRUNE_THRESHOLD;
      justifiedCheckpoint := None;
      finalizedCheckpoint := None;
      initialEpoch := GENESIS_EPOCH;
    }

    method Build() returns (r: Result<ProtoArray, BuilderError>)
      ensures r == BuildOf(State())
    {
      if justifiedCheckpoint.None? {
        return Err(JustifiedCheckpointNotSupplied);
      }
      if finalizedCheckpoint.None? {
        return Err(FinalizedCheckpointNotSupplied);
      }
      r := Ok(ProtoArray(pruneThreshold, justifiedCheckpoint.value, finalizedCheckpoint.value, initialEpoch));
    }

    method PruneThreshold(threshold: Int32) returns (self: ProtoArrayBuilder)
      modifies this
      ensures self == this
      ensures State() == Step(old(State()), SetPruneThreshold(threshold)).value
    {
      pruneThreshold := threshold;
      self := this;
    }

    method InitialEpoch(epoch: UInt64) returns (self: ProtoArrayBuilder)
      modifies this
      ensures self == this
      ensures State() == Step(old(State()), SetInitialEpoch(epoch)).value
    {
      initialEpoch := epoch;
      self := this;
    }

    method JustifiedCheckpoint(justified: Option<Checkpoint>) returns (r: Result<ProtoArrayBuilder, BuilderError>)
      modifies this
      ensures r.Err? <==> justified.None?
      ensures r.Err? ==> r.error == JustifiedCheckpointNotSupplied && State() == old(State())
      ensures r.Ok? ==> r.value == this && State() == Step(old(State()), SetJustifiedCheckpoint(justified)).value
    {
      if justified.None? {
        return Err(JustifiedCheckpointNotSupplied);
      }
      justifiedCheckpoint := justified;
      r := Ok(this);
    }

    method FinalizedCheckpoint(finalized: Option<Checkpoint>) returns (r: Result<ProtoArrayBuilder, BuilderError>)
      modifies this
      ensures r.Err? <==> finalized.None?
      ensures r.Err? ==> r.error == FinalizedCheckpointNotSupplied && State() == old(State())
      ensures r.Ok? ==> r.value == this && State() == Step(old(State()), SetFinalizedCheckpoint(finalized)).value
    {
      if finalized.None? {
        return Err(FinalizedCheckpointNotSupplied);
      }
      finalizedCheckpoint := finalized;
      r := Ok(this);
    }

    /** Delegates to `InitialEpoch`, as the source does in both branches. */
    method InitialCheckpoint(initial: Option<Checkpoint>) returns (self: ProtoArrayBuilder)
      modifies this
      ensures self == this
      ensures State() == Step(old(State()), SetInitialCheckpoint(initial)).value
    {
      var ignored;
      match initial {
        case Some(c) => ignored := InitialEpoch(c.epoch);
        case None => ignored := InitialEpoch(GENESIS_EPOCH);
      }
      self := this;
    }
  }

  // ---------------------------------------------------------------------------
  // Properties of chains of setter calls

  /** Running one more call is running the chain, then that call. */
  lemma {:induction false} RunSnoc(s: BuilderState, calls: seq<Call>, c: Call)
    ensures Run(s, calls + [c]) == match Run(s, calls) case Ok(t) => Step(t, c) case Err(e) => Err(e)
    decreases |calls|
  {
    if calls == [] {
      assert [c][1..] == [];
    } else {
      assert (calls + [c])[1..] == calls[1..] + [c];
      match Step(s, calls[0])
      case Err(_) =>
      case Ok(t) => RunSnoc(t, calls[1..], c);
    }
  }

  /** Last write wins: after a chain that throws nothing, every field holds the
      value of the last call that wrote it, or its earlier value if none did. */
  lemma {:induction false} RunIsLastWrite(s: BuilderState, calls: seq<Call>)
    requires Run(s, calls).Ok?
    ensures Run(s, calls).value == BuilderState(
      LastWritten(calls, ThresholdWritten, s.pruneThreshold),
      LastWritten(calls, JustifiedWritten, s.justifiedCheckpoint),
      LastWritten(calls, FinalizedWritten, s.finalizedCheckpoint),
      LastWritten(calls, EpochWritten, s.initialEpoch))
    decreases |calls|
  {
    if calls != [] {
      var n := |calls| - 1;
      var prefix, c := calls[..n], calls[n];
      assert calls == prefix + [c];
      RunSnoc(s, prefix, c);
      RunIsLastWrite(s, prefix);
      LastWrittenSnoc(prefix, c, ThresholdWritten, s.pruneThreshold);
      LastWrittenSnoc(prefix, c, JustifiedWritten, s.justifiedCheckpoint);
      LastWrittenSnoc(prefix, c, FinalizedWritten, s.finalizedCheckpoint);
      LastWrittenSnoc(prefix, c, EpochWritten, s.initialEpoch);
    }
  }

  /** A fresh builder followed by a chain of calls that throws nothing builds
      exactly when the chain supplied a justified and a finalized checkpoint;
      the ProtoArray then carries the last value written to each field. */
  lemma BuildAfterCalls(calls: seq<Call>)
    requires Run(Defaults(), calls).Ok?
    ensures BuildOf(Run(Defaults(), calls).value).Ok? <==>
      (exists i :: 0 <= i < |calls| && calls[i].SetJustifiedCheckpoint?) &&
      (exists i :: 0 <= i < |calls| && calls[i].SetFinalizedCheckpoint?)
    ensures BuildOf(Run(Defaults(), calls).value).Ok? ==>
      var p := BuildOf(Run(Defaults(), calls).value).value;
      && p.pruneThreshold == LastWritten(calls, ThresholdWritten, PROTOARRAY_FORKCHOICE_PRUNE_THRESHOLD)
      && p.initialEpoch == LastWritten(calls, EpochWritten, GENESIS_EPOCH)
      && (exists i :: IsLastWrite(calls, JustifiedWritten, i, Some(p.justifiedCheckpoint)))
      && (exists i :: IsLastWrite(calls, FinalizedWritten, i, Some(p.finalizedCheckpoint)))
  {
    RunIsLastWrite(Defaults(), calls);
    var t := Run(Defaults(), calls).value;
    // A checkpoint field is None only while no call wrote it: every write
    // to it in a chain that did not throw carried a checkpoint.
    assert t.justifiedCheckpoint.None? <==> NoWrite(calls, JustifiedWritten) by {
      if !NoWrite(calls, JustifiedWritten) {
        var i :| IsLastWrite(calls, JustifiedWritten, i, t.justifiedCheckpoint);
        assert !IsNullCheckpoint(calls[i]);
      }
    }
    assert t.finalizedCheckpoint.None? <==> NoWrite(calls, FinalizedWritten) by {
      if !NoWrite(calls, FinalizedWritten) {
        var i :| IsLastWrite(calls, FinalizedWritten, i, t.finalizedCheckpoint);
        assert !IsNullCheckpoint(calls[i]);
      }
    }
  }

  /** A freshly constructed builder cannot build: no justified checkpoint yet. */
  lemma FreshBuilderCannotBuild()
    ensures BuildOf(Defaults()) == Err(JustifiedCheckpointNotSupplied)
  {
  }

  /** Calls that assign different fields commute. */
  lemma IndependentCallsCommute(s: BuilderState, a: Call, b: Call)
    requires FieldOf(a) != FieldOf(b)
    requires Run(s, [a, b]).Ok?
    ensures Run(s, [b, a]) == Run(s, [a, b])
  {
  }

  /** Of two calls that assign the same field, the later one wins. */
  lemma LaterCallWins(s: BuilderState, a: Call, b: Call)
    requires FieldOf(a) == FieldOf(b)
    requires Run(s, [a, b]).Ok?
    ensures Run(s, [a, b]) == Step(s, b)
  {
    assert [a, b][1..] == [b] && [b][1..] == [];
    assert !IsNullCheckpoint(a) && !IsNullCheckpoint(b) by {
      assert [a, b][0] == a && [a, b][1] == b;
    }
    var t := Step(s, a).value;
    assert Run(s, [a, b]) == Run(t, [b]);
    assert Run(t, [b]) == Step(t, b);
  }

  /** `initialCheckpoint` overrides an earlier `initialEpoch` in both branches:
      an empty Optional resets the epoch to genesis. */
  lemma InitialCheckpointOverridesInitialEpoch(s: BuilderState, e: UInt64, c: Option<Checkpoint>)
    ensures Run(s, [SetInitialEpoch(e), SetInitialCheckpoint(c)]).Ok?
    ensures Run(s, [SetInitialEpoch(e), SetInitialCheckpoint(c)]).value.initialEpoch
         == if c.Some? then c.value.epoch else GENESIS_EPOCH
  {
    LaterCallWins(s, SetInitialEpoch(e), SetInitialCheckpoint(c));
  }

  /** The prune threshold is never validated: whatever `int` it holds, the
      outcome of `build()` depends only on the two checkpoints. */
  lemma BuildIgnoresPruneThreshold(s: BuilderState, threshold: Int32)
    ensures BuildOf(s.(pruneThreshold := threshold)).Ok? == BuildOf(s).Ok?
  {
  }
}
