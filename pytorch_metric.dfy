/** `PytorchBaseMetric`: a registry of named states, the wrapped `update` and
    `compute`, the `sync`/`unsync` protocol and the two `forward` strategies.

    Python states are objects that `update` may change in place (`+=`,
    `append`) or replace (`=`), and the snapshots `forward` takes hold
    references to those objects. The states are modelled by value; where a
    snapshot is read after an update, `ThroughOldObjects` gives what the
    references show: the new value for a state changed in place, the
    snapshot's own value for a state that was rebound. */
module PytorchMetric {
  import opened Wrappers
  import opened MetricState

  const DeviceMessage: string := "Expected all tensors to be on"

  /** Whether `part` occurs in `s` (Python's `part in s`). */
  predicate Contains(s: string, part: string)
    decreases |s|
  {
    part <= s || (|s| > 0 && Contains(s[1..], part))
  }

  /** What the wrapped `update` raises for an error of the metric's own
      `update`: a device mismatch for a `RuntimeError` that mentions tensors
      on different devices, the original error otherwise. */
  function WrapUpdateError(e: UpdateError): (r: MetricError)
    ensures r.DeviceMismatch? <==> e.RuntimeError? && Contains(e.message, DeviceMessage)
    ensures r.DeviceMismatch? ==> r.cause == e
    ensures !r.DeviceMismatch? ==> r == UpdateFailed(e)
  {
    if e.RuntimeError? && Contains(e.message, DeviceMessage) then DeviceMismatch(e) else UpdateFailed(e)
  }

  /** Only a `RuntimeError` about devices is rewritten. */
  lemma DeviceErrorsRewritten()
    ensures WrapUpdateError(RuntimeError("Expected all tensors to be on the same device")).DeviceMismatch?
    ensures WrapUpdateError(OtherError(DeviceMessage)) == UpdateFailed(OtherError(DeviceMessage))
  {
    var message := "Expected all tensors to be on the same device";
    assert DeviceMessage <= message;
  }

  /** The value every state returns to on `reset`. */
  function ResetValues(entries: map<string, Entry>): (r: map<string, StateVal>)
    ensures r.Keys == entries.Keys
    ensures forall k :: k in entries ==> r[k] == ResetValue(entries[k].default)
  {
    map k | k in entries :: ResetValue(entries[k].default)
  }

  function Reductions(entries: map<string, Entry>): (r: map<string, Reduction>)
    ensures r.Keys == entries.Keys
    ensures forall k :: k in entries ==> r[k] == entries[k].reduction
  {
    map k | k in entries :: entries[k].reduction
  }

  /** The states an update rebinds to new objects (`self.x = ...`). */
  function Assigned(changes: map<string, Change>, names: set<string>): (r: set<string>)
    ensures r <= names
    ensures forall k :: k in r <==> k in names && k in changes && changes[k].Assign?
  {
    set k | k in names && k in changes && changes[k].Assign?
  }

  /** What a reference to each state's object, taken before an update,
      reads after it: the new value when the object was changed in place,
      the old value when the state was rebound to a new object. */
  function ThroughOldObjects(before: map<string, StateVal>, after: map<string, StateVal>,
                             rebound: set<string>): (r: map<string, StateVal>)
    requires before.Keys == after.Keys
    ensures r.Keys == before.Keys
    ensures forall k :: k in before && k in rebound ==> r[k] == before[k]
    ensures forall k :: k in before && k !in rebound ==> r[k] == after[k]
  {
    map k | k in before :: if k in rebound then before[k] else after[k]
  }

  /** When every state was rebound, old references still read the old values. */
  lemma ThroughRebound(before: map<string, StateVal>, after: map<string, StateVal>, rebound: set<string>)
    requires before.Keys == after.Keys && before.Keys <= rebound
    ensures ThroughOldObjects(before, after, rebound) == before
  {
  }

  ghost predicate Wf(names: seq<string>, entries: map<string, Entry>, state: map<string, StateVal>,
                     cache: Option<map<string, StateVal>>)
  {
    (forall i, j :: 0 <= i < j < |names| ==> names[i] != names[j])
    && (forall k :: k in state <==> k in names)
    && entries.Keys == state.Keys
    && (cache.Some? ==> cache.value.Keys <= state.Keys)
  }

  lemma AppendKeepsDistinct(names: seq<string>, name: string)
    requires forall i, j :: 0 <= i < j < |names| ==> names[i] != names[j]
    ensures var names' := if name in names then names else names + [name];
      forall i, j :: 0 <= i < j < |names'| ==> names'[i] != names'[j]
  {
    if name !in names {
      var names' := names + [name];
      forall i, j | 0 <= i < j < |names'| ensures names'[i] != names'[j] {
        if j == |names| {
          assert names[i] in names;
        }
      }
    }
  }

  /** How `update`'s signature declares a parameter (`inspect.Parameter.kind`). */
  datatype ParamKind = PositionalOnly | PositionalOrKeyword | VarPositional | KeywordOnly | VarKeyword

  predicate Variadic(kind: ParamKind)
  {
    kind == VarPositional || kind == VarKeyword
  }

  predicate HasVarKeyword(signature: map<string, ParamKind>)
  {
    exists p :: p in signature && signature[p] == VarKeyword
  }

  /** `_filter_kwargs`: the keyword arguments that name a non-variadic
      parameter of `update`, or all of them when `update` takes `**kwargs`. */
  function FilterKwargs<T>(signature: map<string, ParamKind>, kwargs: map<string, T>): (r: map<string, T>)
    ensures HasVarKeyword(signature) ==> r == kwargs
    ensures !HasVarKeyword(signature) ==>
      (forall k :: k in r <==> k in kwargs && k in signature && !Variadic(signature[k]))
    ensures forall k :: k in r ==> k in kwargs && r[k] == kwargs[k]
  {
    var filtered := map k | k in kwargs && k in signature && !Variadic(signature[k]) :: kwargs[k];
    if |filtered| == 0 && !HasVarKeyword(signature) then map[]
    else if HasVarKeyword(signature) then kwargs
    else filtered
  }

  /** Without `**kwargs` in the signature, arguments that name no usable
      parameter are dropped, and none survive when none matches. */
  lemma FilterKwargsDropsUnknown<T>(signature: map<string, ParamKind>, kwargs: map<string, T>)
    requires !HasVarKeyword(signature)
    ensures forall k :: k in kwargs && k !in signature ==> k !in FilterKwargs(signature, kwargs)
    ensures (forall k :: k in kwargs ==> k !in signature || Variadic(signature[k])) ==> FilterKwargs(signature, kwargs) == map[]
  {
  }

  /** A prediction tensor: one value per sample, or one row of class scores
      per sample. */
  datatype PredictionData = Flat(values: seq<real>) | Scores(width: nat, rows: seq<seq<real>>)

  /** A two-dimensional tensor has `width` entries in every row. */
  predicate Rectangular(p: PredictionData)
  {
    p.Scores? ==> forall i :: 0 <= i < |p.rows| ==> |p.rows[i]| == p.width
  }

  type Predictions = p: PredictionData | Rectangular(p) witness Flat([])

  datatype ThresholdError = ColumnOutOfRange

  /** `PytorchBaseMetric.apply_threshold`: a 1-D tensor is returned as it
      is; a 2-D one becomes 1.0 where column 1 is strictly above the
      threshold and 0.0 elsewhere; indexing column 1 of a narrower tensor
      raises. */
  function ApplyThreshold(predicted: Predictions, threshold: real): (r: Result<seq<real>, ThresholdError>)
    ensures predicted.Flat? ==> r == Ok(predicted.values)
    ensures predicted.Scores? ==> (r.Ok? <==> predicted.width >= 2)
    ensures r.Ok? && predicted.Scores? ==> |r.value| == |predicted.rows|
    ensures r.Ok? && predicted.Scores? ==>
      forall i :: 0 <= i < |predicted.rows| ==>
        (r.value[i] == 1.0 <==> predicted.rows[i][1] > threshold) && (r.value[i] == 0.0 || r.value[i] == 1.0)
  {
    match predicted
    case Flat(values) => Ok(values)
    case Scores(width, rows) =>
      if width < 2 then Err(ColumnOutOfRange)
      else Ok(seq(|rows|, i requires 0 <= i < |rows| => if rows[i][1] > threshold then 1.0 else 0.0))
  }

  /** A metric in the style of `PytorchBaseMetric`: `B` is what one call of
      `update` receives, `V` what `compute` returns. */
  class Metric<B, V> {
    /** The subclass's `update`: the change it makes to each state. */
    const updateFn: (map<string, StateVal>, B) -> Result<map<string, Change>, UpdateError>
    /** The subclass's `compute` over the current states. */
    const computeFn: map<string, StateVal> -> V
    /** `_sync_dist` for one state: the all-gather across processes and the
        state's reduction, performed by the distributed backend. */
    const gatherFn: (string, StateVal) -> StateVal
    /** Whether the subclass overrides `reset` with a method that does nothing. */
    const resetIsNoOp: bool
    const fullStateUpdate: Option<bool>
    const distSyncOnStep: bool
    const syncOnCompute: bool
    /** What `jit_distributed_available()` answers. */
    const distributed: bool

    /** `_defaults` in declaration order. */
    var names: seq<string>
    /** `_defaults`, `_reductions` and `_persistent`, by state name. */
    var entries: map<string, Entry>
    /** The value of every state attribute. */
    var state: map<string, StateVal>
    var updateCount: nat
    var computed: Option<V>
    var forwardCache: Option<V>
    var isSynced: bool
    var cache: Option<map<string, StateVal>>
    var toSync: bool
    var shouldUnsync: bool
    /** Whether the last `compute` warned that no `update` had happened. */
    ghost var warnedBeforeUpdate: bool

    ghost predicate Valid()
      reads this`names, this`entries, this`state, this`cache
    {
      Wf(names, entries, state, cache)
    }

    /** The states after `update` with `batch` from `start`, or the error the
        wrapped `update` raises. */
    function Updated(order: seq<string>, start: map<string, StateVal>, batch: B): (r: Result<map<string, StateVal>, MetricError>)
      ensures r.Ok? ==> r.value.Keys == start.Keys && updateFn(start, batch).Ok?
      ensures r.Err? ==> r.error.DeviceMismatch? || r.error.UpdateFailed?
    {
      match updateFn(start, batch)
      case Err(e) => Err(WrapUpdateError(e))
      case Ok(changes) =>
        match ApplyChanges(order, start, changes)
        case Err(e) => Err(WrapUpdateError(e))
        case Ok(values) => Ok(values)
    }

    /** The states `update` with `batch` leaves from `start`: the updated
        states when it succeeds; the states as they were when the metric's
        own `update` raises; the changes before the failing one when one of
        its changes fails. */
    function AfterUpdate(order: seq<string>, start: map<string, StateVal>, batch: B): (r: map<string, StateVal>)
      ensures r.Keys == start.Keys
      ensures Updated(order, start, batch).Ok? ==> r == Updated(order, start, batch).value
      ensures updateFn(start, batch).Err? ==> r == start
    {
      match updateFn(start, batch)
      case Err(_) => start
      case Ok(changes) => PartlyApplied(order, start, changes)
    }

    /** The states `update` with `batch` rebinds when it succeeds from `start`. */
    function Rebinds(start: map<string, StateVal>, batch: B): set<string>
      requires updateFn(start, batch).Ok?
    {
      Assigned(updateFn(start, batch).value, start.Keys)
    }

    /** What `_sync_dist` leaves in the states. */
    function Gathered(s: map<string, StateVal>): (r: map<string, StateVal>)
      ensures r.Keys == s.Keys
      ensures forall k :: k in s ==> r[k] == gatherFn(k, s[k])
    {
      map k | k in s :: gatherFn(k, s[k])
    }

    /** The states `compute` sees when it runs with `_to_sync` set to `sync`
        on a metric that is not synced. */
    function SyncedView(s: map<string, StateVal>, sync: bool): map<string, StateVal>
    {
      if sync && distributed then Gathered(s) else s
    }

    /** Where the batch-only update of `forward` starts: the defaults after
        a real `reset`, the states as they are after a no-op one. */
    function BatchStart(entries: map<string, Entry>, s: map<string, StateVal>): map<string, StateVal>
    {
      if resetIsNoOp then s else ResetValues(entries)
    }

    /** `_forward_full_state_update` from states `s`: the batch value and
        the states left behind. */
    ghost function FullForward(order: seq<string>, entries: map<string, Entry>, s: map<string, StateVal>, batch: B): Result<(V, map<string, StateVal>), MetricError>
    {
      match Updated(order, s, batch)
      case Err(e) => Err(e)
      case Ok(s1) =>
        match Updated(order, BatchStart(entries, s1), batch)
        case Err(e) => Err(e)
        case Ok(s2) =>
          var restored := if resetIsNoOp then ThroughOldObjects(s1, s2, Rebinds(BatchStart(entries, s1), batch)) else s1;
          Ok((computeFn(SyncedView(s2, distSyncOnStep)), restored))
    }

    /** The states `_forward_full_state_update` leaves from `s`, whether it
        succeeds or not: when the global update fails, what it left; when
        the batch update fails, what that one left from the reset states,
        with nothing put back; otherwise the states put back. */
    ghost function FullForwardState(order: seq<string>, entries: map<string, Entry>, s: map<string, StateVal>, batch: B): (r: map<string, StateVal>)
      ensures FullForward(order, entries, s, batch).Ok? ==> r == FullForward(order, entries, s, batch).value.1
      ensures Updated(order, s, batch).Err? ==> r == AfterUpdate(order, s, batch)
    {
      match Updated(order, s, batch)
      case Err(_) => AfterUpdate(order, s, batch)
      case Ok(s1) =>
        match Updated(order, BatchStart(entries, s1), batch)
        case Err(_) => AfterUpdate(order, BatchStart(entries, s1), batch)
        case Ok(_) => FullForward(order, entries, s, batch).value.1
    }

    /** `_forward_reduce_state_update` from states `s` after `count` updates:
        the batch value and the merged states. */
    ghost function ReducedForward(order: seq<string>, entries: map<string, Entry>, s: map<string, StateVal>, count: nat, batch: B): Result<(V, map<string, StateVal>), MetricError>
      requires forall k :: k in order ==> k in s && k in entries
    {
      match Updated(order, BatchStart(entries, s), batch)
      case Err(e) => Err(e)
      case Ok(local) =>
        var global := if resetIsNoOp then ThroughOldObjects(s, local, Rebinds(s, batch)) else s;
        match ReduceAll(order, Reductions(entries), global, local, count + 1)
        case Err(e) => Err(e)
        case Ok(merged) => Ok((computeFn(local), merged))
    }

    /** The states `_forward_reduce_state_update` leaves from `s` after
        `count` updates, whether it succeeds or not: when the batch update
        fails, what it left from the reset states, the global ones lost;
        otherwise the merge with the global states, partial when one state
        fails to merge. */
    ghost function ReducedForwardState(order: seq<string>, entries: map<string, Entry>, s: map<string, StateVal>, count: nat, batch: B): (r: map<string, StateVal>)
      requires forall k :: k in order ==> k in s && k in entries
      ensures ReducedForward(order, entries, s, count, batch).Ok? ==> r == ReducedForward(order, entries, s, count, batch).value.1
      ensures Updated(order, BatchStart(entries, s), batch).Err? ==> r == AfterUpdate(order, BatchStart(entries, s), batch)
    {
      match Updated(order, BatchStart(entries, s), batch)
      case Err(_) => AfterUpdate(order, BatchStart(entries, s), batch)
      case Ok(local) =>
        var global := if resetIsNoOp then ThroughOldObjects(s, local, Rebinds(s, batch)) else s;
        PartlyReduced(order, Reductions(entries), global, local, count + 1)
    }

    /** The three outcomes of `FullForward`, one step at a time. */
    lemma FullForwardSteps(order: seq<string>, entries: map<string, Entry>, s: map<string, StateVal>, batch: B)
      ensures Updated(order, s, batch).Err? ==> FullForward(order, entries, s, batch) == Err(Updated(order, s, batch).error)
      ensures Updated(order, s, batch).Ok? && Updated(order, BatchStart(entries, Updated(order, s, batch).value), batch).Err? ==>
        FullForward(order, entries, s, batch) == Err(Updated(order, BatchStart(entries, Updated(order, s, batch).value), batch).error)
      ensures Updated(order, s, batch).Ok? && Updated(order, BatchStart(entries, Updated(order, s, batch).value), batch).Ok? ==>
        var s1 := Updated(order, s, batch).value;
        var s2 := Updated(order, BatchStart(entries, s1), batch).value;
        FullForward(order, entries, s, batch) ==
          Ok((computeFn(SyncedView(s2, distSyncOnStep)),
              if resetIsNoOp then ThroughOldObjects(s1, s2, Rebinds(BatchStart(entries, s1), batch)) else s1))
    {
    }

    /** Why `full_state_update = False` is sound for an additive metric:
        when `reset` really restores the defaults, every state is
        sum-reduced from a zero tensor default of its own shape, and
        `update` only adds in place amounts that do not depend on the
        states, the reduced `forward` leaves exactly the states a direct
        `update` of the global states leaves. */
    lemma {:induction false} ReducedForwardIsDirectUpdate(order: seq<string>, entries: map<string, Entry>, s: map<string, StateVal>,
                                                         count: nat, batch: B)
      requires !resetIsNoOp
      requires forall i, j :: 0 <= i < j < |order| ==> order[i] != order[j]
      requires forall k :: k in s <==> k in order
      requires entries.Keys == s.Keys
      requires forall k :: k in order ==>
        entries[k].reduction == SumReduction && entries[k].default.TensorState? && IsZero(entries[k].default.tensor)
        && s[k].TensorState? && s[k].tensor.shape == entries[k].default.tensor.shape
        && |s[k].tensor.data| == |entries[k].default.tensor.data|
      requires updateFn(ResetValues(entries), batch) == updateFn(s, batch)
      requires updateFn(s, batch).Ok? ==> forall k :: k in updateFn(s, batch).value ==> updateFn(s, batch).value[k].AddInPlace?
      requires Updated(order, s, batch).Ok?
      ensures ReducedForward(order, entries, s, count, batch).Ok?
      ensures ReducedForward(order, entries, s, count, batch).value.1 == Updated(order, s, batch).value
    {
      var changes := updateFn(s, batch).value;
      SumMergeOfZeroBasedBatch(order, Reductions(entries), ResetValues(entries), s, changes, count + 1);
      assert Updated(order, BatchStart(entries, s), batch) == Ok(ApplyChanges(order, ResetValues(entries), changes).value);
    }

    /** `ReducedForward` fails with the batch update's error. */
    lemma ReducedForwardUpdateFails(order: seq<string>, entries: map<string, Entry>, s: map<string, StateVal>, count: nat, batch: B)
      requires forall k :: k in order ==> k in s && k in entries
      requires Updated(order, BatchStart(entries, s), batch).Err?
      ensures ReducedForward(order, entries, s, count, batch) == Err(Updated(order, BatchStart(entries, s), batch).error)
    {
    }

    /** `ReducedForward` fails with the merge's error. */
    lemma ReducedForwardMergeFails(order: seq<string>, entries: map<string, Entry>, s: map<string, StateVal>, count: nat, batch: B,
                                   local: map<string, StateVal>, global: map<string, StateVal>)
      requires forall k :: k in order ==> k in s && k in entries
      requires Updated(order, BatchStart(entries, s), batch) == Ok(local)
      requires resetIsNoOp ==> global == ThroughOldObjects(s, local, Rebinds(s, batch))
      requires !resetIsNoOp ==> global == s
      requires ReduceAll(order, Reductions(entries), global, local, count + 1).Err?
      ensures ReducedForward(order, entries, s, count, batch) == Err(ReduceAll(order, Reductions(entries), global, local, count + 1).error)
    {
    }

    /** A successful `ReducedForward`, from the batch states and the merged ones. */
    lemma ReducedForwardFrom(order: seq<string>, entries: map<string, Entry>, s: map<string, StateVal>, count: nat, batch: B,
                             local: map<string, StateVal>, global: map<string, StateVal>, merged: map<string, StateVal>)
      requires forall k :: k in order ==> k in s && k in entries
      requires Updated(order, BatchStart(entries, s), batch) == Ok(local)
      requires resetIsNoOp ==> global == ThroughOldObjects(s, local, Rebinds(s, batch))
      requires !resetIsNoOp ==> global == s
      requires ReduceAll(order, Reductions(entries), global, local, count + 1) == Ok(merged)
      ensures ReducedForward(order, entries, s, count, batch) == Ok((computeFn(local), merged))
    {
    }

    constructor(updateFn: (map<string, StateVal>, B) -> Result<map<string, Change>, UpdateError>,
                computeFn: map<string, StateVal> -> V, gatherFn: (string, StateVal) -> StateVal,
                resetIsNoOp: bool, fullStateUpdate: Option<bool>, distSyncOnStep: bool,
                syncOnCompute: bool, distributed: bool)
      ensures Valid()
      ensures this.updateFn == updateFn && this.computeFn == computeFn && this.gatherFn == gatherFn
      ensures this.resetIsNoOp == resetIsNoOp && this.fullStateUpdate == fullStateUpdate
      ensures this.distSyncOnStep == distSyncOnStep && this.syncOnCompute == syncOnCompute
      ensures this.distributed == distributed
      ensures names == [] && entries == map[] && state == map[]
      ensures updateCount == 0 && computed.None? && forwardCache.None?
      ensures !isSynced && cache.None? && toSync == syncOnCompute && shouldUnsync
    {
      this.updateFn := updateFn;
      this.computeFn := computeFn;
      this.gatherFn := gatherFn;
      this.resetIsNoOp := resetIsNoOp;
      this.fullStateUpdate := fullStateUpdate;
      this.distSyncOnStep := distSyncOnStep;
      this.syncOnCompute := syncOnCompute;
      this.distributed := distributed;
      names := [];
      entries := map[];
      state := map[];
      updateCount := 0;
      computed := None;
      forwardCache := None;
      isSynced := false;
      cache := None;
      toSync := syncOnCompute;
      shouldUnsync := true;
      warnedBeforeUpdate := false;
    }

    /** `add_state`: the default is checked first, then the reduction; on
        success the state is set to the default and its registry entry
        recorded (a second `add_state` of a name replaces it). */
    method AddState(name: string, default: DefaultSpec, reduce: ReduceSpec, persistent: bool) returns (r: Outcome<MetricError>)
      requires Valid()
      modifies this`names, this`entries, this`state
      ensures Valid()
      ensures CheckDefault(default).Err? ==> r == Fail(InvalidDefault) && unchanged(this)
      ensures CheckDefault(default).Ok? && ResolveReduction(reduce).Err? ==> r == Fail(InvalidReduction) && unchanged(this)
      ensures CheckDefault(default).Ok? && ResolveReduction(reduce).Ok? ==>
        r.Pass?
        && names == (if name in old(names) then old(names) else old(names) + [name])
        && entries == old(entries)[name := Entry(CheckDefault(default).value, ResolveReduction(reduce).value, persistent)]
        && state == old(state)[name := CheckDefault(default).value]
    {
      var value := CheckDefault(default);
      if value.Err? {
        return Fail(value.error);
      }
      var reduction := ResolveReduction(reduce);
      if reduction.Err? {
        return Fail(reduction.error);
      }
      AppendKeepsDistinct(names, name);
      if name !in names {
        names := names + [name];
      }
      state := state[name := value.value];
      entries := entries[name := Entry(value.value, reduction.value, persistent)];
      r := Pass;
    }

    /** `persistent(mode)`: every state's flag set to `mode`. */
    method Persistent(mode: bool)
      requires Valid()
      modifies this`entries
      ensures Valid()
      ensures entries.Keys == old(entries).Keys
      ensures forall k :: k in entries ==> entries[k] == old(entries)[k].(persistent := mode)
    {
      entries := map k | k in entries :: entries[k].(persistent := mode);
    }

    /** `PytorchBaseMetric.reset`: counters and caches cleared, every state
        given a new object holding its default. */
    method BaseReset()
      requires Valid()
      modifies this`updateCount, this`forwardCache, this`computed, this`state, this`cache, this`isSynced
      ensures Valid()
      ensures updateCount == 0 && forwardCache.None? && computed.None? && cache.None? && !isSynced
      ensures state == ResetValues(entries)
    {
      updateCount := 0;
      forwardCache := None;
      computed := None;
      state := ResetValues(entries);
      cache := None;
      isSynced := false;
    }

    /** `reset()` as the metric's class defines it. */
    method Reset()
      requires Valid()
      modifies this`updateCount, this`forwardCache, this`computed, this`state, this`cache, this`isSynced
      ensures Valid()
      ensures resetIsNoOp ==> unchanged(this)
      ensures !resetIsNoOp ==>
        updateCount == 0 && forwardCache.None? && computed.None? && cache.None? && !isSynced
      ensures state == BatchStart(entries, old(state))
    {
      if !resetIsNoOp {
        BaseReset();
      }
    }

    /** The wrapped `update`: the cached result dropped and the count
        raised before the metric's own `update` runs; its errors are
        rewritten by `WrapUpdateError`. `rebound` names the states it gave
        new objects. When the metric's own `update` raises, the states are as
        they were; when one of its changes fails, the changes before it stay
        made. */
    method Update(batch: B) returns (r: Outcome<MetricError>, rebound: set<string>)
      requires Valid()
      modifies this`computed, this`updateCount, this`state
      ensures Valid()
      ensures computed.None? && updateCount == old(updateCount) + 1
      ensures Updated(names, old(state), batch).Err? ==> r == Fail(Updated(names, old(state), batch).error)
      ensures state == AfterUpdate(names, old(state), batch)
      ensures Updated(names, old(state), batch).Ok? ==> r.Pass? && rebound == Rebinds(old(state), batch)
    {
      computed := None;
      updateCount := updateCount + 1;
      rebound := {};
      var changes := updateFn(state, batch);
      if changes.Err? {
        return Fail(WrapUpdateError(changes.error)), rebound;
      }
      var values := ApplyChanges(names, state, changes.value);
      if values.Err? {
        state := PartlyApplied(names, state, changes.value);
        return Fail(WrapUpdateError(values.error)), rebound;
      }
      rebound := Assigned(changes.value, state.Keys);
      state := values.value;
      r := Pass;
    }

    /** `sync`: refused when already synced and asked to sync; a no-op when
        not asked or not distributed; otherwise the local states are cached
        and replaced by their gathered values. */
    method Sync(shouldSync: bool) returns (r: Outcome<MetricError>)
      requires Valid()
      modifies this`cache, this`state, this`isSynced
      ensures Valid()
      ensures old(isSynced) && shouldSync ==> r == Fail(AlreadySynced) && unchanged(this)
      ensures !(old(isSynced) && shouldSync) && !(shouldSync && distributed) ==> r.Pass? && unchanged(this)
      ensures !old(isSynced) && shouldSync && distributed ==>
        r.Pass? && isSynced && cache == Some(old(state)) && state == Gathered(old(state))
    {
      if isSynced && shouldSync {
        return Fail(AlreadySynced);
      }
      if !shouldSync || !distributed {
        return Pass;
      }
      cache := Some(state);
      state := Gathered(state);
      isSynced := true;
      r := Pass;
    }

    /** `unsync`: a no-op when not asked; refused when not synced or when
        the cache is missing; otherwise the cached local states come back. */
    method Unsync(shouldUnsync: bool) returns (r: Outcome<MetricError>)
      requires Valid()
      modifies this`cache, this`state, this`isSynced
      ensures Valid()
      ensures !shouldUnsync ==> r.Pass? && unchanged(this)
      ensures shouldUnsync && !old(isSynced) ==> r == Fail(AlreadyUnsynced) && unchanged(this)
      ensures shouldUnsync && old(isSynced) && old(cache).None? ==> r == Fail(MissingCache) && unchanged(this)
      ensures shouldUnsync && old(isSynced) && old(cache).Some? ==>
        r.Pass? && !isSynced && cache.None? && state == old(state) + old(cache).value
    {
      if !shouldUnsync {
        return Pass;
      }
      if !isSynced {
        return Fail(AlreadyUnsynced);
      }
      if cache.None? {
        return Fail(MissingCache);
      }
      state := state + cache.value;
      cache := None;
      isSynced := false;
      r := Pass;
    }

    /** `sync_context` around the metric's `compute`: sync, run `compute`
        on the states as they then are, unsync when still synced and asked
        to. `value` is present when `compute` ran. */
    method SyncContext(shouldSync: bool, shouldUnsync: bool) returns (value: Option<V>, r: Outcome<MetricError>)
      requires Valid()
      modifies this`cache, this`state, this`isSynced
      ensures Valid()
      ensures old(isSynced) && shouldSync ==> value.None? && r == Fail(AlreadySynced) && unchanged(this)
      ensures !old(isSynced) ==> value == Some(computeFn(SyncedView(old(state), shouldSync)))
      ensures !old(isSynced) && shouldSync && distributed && shouldUnsync ==>
        r.Pass? && !isSynced && cache.None? && state == old(state)
      ensures !old(isSynced) && shouldSync && distributed && !shouldUnsync ==>
        r.Pass? && isSynced && cache == Some(old(state)) && state == Gathered(old(state))
      ensures !old(isSynced) && !(shouldSync && distributed) ==> r.Pass? && unchanged(this)
      ensures old(isSynced) && !shouldSync ==> value == Some(computeFn(old(state)))
      ensures old(isSynced) && !shouldSync && !shouldUnsync ==> r.Pass? && unchanged(this)
      ensures old(isSynced) && !shouldSync && shouldUnsync && old(cache).None? ==> r == Fail(MissingCache) && unchanged(this)
      ensures old(isSynced) && !shouldSync && shouldUnsync && old(cache).Some? ==>
        r.Pass? && !isSynced && cache.None? && state == old(state) + old(cache).value
    {
      r := Sync(shouldSync);
      if r.Fail? {
        return None, r;
      }
      value := Some(computeFn(state));
      r := Unsync(isSynced && shouldUnsync);
    }

    /** The wrapped `compute`: warns when no update has happened, returns the
        cached result when there is one, and otherwise computes inside
        `sync_context` and caches the result. */
    method WrappedCompute() returns (r: Result<V, MetricError>)
      requires Valid()
      modifies this`warnedBeforeUpdate, this`computed, this`cache, this`state, this`isSynced
      ensures Valid()
      ensures warnedBeforeUpdate == (updateCount == 0)
      ensures old(computed).Some? ==>
        r == Ok(old(computed).value) && computed == old(computed)
        && state == old(state) && cache == old(cache) && isSynced == old(isSynced)
      ensures old(computed).None? && !old(isSynced) ==>
        r == Ok(computeFn(SyncedView(old(state), toSync))) && computed == Some(r.value)
      ensures old(computed).None? && !old(isSynced) && toSync && distributed && !shouldUnsync ==>
        isSynced && cache == Some(old(state)) && state == Gathered(old(state))
      ensures old(computed).None? && !old(isSynced) && !(toSync && distributed && !shouldUnsync) ==>
        !isSynced && state == old(state)
      ensures old(computed).None? && old(isSynced) && toSync ==> r == Err(AlreadySynced) && computed.None? && unchanged(this`state, this`cache, this`isSynced)
      ensures old(computed).None? && old(isSynced) && !toSync ==> computed == Some(computeFn(old(state)))
      ensures old(computed).None? && old(isSynced) && !toSync ==>
        (r.Ok? <==> !(shouldUnsync && old(cache).None?)) && (r.Ok? ==> r.value == computeFn(old(state)))
    {
      warnedBeforeUpdate := updateCount == 0;
      if computed.Some? {
        return Ok(computed.value);
      }
      var value, outcome := SyncContext(toSync, shouldUnsync);
      if value.Some? {
        computed := value;
      }
      if outcome.Fail? {
        return Err(outcome.error);
      }
      r := Ok(value.value);
    }

    /** `_reduce_states`: every state merged, in declaration order, from
        `global` and its current (batch) value by its reduction. Each merged
        value is stored before the next state is merged, so a failing merge
        leaves the states before it merged and the rest as they were. */
    method ReduceStates(global: map<string, StateVal>) returns (r: Outcome<MetricError>)
      requires Valid() && updateCount > 0
      requires global.Keys == state.Keys
      modifies this`state
      ensures Valid()
      ensures ReduceAll(names, Reductions(entries), global, old(state), updateCount).Err? ==>
        r == Fail(ReduceAll(names, Reductions(entries), global, old(state), updateCount).error)
      ensures state == PartlyReduced(names, Reductions(entries), global, old(state), updateCount)
      ensures ReduceAll(names, Reductions(entries), global, old(state), updateCount).Ok? ==>
        r.Pass? && state == ReduceAll(names, Reductions(entries), global, old(state), updateCount).value
    {
      var merged := ReduceAll(names, Reductions(entries), global, state, updateCount);
      if merged.Err? {
        state := PartlyReduced(names, Reductions(entries), global, state, updateCount);
        return Fail(merged.error);
      }
      state := merged.value;
      r := Pass;
    }

    /** Whether `forward` takes the full-state path. */
    predicate UsesFullState()
    {
      fullStateUpdate != Some(false) || distSyncOnStep
    }

    /** The batch-only part of both `forward` paths: `_to_sync` set to
        `dist_sync_on_step` and `_should_unsync` cleared (the reduced path
        clears them after `reset`, which does not read them), then `reset`,
        `update` and `compute` on the batch alone. `rebound` names the
        states the batch update gave new objects. */
    method BatchPass(batch: B) returns (r: Result<V, MetricError>, rebound: set<string>)
      requires Valid() && !isSynced
      modifies this`computed, this`updateCount, this`state, this`toSync, this`shouldUnsync, this`forwardCache,
               this`cache, this`isSynced, this`warnedBeforeUpdate
      ensures Valid()
      ensures toSync == distSyncOnStep && !shouldUnsync
      ensures Updated(names, BatchStart(entries, old(state)), batch).Err? ==> r == Err(Updated(names, BatchStart(entries, old(state)), batch).error)
      ensures Updated(names, BatchStart(entries, old(state)), batch).Ok? ==>
        r == Ok(computeFn(SyncedView(Updated(names, BatchStart(entries, old(state)), batch).value, distSyncOnStep)))
        && rebound == Rebinds(BatchStart(entries, old(state)), batch)
      ensures Updated(names, BatchStart(entries, old(state)), batch).Ok? && !(distSyncOnStep && distributed) ==>
        state == Updated(names, BatchStart(entries, old(state)), batch).value && !isSynced
      ensures Updated(names, BatchStart(entries, old(state)), batch).Err? ==>
        state == AfterUpdate(names, BatchStart(entries, old(state)), batch) && computed.None? && !isSynced
      ensures r.Ok? ==> computed == Some(r.value)
      ensures updateCount == (if resetIsNoOp then old(updateCount) else 0) + 1
      ensures forwardCache == (if resetIsNoOp then old(forwardCache) else None)
    {
      toSync := distSyncOnStep;
      shouldUnsync := false;
      Reset();
      var updated;
      updated, rebound := Update(batch);
      if updated.Fail? {
        return Err(updated.error), rebound;
      }
      r := WrappedCompute();
    }

    /** The second half of `_forward_full_state_update`: the states and
        the count kept aside, the batch pass, then both put back and the
        flags restored. */
    method BatchAndRestore(batch: B) returns (r: Result<V, MetricError>)
      requires Valid() && !isSynced
      modifies this`computed, this`updateCount, this`state, this`toSync, this`shouldUnsync, this`forwardCache,
               this`cache, this`isSynced, this`warnedBeforeUpdate
      ensures Valid()
      ensures Updated(names, BatchStart(entries, old(state)), batch).Err? ==>
        r == Err(Updated(names, BatchStart(entries, old(state)), batch).error)
      ensures Updated(names, BatchStart(entries, old(state)), batch).Ok? ==>
        var batchState := Updated(names, BatchStart(entries, old(state)), batch).value;
        r == Ok(computeFn(SyncedView(batchState, distSyncOnStep)))
        && state == (if resetIsNoOp then ThroughOldObjects(old(state), batchState, Rebinds(BatchStart(entries, old(state)), batch)) else old(state))
        && updateCount == old(updateCount) && computed.None? && !isSynced && shouldUnsync && toSync == syncOnCompute
      ensures Updated(names, BatchStart(entries, old(state)), batch).Err? ==>
        state == AfterUpdate(names, BatchStart(entries, old(state)), batch)
        && updateCount == (if resetIsNoOp then old(updateCount) else 0) + 1
        && computed.None? && !isSynced && !shouldUnsync && toSync == distSyncOnStep
      ensures forwardCache == (if resetIsNoOp then old(forwardCache) else None)
    {
      var count := updateCount;
      var snapshot := state;
      var value, rebound := BatchPass(batch);
      if value.Err? {
        return value;
      }
      var batchState := Updated(names, BatchStart(entries, snapshot), batch).value;
      Restore(if resetIsNoOp then ThroughOldObjects(snapshot, batchState, rebound) else snapshot, count);
      r := value;
    }

    /** The end of `_forward_full_state_update`: the kept states and count
        put back, the metric marked unsynced, the flags restored and the
        cached result dropped. */
    method Restore(kept: map<string, StateVal>, count: nat)
      requires Valid() && kept.Keys == state.Keys
      modifies this`state, this`updateCount, this`isSynced, this`shouldUnsync, this`toSync, this`computed
      ensures Valid()
      ensures state == kept && updateCount == count && computed.None? && !isSynced && shouldUnsync && toSync == syncOnCompute
    {
      state := kept;
      updateCount := count;
      isSynced := false;
      shouldUnsync := true;
      toSync := syncOnCompute;
      computed := None;
    }

    /** `_forward_full_state_update`: one update of the global states, then
        `reset`, an update and `compute` on the batch alone, then the
        global states, the count and the flags put back. */
    method FullStateForward(batch: B) returns (r: Result<V, MetricError>)
      requires Valid() && !isSynced
      modifies this`computed, this`updateCount, this`state, this`toSync, this`shouldUnsync, this`forwardCache,
               this`cache, this`isSynced, this`warnedBeforeUpdate
      ensures Valid()
      ensures FullForward(names, entries, old(state), batch).Err? ==> r == Err(FullForward(names, entries, old(state), batch).error)
      ensures FullForward(names, entries, old(state), batch).Ok? ==>
        r == Ok(FullForward(names, entries, old(state), batch).value.0) && state == FullForward(names, entries, old(state), batch).value.1
        && updateCount == old(updateCount) + 1 && computed.None? && !isSynced && shouldUnsync && toSync == syncOnCompute
      ensures state == FullForwardState(names, entries, old(state), batch)
      ensures Updated(names, old(state), batch).Err? ==>
        updateCount == old(updateCount) + 1 && computed.None? && !isSynced
        && shouldUnsync == old(shouldUnsync) && toSync == old(toSync) && forwardCache == old(forwardCache)
      ensures Updated(names, old(state), batch).Ok?
              && Updated(names, BatchStart(entries, Updated(names, old(state), batch).value), batch).Err? ==>
        updateCount == (if resetIsNoOp then old(updateCount) + 1 else 0) + 1 && computed.None? && !isSynced
        && !shouldUnsync && toSync == distSyncOnStep && forwardCache == (if resetIsNoOp then old(forwardCache) else None)
    {
      FullForwardSteps(names, entries, state, batch);
      var updated, _ := Update(batch);
      if updated.Fail? {
        return Err(updated.error);
      }
      r := BatchAndRestore(batch);
    }

    /** `_forward_reduce_state_update`: the global states kept aside, the
        batch pass, then the batch states merged into the kept ones by
        `_reduce_states` with the count one past the kept one. */
    method ReducedStateForward(batch: B) returns (r: Result<V, MetricError>)
      requires Valid() && !isSynced && !distSyncOnStep
      modifies this`computed, this`updateCount, this`state, this`toSync, this`shouldUnsync, this`forwardCache,
               this`cache, this`isSynced, this`warnedBeforeUpdate
      ensures Valid()
      ensures ReducedForward(names, entries, old(state), old(updateCount), batch).Err? ==>
        r == Err(ReducedForward(names, entries, old(state), old(updateCount), batch).error)
      ensures ReducedForward(names, entries, old(state), old(updateCount), batch).Ok? ==>
        r == Ok(ReducedForward(names, entries, old(state), old(updateCount), batch).value.0)
        && state == ReducedForward(names, entries, old(state), old(updateCount), batch).value.1
        && updateCount == old(updateCount) + 1 && computed.None? && !isSynced && shouldUnsync && toSync == syncOnCompute
      ensures state == ReducedForwardState(names, entries, old(state), old(updateCount), batch)
      ensures forwardCache == (if resetIsNoOp then old(forwardCache) else None)
      ensures Updated(names, BatchStart(entries, old(state)), batch).Err? ==>
        updateCount == (if resetIsNoOp then old(updateCount) else 0) + 1 && computed.None? && !isSynced
        && !shouldUnsync && !toSync
      ensures Updated(names, BatchStart(entries, old(state)), batch).Ok? && ReducedForward(names, entries, old(state), old(updateCount), batch).Err? ==>
        updateCount == old(updateCount) + 1 && !isSynced && !shouldUnsync && !toSync
        && computed == Some(computeFn(Updated(names, BatchStart(entries, old(state)), batch).value))
    {
      var snapshot := state;
      var count := updateCount;
      var value, rebound := BatchPass(batch);
      if value.Err? {
        ReducedForwardUpdateFails(names, entries, snapshot, count, batch);
        return value;
      }
      ghost var local := state;
      var global := if resetIsNoOp then ThroughOldObjects(snapshot, state, rebound) else snapshot;
      var reduced := MergeBatch(global, count);
      if reduced.Fail? {
        ReducedForwardMergeFails(names, entries, snapshot, count, batch, local, global);
        return Err(reduced.error);
      }
      ReducedForwardFrom(names, entries, snapshot, count, batch, local, global, state);
      r := value;
    }

    /** The tail of `_forward_reduce_state_update`: the count one past the
        kept one, the batch states merged into the kept `global` ones, and
        the flags put back. */
    method MergeBatch(global: map<string, StateVal>, count: nat) returns (r: Outcome<MetricError>)
      requires Valid() && global.Keys == state.Keys
      modifies this`state, this`updateCount, this`isSynced, this`shouldUnsync, this`toSync, this`computed
      ensures Valid() && updateCount == count + 1
      ensures ReduceAll(names, Reductions(entries), global, old(state), count + 1).Err? ==>
        r == Fail(ReduceAll(names, Reductions(entries), global, old(state), count + 1).error)
      ensures ReduceAll(names, Reductions(entries), global, old(state), count + 1).Ok? ==>
        r.Pass? && computed.None? && !isSynced && shouldUnsync && toSync == syncOnCompute
      ensures state == PartlyReduced(names, Reductions(entries), global, old(state), count + 1)
      ensures r.Fail? ==>
        computed == old(computed) && isSynced == old(isSynced) && shouldUnsync == old(shouldUnsync) && toSync == old(toSync)
    {
      updateCount := count + 1;
      r := ReduceStates(global);
      if r.Fail? {
        return;
      }
      isSynced := false;
      shouldUnsync := true;
      toSync := syncOnCompute;
      computed := None;
    }

    /** `forward`: refused while synced; otherwise the batch value by the
        full-state path when `full_state_update` is not `False` or states
        sync on every step, by the reduced-state path otherwise, and kept
        as `_forward_cache`. */
    method Forward(batch: B) returns (r: Result<V, MetricError>)
      requires Valid()
      modifies this`computed, this`updateCount, this`state, this`toSync, this`shouldUnsync, this`forwardCache,
               this`cache, this`isSynced, this`warnedBeforeUpdate
      ensures Valid()
      ensures old(isSynced) ==> r == Err(SyncedDuringForward) && unchanged(this)
      ensures !old(isSynced) && UsesFullState() ==>
        (FullForward(names, entries, old(state), batch).Err? ==> r == Err(FullForward(names, entries, old(state), batch).error))
        && (FullForward(names, entries, old(state), batch).Ok? ==> r == Ok(FullForward(names, entries, old(state), batch).value.0))
        && state == FullForwardState(names, entries, old(state), batch)
      ensures !old(isSynced) && UsesFullState() && Updated(names, old(state), batch).Err? ==>
        updateCount == old(updateCount) + 1 && computed.None? && !isSynced
        && shouldUnsync == old(shouldUnsync) && toSync == old(toSync) && forwardCache == old(forwardCache)
      ensures !old(isSynced) && UsesFullState() && Updated(names, old(state), batch).Ok?
              && Updated(names, BatchStart(entries, Updated(names, old(state), batch).value), batch).Err? ==>
        updateCount == (if resetIsNoOp then old(updateCount) + 1 else 0) + 1 && computed.None? && !isSynced
        && !shouldUnsync && toSync == distSyncOnStep && forwardCache == (if resetIsNoOp then old(forwardCache) else None)
      ensures !old(isSynced) && !UsesFullState() ==>
        (ReducedForward(names, entries, old(state), old(updateCount), batch).Err? ==> r == Err(ReducedForward(names, entries, old(state), old(updateCount), batch).error))
        && (ReducedForward(names, entries, old(state), old(updateCount), batch).Ok? ==> r == Ok(ReducedForward(names, entries, old(state), old(updateCount), batch).value.0))
        && state == ReducedForwardState(names, entries, old(state), old(updateCount), batch)
      ensures !old(isSynced) && !UsesFullState() && Updated(names, BatchStart(entries, old(state)), batch).Err? ==>
        updateCount == (if resetIsNoOp then old(updateCount) else 0) + 1 && computed.None? && !isSynced
        && !shouldUnsync && !toSync && forwardCache == (if resetIsNoOp then old(forwardCache) else None)
      ensures !old(isSynced) && !UsesFullState() && Updated(names, BatchStart(entries, old(state)), batch).Ok?
              && ReducedForward(names, entries, old(state), old(updateCount), batch).Err? ==>
        updateCount == old(updateCount) + 1 && !isSynced && !shouldUnsync && !toSync
        && computed == Some(computeFn(Updated(names, BatchStart(entries, old(state)), batch).value))
        && forwardCache == (if resetIsNoOp then old(forwardCache) else None)
      ensures !old(isSynced) && r.Ok? ==>
        forwardCache == Some(r.value) && updateCount == old(updateCount) + 1 && computed.None? && !isSynced
        && shouldUnsync && toSync == syncOnCompute
    {
      if isSynced {
        return Err(SyncedDuringForward);
      }
      if UsesFullState() {
        r := FullStateForward(batch);
      } else {
        r := ReducedStateForward(batch);
      }
      if r.Ok? {
        forwardCache := Some(r.value);
      }
    }

    /** `sync` followed by `unsync` on a distributed metric: in between the
        states are the gathered ones, afterwards the local states are back
        and the cache is empty. */
    method SyncThenUnsync() returns (synced: map<string, StateVal>)
      requires Valid() && !isSynced && distributed
      modifies this`cache, this`state, this`isSynced
      ensures Valid()
      ensures synced == Gathered(old(state))
      ensures state == old(state) && !isSynced && cache.None?
    {
      var r := Sync(true);
      synced := state;
      r := Unsync(true);
      assert state == old(state);
    }

    /** `compute` twice without an update in between: the second call
        returns the cached result of the first, whatever the sync flags. */
    method ComputeTwice() returns (first: Result<V, MetricError>, second: Result<V, MetricError>)
      requires Valid() && !isSynced && computed.None?
      modifies this`warnedBeforeUpdate, this`computed, this`cache, this`state, this`isSynced
      ensures first == Ok(computeFn(SyncedView(old(state), toSync)))
      ensures second == first
    {
      first := WrappedCompute();
      second := WrappedCompute();
    }
  }
}
