/** The values a stateful PyTorch metric accumulates, the reductions that
    merge two of them, and the changes an `update` makes to them. Tensors are
    dense: a shape and the entries in row-major order. */
module MetricState {
  import opened Wrappers
  import Numerics

  datatype Tensor = Tensor(shape: seq<nat>, data: seq<real>)

  function Product(shape: seq<nat>): nat
  {
    if |shape| == 0 then 1 else shape[0] * Product(shape[1..])
  }

  /** A tensor whose entry count matches its shape. */
  predicate WellFormed(t: Tensor)
  {
    |t.data| == Product(t.shape)
  }

  /** A zero-dimensional tensor, such as `torch.tensor(0.0)`. */
  function Scalar(x: real): (t: Tensor)
    ensures WellFormed(t) && t.shape == [] && t.data == [x]
  {
    Tensor([], [x])
  }

  /** A metric state: a tensor, or a list of tensors. */
  datatype StateVal = TensorState(tensor: Tensor) | ListState(items: seq<Tensor>)

  /** The merge `add_state` records for a state (`dist_reduce_fx`). */
  datatype Reduction =
    | SumReduction
    | MeanReduction
    | MaxReduction
    | MinReduction
    | CatReduction
    | NoReduction
    | CustomReduction(fn: Tensor -> Tensor)

  /** What `add_state` records about one state: `_defaults`, `_reductions`
      and `_persistent` under its name. */
  datatype Entry = Entry(default: StateVal, reduction: Reduction, persistent: bool)

  /** What a caller passes as `dist_reduce_fx`: a name, nothing, or a callable. */
  datatype ReduceSpec = Named(name: string) | Unspecified | Callable(fn: Tensor -> Tensor)

  /** What a caller passes as `default`. */
  datatype DefaultSpec = TensorDefault(tensor: Tensor) | ListDefault(items: seq<Tensor>) | OtherDefault

  /** An error a metric's own `update` raises. */
  datatype UpdateError = RuntimeError(message: string) | OtherError(message: string)

  /** The errors the metric machinery raises. */
  datatype MetricError =
    | InvalidDefault
    | InvalidReduction
    | AlreadySynced
    | AlreadyUnsynced
    | MissingCache
    | SyncedDuringForward
    | DeviceMismatch(cause: UpdateError)
    | UpdateFailed(error: UpdateError)
    | IncompatibleStates(name: string)

  const ReductionNames: set<string> := {"sum", "mean", "max", "min", "cat"}

  /** The reduction `add_state` records for `dist_reduce_fx`. */
  function ResolveReduction(spec: ReduceSpec): (r: Result<Reduction, MetricError>)
    ensures r.Err? <==> spec.Named? && spec.name !in ReductionNames
    ensures r.Err? ==> r.error == InvalidReduction
    ensures spec.Unspecified? ==> r.Ok? && r.value.NoReduction?
    ensures spec.Callable? ==> r.Ok? && r.value == CustomReduction(spec.fn)
    ensures spec == Named("sum") ==> r == Ok(SumReduction)
    ensures spec == Named("mean") ==> r == Ok(MeanReduction)
    ensures spec == Named("max") ==> r == Ok(MaxReduction)
    ensures spec == Named("min") ==> r == Ok(MinReduction)
    ensures spec == Named("cat") ==> r == Ok(CatReduction)
  {
    match spec
    case Named(name) =>
      if name == "sum" then Ok(SumReduction)
      else if name == "mean" then Ok(MeanReduction)
      else if name == "max" then Ok(MaxReduction)
      else if name == "min" then Ok(MinReduction)
      else if name == "cat" then Ok(CatReduction)
      else Err(InvalidReduction)
    case Unspecified => Ok(NoReduction)
    case Callable(fn) => Ok(CustomReduction(fn))
  }

  /** The state value `add_state` accepts as a default: a tensor or an empty list. */
  function CheckDefault(default: DefaultSpec): (r: Result<StateVal, MetricError>)
    ensures r.Ok? <==> default.TensorDefault? || (default.ListDefault? && |default.items| == 0)
    ensures r.Err? ==> r.error == InvalidDefault
    ensures default.TensorDefault? ==> r == Ok(TensorState(default.tensor))
    ensures r.Ok? && default.ListDefault? ==> r == Ok(ListState([]))
  {
    match default
    case TensorDefault(t) => Ok(TensorState(t))
    case ListDefault(items) => if |items| == 0 then Ok(ListState([])) else Err(InvalidDefault)
    case OtherDefault => Err(InvalidDefault)
  }

  /** The value `reset` gives a state: a fresh copy of a tensor default, or `[]`. */
  function ResetValue(default: StateVal): StateVal
  {
    if default.TensorState? then default else ListState([])
  }

  /** Every default `add_state` accepts is its own reset value. */
  lemma ResetRestoresDefault(default: DefaultSpec)
    requires CheckDefault(default).Ok?
    ensures ResetValue(CheckDefault(default).value) == CheckDefault(default).value
  {
  }

  /** An elementwise operation on two tensors of one shape; `None` when the
      shapes differ (broadcasting is not modelled). */
  function Zip(f: (real, real) -> real, a: Tensor, b: Tensor): (r: Option<Tensor>)
    ensures r.Some? <==> a.shape == b.shape && |a.data| == |b.data|
    ensures r.Some? ==> r.value.shape == a.shape && |r.value.data| == |a.data|
    ensures r.Some? ==> forall i :: 0 <= i < |a.data| ==> r.value.data[i] == f(a.data[i], b.data[i])
  {
    if a.shape == b.shape && |a.data| == |b.data| then
      Some(Tensor(a.shape, seq(|a.data|, i requires 0 <= i < |a.data| => f(a.data[i], b.data[i]))))
    else None
  }

  /** `torch.stack([a, b])`: a new leading dimension of size two. */
  function Stack(a: Tensor, b: Tensor): (r: Option<Tensor>)
    ensures r.Some? <==> a.shape == b.shape
    ensures r.Some? ==> r.value.shape == [2] + a.shape && r.value.data == a.data + b.data
  {
    if a.shape == b.shape then Some(Tensor([2] + a.shape, a.data + b.data)) else None
  }

  function Add(x: real, y: real): real { x + y }

  /** The mean reduction on one entry: `((count - 1) * global + local) / count`. */
  function MeanStep(count: nat, global: real, local: real): real
    requires count > 0
  {
    ((count - 1) as real * global + local) / count as real
  }

  /** `global + local`: elementwise for tensors, concatenation for lists. */
  function Combine(global: StateVal, local: StateVal): Option<StateVal>
  {
    match (global, local)
    case (TensorState(g), TensorState(l)) =>
      (match Zip(Add, g, l) case Some(t) => Some(TensorState(t)) case None => None)
    case (ListState(g), ListState(l)) => Some(ListState(g + l))
    case _ => None
  }

  /** One step of `_reduce_states`: merges the global value of a state with
      the value accumulated on the current batch, after `count` updates.
      `None` where PyTorch would raise (shapes that differ, a list where a
      tensor is needed, or the reverse). */
  function ReduceOne(reduction: Reduction, global: StateVal, local: StateVal, count: nat): (r: Option<StateVal>)
    requires count > 0
    ensures r.Some? && global.TensorState? && local.TensorState? ==> r.value.TensorState?
    ensures r.Some? && global.ListState? ==> r.value.ListState?
  {
    match reduction
    case SumReduction => Combine(global, local)
    case CatReduction => Combine(global, local)
    case MeanReduction =>
      if global.TensorState? && local.TensorState? then
        (match Zip((g, l) => MeanStep(count, g, l), global.tensor, local.tensor) case Some(t) => Some(TensorState(t)) case None => None)
      else None
    case MaxReduction =>
      if global.TensorState? && local.TensorState? then
        (match Zip(Numerics.Max, global.tensor, local.tensor) case Some(t) => Some(TensorState(t)) case None => None)
      else None
    case MinReduction =>
      if global.TensorState? && local.TensorState? then
        (match Zip(Numerics.Min, global.tensor, local.tensor) case Some(t) => Some(TensorState(t)) case None => None)
      else None
    case NoReduction =>
      if global.TensorState? && local.TensorState? then
        (match Stack(global.tensor, local.tensor) case Some(t) => Some(TensorState(t)) case None => None)
      else if global.ListState? && local.ListState? then Some(ListState(global.items + local.items))
      else None
    case CustomReduction(fn) =>
      if global.TensorState? && local.TensorState? then
        (match Stack(global.tensor, local.tensor) case Some(t) => Some(TensorState(fn(t))) case None => None)
      else None
  }

  /** Without a reduction, two tensors of one shape are stacked along a new
      leading dimension and two lists are flattened into one; anything else
      cannot be merged. */
  lemma NoReductionStacksOrConcatenates(global: StateVal, local: StateVal, count: nat)
    requires count > 0
    ensures global.TensorState? && local.TensorState? && global.tensor.shape == local.tensor.shape ==>
      ReduceOne(NoReduction, global, local, count)
      == Some(TensorState(Tensor([2] + global.tensor.shape, global.tensor.data + local.tensor.data)))
    ensures global.ListState? && local.ListState? ==>
      ReduceOne(NoReduction, global, local, count) == Some(ListState(global.items + local.items))
    ensures ReduceOne(NoReduction, global, local, count).None? <==>
      (global.TensorState? != local.TensorState?)
      || (global.TensorState? && local.TensorState? && global.tensor.shape != local.tensor.shape)
  {
  }

  /** A callable reduction is applied to the two values stacked along a new
      leading dimension; it needs two tensors of one shape. */
  lemma CustomReductionAppliesToStack(fn: Tensor -> Tensor, global: StateVal, local: StateVal, count: nat)
    requires count > 0
    ensures global.TensorState? && local.TensorState? && global.tensor.shape == local.tensor.shape ==>
      ReduceOne(CustomReduction(fn), global, local, count)
      == Some(TensorState(fn(Tensor([2] + global.tensor.shape, global.tensor.data + local.tensor.data))))
    ensures ReduceOne(CustomReduction(fn), global, local, count).None? <==>
      !global.TensorState? || !local.TensorState? || global.tensor.shape != local.tensor.shape
  {
  }

  /** Sum and cat reductions add tensors elementwise and concatenate lists. */
  lemma SumAndCatReduction(reduction: Reduction, global: StateVal, local: StateVal, count: nat)
    requires count > 0
    requires reduction.SumReduction? || reduction.CatReduction?
    ensures global.ListState? && local.ListState? ==>
      ReduceOne(reduction, global, local, count) == Some(ListState(global.items + local.items))
    ensures global.TensorState? && local.TensorState? && global.tensor.shape == local.tensor.shape
            && |global.tensor.data| == |local.tensor.data| ==>
      var r := ReduceOne(reduction, global, local, count);
      r.Some? && r.value.tensor.shape == global.tensor.shape
      && forall i :: 0 <= i < |global.tensor.data| ==>
           r.value.tensor.data[i] == global.tensor.data[i] + local.tensor.data[i]
  {
  }

  lemma RunningMeanStep(total: real, x: real, n: nat)
    requires n > 0
    ensures MeanStep(n + 1, total / n as real, x) == (total + x) / (n + 1) as real
  {
    assert n as real * (total / n as real) == total;
  }

  /** The mean reduction extends a running mean: if the global entry is the
      mean of the first n - 1 batch values and the local entry is the n-th,
      the result is the mean of all n. */
  lemma MeanReductionExtendsRunningMean(history: seq<real>, x: real, global: Tensor, local: Tensor, i: nat)
    requires |history| > 0
    requires global.shape == local.shape && |global.data| == |local.data| && i < |global.data|
    requires global.data[i] == Numerics.Sum(history) / |history| as real
    requires local.data[i] == x
    ensures var r := ReduceOne(MeanReduction, TensorState(global), TensorState(local), |history| + 1);
      r.Some? && r.value.tensor.data[i] == Numerics.Sum(history + [x]) / (|history| + 1) as real
  {
    SumAppendOne(history, x);
    MeanReductionStep(global, local, Numerics.Sum(history), |history|, i, Numerics.Sum(history + [x]));
  }

  /** Entry `i` of the mean reduction after n + 1 updates, when the global
      entry is a mean `total / n` and `after` adds the local entry to
      `total`, is `after / (n + 1)`. */
  lemma MeanReductionStep(global: Tensor, local: Tensor, total: real, n: nat, i: nat, after: real)
    requires n > 0
    requires global.shape == local.shape && |global.data| == |local.data| && i < |global.data|
    requires global.data[i] == total / n as real
    requires after == total + local.data[i]
    ensures var r := ReduceOne(MeanReduction, TensorState(global), TensorState(local), n + 1);
      r.Some? && r.value.tensor.data[i] == after / (n + 1) as real
  {
    MeanReductionEntry(global, local, n + 1, i);
    RunningMeanStep(total, local.data[i], n);
  }

  /** Entry `i` of the mean reduction is one step of the running mean. */
  lemma MeanReductionEntry(global: Tensor, local: Tensor, count: nat, i: nat)
    requires count > 0
    requires global.shape == local.shape && |global.data| == |local.data| && i < |global.data|
    ensures var r := ReduceOne(MeanReduction, TensorState(global), TensorState(local), count);
      r.Some? && r.value.tensor.data[i] == MeanStep(count, global.data[i], local.data[i])
  {
  }

  lemma SumAppendOne(s: seq<real>, x: real)
    ensures Numerics.Sum(s + [x]) == Numerics.Sum(s) + x
  {
    Numerics.SumAppend(s, [x]);
    assert Numerics.Sum([x]) == x + Numerics.Sum([]);
  }

  /** The max and min reductions bound both inputs and pick one of them. */
  lemma MaxMinReductionBounds(global: Tensor, local: Tensor, count: nat, i: nat)
    requires count > 0
    requires global.shape == local.shape && |global.data| == |local.data| && i < |global.data|
    ensures var hi := ReduceOne(MaxReduction, TensorState(global), TensorState(local), count).value.tensor.data[i];
      hi >= global.data[i] && hi >= local.data[i] && (hi == global.data[i] || hi == local.data[i])
    ensures var lo := ReduceOne(MinReduction, TensorState(global), TensorState(local), count).value.tensor.data[i];
      lo <= global.data[i] && lo <= local.data[i] && (lo == global.data[i] || lo == local.data[i])
  {
  }

  lemma {:induction false} ProductOfStacked(shape: seq<nat>)
    ensures Product([2] + shape) == 2 * Product(shape)
  {
    assert ([2] + shape)[1..] == shape;
  }

  /** Reducing well-formed tensors yields a well-formed tensor. */
  lemma ReducePreservesWellFormed(reduction: Reduction, global: Tensor, local: Tensor, count: nat)
    requires count > 0
    requires WellFormed(global) && WellFormed(local)
    requires !reduction.CustomReduction?
    requires ReduceOne(reduction, TensorState(global), TensorState(local), count).Some?
    ensures WellFormed(ReduceOne(reduction, TensorState(global), TensorState(local), count).value.tensor)
  {
    if reduction.NoReduction? {
      ProductOfStacked(global.shape);
    }
  }

  /** The change a metric's `update` makes to one state: an in-place `+=`,
      an assignment of a new object, or an in-place `append`. */
  datatype Change = AddInPlace(amount: Tensor) | Assign(value: StateVal) | Append(item: Tensor)

  /** Whether a change mutates the state's object rather than rebinding it. */
  predicate InPlace(c: Change)
  {
    !c.Assign?
  }

  const SizeMismatch: string := "The size of tensor a must match the size of tensor b"

  /** The value one change produces, or the error PyTorch raises for it.
      An in-place add on a list state is an error here, whereas Python's
      `list += tensor` extends the list with the rows of a 1-D tensor; no
      metric of this model keeps a list state that it adds to. */
  function ApplyChange(v: StateVal, c: Change): (r: Result<StateVal, UpdateError>)
    ensures c.Assign? ==> r == Ok(c.value)
    ensures c.Append? ==> (r.Ok? <==> v.ListState?)
    ensures c.Append? && v.ListState? ==> r == Ok(ListState(v.items + [c.item]))
    ensures c.AddInPlace? ==> (r.Ok? <==> v.TensorState? && v.tensor.shape == c.amount.shape
                                          && |v.tensor.data| == |c.amount.data|)
    ensures c.AddInPlace? && r.Ok? ==> r == Ok(TensorState(Zip(Add, v.tensor, c.amount).value))
  {
    match c
    case Assign(value) => Ok(value)
    case Append(item) =>
      if v.ListState? then Ok(ListState(v.items + [item])) else Err(OtherError("object has no attribute 'append'"))
    case AddInPlace(amount) =>
      if v.TensorState? then
        match Zip(Add, v.tensor, amount)
        case Some(t) => Ok(TensorState(t))
        case None => Err(RuntimeError(SizeMismatch))
      else Err(OtherError("unsupported operand type for +="))
  }

  /** The states after `update`'s changes, applied in declaration order;
      names without a change keep their value. */
  function ApplyChanges(names: seq<string>, state: map<string, StateVal>, changes: map<string, Change>): (r: Result<map<string, StateVal>, UpdateError>)
    ensures r.Ok? ==> r.value.Keys == state.Keys
    ensures r.Ok? ==> forall k :: k in state && (k !in changes || k !in names) ==> r.value[k] == state[k]
  {
    if |names| == 0 then Ok(state)
    else
      var k := names[0];
      if k in state && k in changes then
        match ApplyChange(state[k], changes[k])
        case Err(e) => Err(e)
        case Ok(v) => ApplyChanges(names[1..], state[k := v], changes)
      else ApplyChanges(names[1..], state, changes)
  }

  /** The states a failing `update` leaves behind: the changes before the
      first one that fails have been made in place, that one and the later
      ones have not. When every change applies, these are the new states. */
  function PartlyApplied(names: seq<string>, state: map<string, StateVal>, changes: map<string, Change>): (r: map<string, StateVal>)
    ensures r.Keys == state.Keys
    ensures ApplyChanges(names, state, changes).Ok? ==> r == ApplyChanges(names, state, changes).value
    ensures forall k :: k in state && (k !in changes || k !in names) ==> r[k] == state[k]
  {
    if |names| == 0 then state
    else
      var k := names[0];
      if k in state && k in changes then
        match ApplyChange(state[k], changes[k])
        case Err(_) => state
        case Ok(v) => PartlyApplied(names[1..], state[k := v], changes)
      else PartlyApplied(names[1..], state, changes)
  }

  /** With distinct names, a failing application stops at one change: that
      change raises the error, and neither it nor any change after it has
      touched its state. */
  lemma {:induction false} PartlyAppliedStops(names: seq<string>, state: map<string, StateVal>, changes: map<string, Change>)
    requires forall i, j :: 0 <= i < j < |names| ==> names[i] != names[j]
    requires ApplyChanges(names, state, changes).Err?
    ensures exists i :: (0 <= i < |names| && names[i] in state && names[i] in changes
                         && ApplyChange(state[names[i]], changes[names[i]]) == Err(ApplyChanges(names, state, changes).error)
                         && (forall j :: i <= j < |names| && names[j] in state ==>
                               PartlyApplied(names, state, changes)[names[j]] == state[names[j]]))
  {
    var h := names[0];
    assert forall i, j :: 0 <= i < j < |names[1..]| ==> names[1..][i] != names[1..][j] by {
      forall i, j | 0 <= i < j < |names[1..]|
        ensures names[1..][i] != names[1..][j]
      {
        assert names[1..][i] == names[i + 1] && names[1..][j] == names[j + 1];
      }
    }
    if h in state && h in changes && ApplyChange(state[h], changes[h]).Err? {
      assert 0 <= 0 < |names| && names[0] in state && names[0] in changes;
    } else {
      var next := if h in state && h in changes then state[h := ApplyChange(state[h], changes[h]).value] else state;
      assert ApplyChanges(names, state, changes) == ApplyChanges(names[1..], next, changes);
      assert PartlyApplied(names, state, changes) == PartlyApplied(names[1..], next, changes);
      PartlyAppliedStops(names[1..], next, changes);
      var i :| 0 <= i < |names[1..]| && names[1..][i] in next && names[1..][i] in changes
        && ApplyChange(next[names[1..][i]], changes[names[1..][i]]) == Err(ApplyChanges(names[1..], next, changes).error)
        && (forall j :: i <= j < |names[1..]| && names[1..][j] in next ==>
              PartlyApplied(names[1..], next, changes)[names[1..][j]] == next[names[1..][j]]);
      assert names[i + 1] != h;
      forall j | i + 1 <= j < |names| && names[j] in state
        ensures PartlyApplied(names, state, changes)[names[j]] == state[names[j]]
      {
        assert names[j] == names[1..][j - 1];
        assert names[j] != h;
      }
      assert names[i + 1] == names[1..][i];
    }
  }

  /** Each changed state ends up with exactly its change applied. */
  lemma {:induction false} ApplyChangesEach(names: seq<string>, state: map<string, StateVal>, changes: map<string, Change>, k: string)
    requires forall i, j :: 0 <= i < j < |names| ==> names[i] != names[j]
    requires ApplyChanges(names, state, changes).Ok?
    requires k in state && k in changes && k in names
    ensures ApplyChange(state[k], changes[k]).Ok?
    ensures ApplyChanges(names, state, changes).value[k] == ApplyChange(state[k], changes[k]).value
  {
    var h := names[0];
    if h == k {
      var v := ApplyChange(state[k], changes[k]).value;
      assert k !in names[1..];
    } else if h in state && h in changes {
      var v := ApplyChange(state[h], changes[h]).value;
      ApplyChangesEach(names[1..], state[h := v], changes, k);
    } else {
      ApplyChangesEach(names[1..], state, changes, k);
    }
  }

  /** With distinct names, the changes apply together exactly when each one
      applies to the state it changes. */
  lemma {:induction false} ApplyChangesOk(names: seq<string>, state: map<string, StateVal>, changes: map<string, Change>)
    requires forall i, j :: 0 <= i < j < |names| ==> names[i] != names[j]
    requires forall k :: k in names && k in state && k in changes ==> ApplyChange(state[k], changes[k]).Ok?
    ensures ApplyChanges(names, state, changes).Ok?
  {
    if |names| > 0 {
      var h := names[0];
      forall i, j | 0 <= i < j < |names[1..]|
        ensures names[1..][i] != names[1..][j]
      {
        assert names[1..][i] == names[i + 1] && names[1..][j] == names[j + 1];
      }
      if h in state && h in changes {
        var v := ApplyChange(state[h], changes[h]).value;
        assert h !in names[1..];
        ApplyChangesOk(names[1..], state[h := v], changes);
      } else {
        ApplyChangesOk(names[1..], state, changes);
      }
    }
  }

  /** A state of zeros: what `torch.zeros` or `torch.tensor(0.0)` holds. */
  predicate IsZero(t: Tensor)
  {
    forall i :: 0 <= i < |t.data| ==> t.data[i] == 0.0
  }

  /** Why `full_state_update = False` is sound for additive metrics: when a
      sum-reduced state starts from zeros and `update` only adds to it in
      place, merging the batch's own state into the global one gives the
      value a direct update of the global state gives. */
  lemma SumReductionOfZeroBasedBatch(global: Tensor, zero: Tensor, amount: Tensor, count: nat)
    requires count > 0
    requires IsZero(zero) && zero.shape == global.shape == amount.shape
    requires |zero.data| == |global.data| == |amount.data|
    ensures var batch := ApplyChange(TensorState(zero), AddInPlace(amount));
      batch.Ok? &&
      Some(ApplyChange(TensorState(global), AddInPlace(amount)).value)
        == ReduceOne(SumReduction, TensorState(global), batch.value, count)
  {
    var batch := ApplyChange(TensorState(zero), AddInPlace(amount)).value;
    var direct := ApplyChange(TensorState(global), AddInPlace(amount)).value;
    var reduced := ReduceOne(SumReduction, TensorState(global), batch, count).value;
    assert direct.tensor.data == reduced.tensor.data;
  }

  /** Summing a state with a batch that added nothing leaves it as it was. */
  lemma SumWithZero(global: Tensor, zero: Tensor, count: nat)
    requires count > 0
    requires IsZero(zero) && zero.shape == global.shape && |zero.data| == |global.data|
    ensures ReduceOne(SumReduction, TensorState(global), TensorState(zero), count) == Some(TensorState(global))
  {
    var reduced := ReduceOne(SumReduction, TensorState(global), TensorState(zero), count).value;
    assert reduced.tensor.data == global.data;
  }

  /** `_reduce_states`: every registered state, in declaration order, merged
      from its global value and its batch value; the first state whose two
      values do not fit its reduction raises. */
  function ReduceAll(names: seq<string>, reductions: map<string, Reduction>, global: map<string, StateVal>,
                     local: map<string, StateVal>, count: nat): (r: Result<map<string, StateVal>, MetricError>)
    requires count > 0
    requires forall k :: k in names ==> k in reductions && k in global && k in local
    ensures r.Ok? ==> r.value.Keys == local.Keys
    ensures r.Ok? ==> forall k :: k in local && k !in names ==> r.value[k] == local[k]
    ensures r.Err? ==> r.error.IncompatibleStates? && r.error.name in names
  {
    if |names| == 0 then Ok(local)
    else
      var k := names[0];
      match ReduceOne(reductions[k], global[k], local[k], count)
      case None => Err(IncompatibleStates(k))
      case Some(v) => ReduceAll(names[1..], reductions, global, local[k := v], count)
  }

  /** The states a failing `_reduce_states` leaves behind: each state before
      the first one whose merge fails has been set to its merged value, that
      one and the later ones keep their batch values. When every merge
      succeeds, these are the merged states. */
  function PartlyReduced(names: seq<string>, reductions: map<string, Reduction>, global: map<string, StateVal>,
                         local: map<string, StateVal>, count: nat): (r: map<string, StateVal>)
    requires count > 0
    requires forall k :: k in names ==> k in reductions && k in global && k in local
    ensures r.Keys == local.Keys
    ensures ReduceAll(names, reductions, global, local, count).Ok? ==> r == ReduceAll(names, reductions, global, local, count).value
    ensures forall k :: k in local && k !in names ==> r[k] == local[k]
  {
    if |names| == 0 then local
    else
      var k := names[0];
      match ReduceOne(reductions[k], global[k], local[k], count)
      case None => local
      case Some(v) => PartlyReduced(names[1..], reductions, global, local[k := v], count)
  }

  /** `pr` is what `_reduce_states` leaves when it stops at `names[i]`: that
      state's merge fails, every state before it holds its merged value, and
      it and every later state keep their batch values. */
  ghost predicate StopsAt(names: seq<string>, reductions: map<string, Reduction>, global: map<string, StateVal>,
                          local: map<string, StateVal>, count: nat, pr: map<string, StateVal>, i: int)
    requires count > 0
    requires forall k :: k in names ==> k in reductions && k in global && k in local
  {
    pr.Keys == local.Keys && 0 <= i < |names|
    && ReduceOne(reductions[names[i]], global[names[i]], local[names[i]], count).None?
    && (forall j :: 0 <= j < i ==> Some(pr[names[j]]) == ReduceOne(reductions[names[j]], global[names[j]], local[names[j]], count))
    && (forall j :: i <= j < |names| ==> pr[names[j]] == local[names[j]])
  }

  /** Stopping at `i` in the tail, after merging the head, is stopping at
      `i + 1` in the whole sequence. */
  lemma StopsAtCons(names: seq<string>, reductions: map<string, Reduction>, global: map<string, StateVal>,
                    local: map<string, StateVal>, count: nat, pr: map<string, StateVal>, i: int)
    requires count > 0 && |names| > 0
    requires forall k :: k in names ==> k in reductions && k in global && k in local
    requires names[0] !in names[1..]
    requires ReduceOne(reductions[names[0]], global[names[0]], local[names[0]], count).Some?
    requires StopsAt(names[1..], reductions, global,
                     local[names[0] := ReduceOne(reductions[names[0]], global[names[0]], local[names[0]], count).value], count, pr, i)
    requires pr[names[0]] == ReduceOne(reductions[names[0]], global[names[0]], local[names[0]], count).value
    ensures StopsAt(names, reductions, global, local, count, pr, i + 1)
  {
    var h := names[0];
    var next := local[h := ReduceOne(reductions[h], global[h], local[h], count).value];
    assert names[i + 1] == names[1..][i];
    forall j | 0 <= j < i + 1
      ensures Some(pr[names[j]]) == ReduceOne(reductions[names[j]], global[names[j]], local[names[j]], count)
    {
      if j > 0 {
        assert names[j] == names[1..][j - 1];
      }
    }
    forall j | i + 1 <= j < |names|
      ensures pr[names[j]] == local[names[j]]
    {
      assert names[j] == names[1..][j - 1];
    }
  }

  /** With distinct names, a failing `_reduce_states` stops at the state it
      reports. */
  lemma {:induction false} PartlyReducedStops(names: seq<string>, reductions: map<string, Reduction>, global: map<string, StateVal>,
                                              local: map<string, StateVal>, count: nat)
    requires count > 0
    requires forall k :: k in names ==> k in reductions && k in global && k in local
    requires forall i, j :: 0 <= i < j < |names| ==> names[i] != names[j]
    requires ReduceAll(names, reductions, global, local, count).Err?
    ensures exists i :: (0 <= i < |names| && names[i] == ReduceAll(names, reductions, global, local, count).error.name
                         && StopsAt(names, reductions, global, local, count, PartlyReduced(names, reductions, global, local, count), i))
  {
    var h := names[0];
    var m := ReduceOne(reductions[h], global[h], local[h], count);
    if m.None? {
      assert StopsAt(names, reductions, global, local, count, PartlyReduced(names, reductions, global, local, count), 0);
    } else {
      var next := local[h := m.value];
      forall i, j | 0 <= i < j < |names[1..]|
        ensures names[1..][i] != names[1..][j]
      {
        assert names[1..][i] == names[i + 1] && names[1..][j] == names[j + 1];
      }
      assert h !in names[1..];
      PartlyReducedStops(names[1..], reductions, global, next, count);
      var pr := PartlyReduced(names[1..], reductions, global, next, count);
      var i :| 0 <= i < |names[1..]| && names[1..][i] == ReduceAll(names[1..], reductions, global, next, count).error.name
        && StopsAt(names[1..], reductions, global, next, count, pr, i);
      StopsAtCons(names, reductions, global, local, count, pr, i);
      assert names[i + 1] == names[1..][i];
    }
  }

  /** With distinct names, `_reduce_states` succeeds exactly when each
      state's global and batch values fit its reduction. */
  lemma {:induction false} ReduceAllOk(names: seq<string>, reductions: map<string, Reduction>, global: map<string, StateVal>,
                                       local: map<string, StateVal>, count: nat)
    requires count > 0
    requires forall i, j :: 0 <= i < j < |names| ==> names[i] != names[j]
    requires forall k :: k in names ==> k in reductions && k in global && k in local
    requires forall k :: k in names ==> ReduceOne(reductions[k], global[k], local[k], count).Some?
    ensures ReduceAll(names, reductions, global, local, count).Ok?
  {
    if |names| > 0 {
      var h := names[0];
      var v := ReduceOne(reductions[h], global[h], local[h], count).value;
      forall i, j | 0 <= i < j < |names[1..]|
        ensures names[1..][i] != names[1..][j]
      {
        assert names[1..][i] == names[i + 1] && names[1..][j] == names[j + 1];
      }
      assert h !in names[1..];
      ReduceAllOk(names[1..], reductions, global, local[h := v], count);
    }
  }

  /** Each state is merged on its own: its result depends only on its own
      reduction, global value and batch value. */
  lemma {:induction false} ReduceAllEach(names: seq<string>, reductions: map<string, Reduction>, global: map<string, StateVal>,
                                         local: map<string, StateVal>, count: nat, k: string)
    requires count > 0
    requires forall i, j :: 0 <= i < j < |names| ==> names[i] != names[j]
    requires forall k :: k in names ==> k in reductions && k in global && k in local
    requires k in names
    requires ReduceAll(names, reductions, global, local, count).Ok?
    ensures ReduceOne(reductions[k], global[k], local[k], count).Some?
    ensures ReduceAll(names, reductions, global, local, count).value[k] == ReduceOne(reductions[k], global[k], local[k], count).value
  {
    var h := names[0];
    var v := ReduceOne(reductions[h], global[h], local[h], count).value;
    if h == k {
      assert k !in names[1..];
    } else {
      ReduceAllEach(names[1..], reductions, global, local[h := v], count, k);
    }
  }

  /** `_reduce_states` yields `target` when every state's merge yields its
      value in `target` and no other state exists. */
  lemma ReduceAllAgrees(names: seq<string>, reductions: map<string, Reduction>, global: map<string, StateVal>,
                        local: map<string, StateVal>, count: nat, target: map<string, StateVal>)
    requires count > 0
    requires forall i, j :: 0 <= i < j < |names| ==> names[i] != names[j]
    requires forall k :: k in names ==> k in reductions && k in global
    requires forall k :: k in local <==> k in names
    requires target.Keys == local.Keys
    requires forall k :: k in names ==> ReduceOne(reductions[k], global[k], local[k], count) == Some(target[k])
    ensures ReduceAll(names, reductions, global, local, count) == Ok(target)
  {
    ReduceAllOk(names, reductions, global, local, count);
    var merged := ReduceAll(names, reductions, global, local, count).value;
    forall k | k in names
      ensures merged[k] == target[k]
    {
      ReduceAllEach(names, reductions, global, local, count, k);
    }
    MapsEqual(merged, target);
  }

  /** Two maps with the same keys and the same value at every key are equal. */
  lemma MapsEqual<K, V>(a: map<K, V>, b: map<K, V>)
    requires a.Keys == b.Keys
    requires forall k :: k in a ==> a[k] == b[k]
    ensures a == b
  {
  }

  /** The zero-based batch merged by sum into the global states equals the
      global states updated directly: the core of why
      `full_state_update = False` is sound for additive metrics. */
  lemma {:induction false} SumMergeOfZeroBasedBatch(names: seq<string>, reductions: map<string, Reduction>,
                                                    zeros: map<string, StateVal>, global: map<string, StateVal>,
                                                    changes: map<string, Change>, count: nat)
    requires count > 0
    requires forall i, j :: 0 <= i < j < |names| ==> names[i] != names[j]
    requires forall k :: k in global <==> k in names
    requires zeros.Keys == global.Keys
    requires forall k :: k in names ==>
      k in reductions && reductions[k] == SumReduction && zeros[k].TensorState? && IsZero(zeros[k].tensor)
      && global[k].TensorState? && global[k].tensor.shape == zeros[k].tensor.shape
      && |global[k].tensor.data| == |zeros[k].tensor.data|
    requires forall k :: k in changes ==> changes[k].AddInPlace?
    requires ApplyChanges(names, global, changes).Ok?
    ensures ApplyChanges(names, zeros, changes).Ok?
    ensures ReduceAll(names, reductions, global, ApplyChanges(names, zeros, changes).value, count).Ok?
    ensures ReduceAll(names, reductions, global, ApplyChanges(names, zeros, changes).value, count).value
            == ApplyChanges(names, global, changes).value
  {
    forall k | k in names && k in zeros && k in changes
      ensures ApplyChange(zeros[k], changes[k]).Ok?
    {
      ApplyChangesEach(names, global, changes, k);
    }
    ApplyChangesOk(names, zeros, changes);
    SumMergeOfZeroBasedLocal(names, reductions, zeros, global, changes, count);
  }

  /** One state of `SumMergeOfZeroBasedBatch`. */
  lemma SumMergeKey(names: seq<string>, zeros: map<string, StateVal>, global: map<string, StateVal>,
                    changes: map<string, Change>, count: nat, k: string)
    requires count > 0
    requires forall i, j :: 0 <= i < j < |names| ==> names[i] != names[j]
    requires k in names && k in global && k in zeros
    requires zeros[k].TensorState? && IsZero(zeros[k].tensor)
    requires global[k].TensorState? && global[k].tensor.shape == zeros[k].tensor.shape
    requires |global[k].tensor.data| == |zeros[k].tensor.data|
    requires k in changes ==> changes[k].AddInPlace?
    requires ApplyChanges(names, global, changes).Ok? && ApplyChanges(names, zeros, changes).Ok?
    ensures ReduceOne(SumReduction, global[k], ApplyChanges(names, zeros, changes).value[k], count)
            == Some(ApplyChanges(names, global, changes).value[k])
  {
    if k in changes {
      ApplyChangesEach(names, global, changes, k);
      ApplyChangesEach(names, zeros, changes, k);
      SumReductionOfZeroBasedBatch(global[k].tensor, zeros[k].tensor, changes[k].amount, count);
    } else {
      SumWithZero(global[k].tensor, zeros[k].tensor, count);
    }
  }

  /** The second half of `SumMergeOfZeroBasedBatch`, once the batch states
      are known to exist. */
  lemma {:induction false} SumMergeOfZeroBasedLocal(names: seq<string>, reductions: map<string, Reduction>,
                                                    zeros: map<string, StateVal>, global: map<string, StateVal>,
                                                    changes: map<string, Change>, count: nat)
    requires count > 0
    requires forall i, j :: 0 <= i < j < |names| ==> names[i] != names[j]
    requires forall k :: k in global <==> k in names
    requires zeros.Keys == global.Keys
    requires forall k :: k in names ==>
      k in reductions && reductions[k] == SumReduction && zeros[k].TensorState? && IsZero(zeros[k].tensor)
      && global[k].TensorState? && global[k].tensor.shape == zeros[k].tensor.shape
      && |global[k].tensor.data| == |zeros[k].tensor.data|
    requires forall k :: k in changes ==> changes[k].AddInPlace?
    requires ApplyChanges(names, global, changes).Ok? && ApplyChanges(names, zeros, changes).Ok?
    ensures ReduceAll(names, reductions, global, ApplyChanges(names, zeros, changes).value, count).Ok?
    ensures ReduceAll(names, reductions, global, ApplyChanges(names, zeros, changes).value, count).value
            == ApplyChanges(names, global, changes).value
  {
    var direct := ApplyChanges(names, global, changes).value;
    var local := ApplyChanges(names, zeros, changes).value;
    forall k | k in names
      ensures ReduceOne(reductions[k], global[k], local[k], count) == Some(direct[k])
    {
      SumMergeKey(names, zeros, global, changes, count, k);
    }
    ReduceAllAgrees(names, reductions, global, local, count, direct);
  }
}

