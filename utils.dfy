/** Call plumbing shared by the metrics: the argument-name introspection
    helper, the decorator that validates keyword arguments before a metric
    body runs, the handler that feeds a metric its parsed keyword arguments,
    and the switch between the validated and the raw metric. */
module Utils {
  import opened Wrappers

  /** The list with the first occurrence of `x` removed (`list.remove`). */
  function RemoveFirst(s: seq<string>, x: string): (r: seq<string>)
    ensures x !in s ==> r == s
    ensures x in s ==> |r| == |s| - 1
    ensures forall y :: y in r ==> y in s
  {
    if |s| == 0 then []
    else if s[0] == x then s[1..]
    else [s[0]] + RemoveFirst(s[1..], x)
  }

  /** Index of the first occurrence of `x`. */
  function FirstIndex(s: seq<string>, x: string): (i: nat)
    requires x in s
    ensures i < |s| && s[i] == x && x !in s[..i]
  {
    if s[0] == x then 0 else 1 + FirstIndex(s[1..], x)
  }

  /** `get_function_arg_names`: the declared argument names without the receiver. */
  function ArgNames(args: seq<string>): seq<string>
  {
    if "self" in args then RemoveFirst(args, "self") else args
  }

  /** Removing the first "self" deletes exactly that position and keeps the
      order of every other name. */
  lemma {:induction false} RemoveFirstDeletesFirstIndex(s: seq<string>, x: string)
    requires x in s
    ensures RemoveFirst(s, x) == s[..FirstIndex(s, x)] + s[FirstIndex(s, x) + 1..]
  {
    if s[0] != x {
      RemoveFirstDeletesFirstIndex(s[1..], x);
      assert s[1..][..FirstIndex(s[1..], x)] == s[1..FirstIndex(s, x)];
      assert s[1..][FirstIndex(s[1..], x) + 1..] == s[FirstIndex(s, x) + 1..];
    }
  }

  /** What `get_function_arg_names` returns, stated without reference to how it
      is computed: the names are unchanged when there is no "self", and
      otherwise lose exactly the first "self" and nothing else. */
  lemma ArgNamesSpec(args: seq<string>)
    ensures "self" !in args ==> ArgNames(args) == args
    ensures "self" in args ==>
      var i := FirstIndex(args, "self");
      |ArgNames(args)| == |args| - 1 && ArgNames(args) == args[..i] + args[i + 1..]
  {
    if "self" in args {
      RemoveFirstDeletesFirstIndex(args, "self");
    }
  }

  /** `argument_validator(validator_model)(func)`: the keyword arguments are
      validated first; `func` runs only on acceptance, with the positional
      arguments unchanged and the validated keyword arguments. */
  function ArgumentValidator<P, K, R, E>(validator: K -> Result<K, E>, func: (P, K) -> R,
                                         args: P, kwargs: K): (r: Result<R, E>)
    ensures r.Ok? <==> validator(kwargs).Ok?
    ensures r.Err? ==> r.error == validator(kwargs).error
    ensures r.Ok? ==> r.value == func(args, validator(kwargs).value)
  {
    match validator(kwargs)
    case Err(e) => Err(e)
    case Ok(validated) => Ok(func(args, validated))
  }

  /** `validation_handler(func)`: `func` receives only the keyword dictionary
      that the metric's `_parse_input` builds from the call's arguments. */
  function ValidationHandler<S, A, K, R>(parseInput: (S, A) -> K, func: (S, K) -> R,
                                         self: S, args: A): (r: R)
    ensures r == func(self, parseInput(self, args))
  {
    func(self, parseInput(self, args))
  }

  /** `call_metric(func, validate, **kwargs)` for a metric `func` decorated
      with `argument_validator`: the decorated function when `validate` is set,
      the undecorated `func.__wrapped__` otherwise. */
  function CallMetric<K, R, E>(validate: bool, validator: K -> Result<K, E>, metric: K -> R,
                               kwargs: K): (r: Result<R, E>)
    ensures !validate ==> r == Ok(metric(kwargs))
    ensures validate ==> (r.Ok? <==> validator(kwargs).Ok?)
    ensures validate && r.Ok? ==> r.value == metric(validator(kwargs).value)
    ensures validate && r.Err? ==> r.error == validator(kwargs).error
  {
    if validate then ArgumentValidator(validator, (_: (), k: K) => metric(k), (), kwargs)
    else Ok(metric(kwargs))
  }

  /** Validation never changes the value of a call it accepts when the
      validator hands back the arguments it was given, as every validator
      rule of the library does. */
  lemma CallMetricValidationTransparent<K, R, E>(validator: K -> Result<K, E>, metric: K -> R, kwargs: K)
    requires validator(kwargs).Ok? ==> validator(kwargs).value == kwargs
    ensures CallMetric(true, validator, metric, kwargs).Ok? ==>
      CallMetric(true, validator, metric, kwargs) == CallMetric(false, validator, metric, kwargs)
  {
  }
}
