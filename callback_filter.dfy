/** The filter that delegates to a user callback
    (src/Filter/CallbackFilter.php): it refuses to run without a callable
    `callback`, runs it once, and then decides whether it is active. */
module CallbackFilters {
  import opened FilterValues
  import opened Forms

  /** A user-supplied PHP callable; only its identity is modelled. */
  datatype UserCallable = UserCallable(id: nat)

  /** The `callback` option: a callable, or anything `is_callable` rejects
      (null by default). */
  datatype CallbackOption = NotCallable(v: PhpValue) | Callable(callable: UserCallable)

  /** The `active_callback` option: a callable from the filter data to the
      new `active` flag, or anything `is_callable` rejects. */
  datatype ActiveCallbackOption =
    | ActiveNotCallable(v: PhpValue)
    | ActiveCallable(decide: Payload -> bool)

  /** The default `active_callback`: `isset($data['value']) && $data['value']`.
      A payload that is not an array is taken to have no `value` entry: true
      of null, scalars and strings, but not of objects (see the README). */
  function DefaultActiveCallback(payload: Payload): (isActive: bool)
    ensures isActive ==> payload.Array? && ValueIsSet(payload.data)
    ensures isActive <==>
              payload.Array? && payload.data.value.Some? && !Falsy(payload.data.value.value)
  {
    payload.Array? && ValueIsSet(payload.data) && Truthy(payload.data.value.value)
  }

  /** The five entries `getDefaultOptions` contributes. */
  datatype DefaultOptionSet = DefaultOptionSet(
    callback: CallbackOption,
    activeCallback: ActiveCallbackOption,
    fieldType: FormType,
    operatorType: FormType,
    operatorOptions: map<string, PhpValue>)

  /** `getDefaultOptions`. */
  function DefaultOptions(): (o: DefaultOptionSet)
    ensures o.callback == NotCallable(Null)
    ensures o.activeCallback.ActiveCallable?
    ensures forall payload :: o.activeCallback.decide(payload) == DefaultActiveCallback(payload)
    ensures o.fieldType == TextType && o.operatorType == HiddenType
    ensures o.operatorOptions == map[]
  {
    DefaultOptionSet(NotCallable(Null), ActiveCallable(DefaultActiveCallback), TextType, HiddenType, map[])
  }

  /** The options of a configured filter, after the host framework has
      merged the defaults with the user's settings. */
  datatype CallbackOptions = CallbackOptions(
    callback: CallbackOption,
    activeCallback: ActiveCallbackOption,
    fieldType: FormType,
    fieldOptions: map<string, PhpValue>,
    operatorType: FormType,
    operatorOptions: map<string, PhpValue>,
    fieldLabel: PhpValue)

  const InvalidCallbackPrefix: string := "Please provide a valid callback option \"filter\" for field \""

  /** The message of the RuntimeException raised without a callable
      `callback`; it names the filter. */
  function InvalidCallbackMessage(name: string): (m: string)
    ensures |m| == |InvalidCallbackPrefix| + |name| + 1
    ensures m[..|InvalidCallbackPrefix|] == InvalidCallbackPrefix
    ensures m[|InvalidCallbackPrefix|..|m| - 1] == name
    ensures m[|m| - 1] == '"'
  {
    InvalidCallbackPrefix + name + "\""
  }

  datatype CallbackFilterError =
    | InvalidCallback(message: string)       // no callable `callback` option
    | CallbackRaised(callable: UserCallable)  // the user callback threw
    | ActiveCallbackRaised                    // the `active_callback` threw

  /** One run of the user callback with `($query, $field, $data)`. */
  datatype Invocation = Invocation(callable: UserCallable, query: Query, field: string, data: Payload)

  /** The flag once the user callback has returned: the `active_callback`
      verdict when that option is callable, `true` otherwise. */
  function ActiveVerdict(activeCallback: ActiveCallbackOption, payload: Payload): bool
  {
    if activeCallback.ActiveCallable? then activeCallback.decide(payload) else true
  }

  /** With the default options left in place, the flag after a callback
      that returns is exactly "the value is set and truthy". */
  lemma DefaultVerdict(payload: Payload)
    ensures ActiveVerdict(DefaultOptions().activeCallback, payload) <==>
              payload.Array? && ValueIsSet(payload.data) && !Falsy(payload.data.value.value)
  {
    assert DefaultOptions().activeCallback.decide(payload) == DefaultActiveCallback(payload);
  }

  /** One `filter` call: the payload, whether the user callback throws,
      and whether a callable `active_callback` throws. */
  datatype Run = Run(data: Payload, callbackRaises: bool, activeCallbackRaises: bool)

  /** The call gets as far as assigning `active`: the callback is callable
      and returns, and so does the `active_callback` when it is callable. */
  predicate Completes(options: CallbackOptions, run: Run)
  {
    && options.callback.Callable? && !run.callbackRaises
    && !(options.activeCallback.ActiveCallable? && run.activeCallbackRaises)
  }

  /** The `active` flag after a run of `filter` calls on one filter. */
  function ActiveAfterRuns(options: CallbackOptions, active: bool, runs: seq<Run>): bool
    decreases |runs|
  {
    if runs == [] then active
    else
      var next := if Completes(options, runs[0])
                  then ActiveVerdict(options.activeCallback, runs[0].data)
                  else active;
      ActiveAfterRuns(options, next, runs[1..])
  }

  /** Running `s` and then `t` is running `s + t`. */
  lemma {:induction false} ActiveAfterRunsConcat(options: CallbackOptions, active: bool,
                                                 s: seq<Run>, t: seq<Run>)
    ensures ActiveAfterRuns(options, active, s + t)
            == ActiveAfterRuns(options, ActiveAfterRuns(options, active, s), t)
    decreases |s|
  {
    if s == [] {
      assert s + t == t;
    } else {
      assert (s + t)[0] == s[0];
      assert (s + t)[1..] == s[1..] + t;
      var next := if Completes(options, s[0])
                  then ActiveVerdict(options.activeCallback, s[0].data)
                  else active;
      ActiveAfterRunsConcat(options, next, s[1..], t);
    }
  }

  /** Calls that fail, for want of a callable callback or because one of
      the two callbacks throws, leave the flag as it was. */
  lemma {:induction false} FailedRunsKeepActive(options: CallbackOptions, active: bool, runs: seq<Run>)
    requires forall i | 0 <= i < |runs| :: !Completes(options, runs[i])
    ensures ActiveAfterRuns(options, active, runs) == active
    decreases |runs|
  {
    if runs != [] {
      assert !Completes(options, runs[0]);
      FailedRunsKeepActive(options, active, runs[1..]);
    }
  }

  /** Unlike the date filters' flag, this one is overwritten: the last call
      that completes decides it, whatever came before. */
  lemma {:induction false} LastCompletedRunDecides(options: CallbackOptions, active: bool,
                                                   runs: seq<Run>, k: nat)
    requires k < |runs| && Completes(options, runs[k])
    requires forall j | k < j < |runs| :: !Completes(options, runs[j])
    ensures ActiveAfterRuns(options, active, runs)
            == ActiveVerdict(options.activeCallback, runs[k].data)
    decreases |runs|
  {
    if k == 0 {
      FailedRunsKeepActive(options, ActiveVerdict(options.activeCallback, runs[0].data), runs[1..]);
    } else {
      var next := if Completes(options, runs[0])
                  then ActiveVerdict(options.activeCallback, runs[0].data)
                  else active;
      LastCompletedRunDecides(options, next, runs[1..], k - 1);
    }
  }

  /** A callback filter: its name and resolved options are fixed; `active`
      is the flag `filter` sets and `invocations` logs the user callback's
      runs. */
  class CallbackFilter {
    const name: string
    const options: CallbackOptions
    var active: bool
    var invocations: seq<Invocation>

    constructor (name: string, options: CallbackOptions)
      ensures this.name == name && this.options == options
      ensures !active && invocations == []
    {
      this.name := name;
      this.options := options;
      active := false;
      invocations := [];
    }

    /** `getRenderSettings`: the default filter form, with the field and
        operator settings and the label passed through. */
    function RenderSettings(): (r: RenderSettings)
      ensures r.formType == DefaultType
      ensures r.fieldType == options.fieldType && r.fieldOptions == options.fieldOptions
      ensures r.operatorType == Some(options.operatorType)
      ensures r.operatorOptions == Some(options.operatorOptions)
      ensures r.fieldLabel == options.fieldLabel
    {
      Forms.RenderSettings(DefaultType, options.fieldType, options.fieldOptions,
                           Some(options.operatorType), Some(options.operatorOptions),
                           options.fieldLabel)
    }

    /** `call_user_func($callback, $query, $field, $data)`. What the
        callback does is unknown; whether it throws is a parameter. */
    method Invoke(callable: UserCallable, query: Query, field: string, data: Payload,
                  raises: bool)
      returns (r: Outcome<CallbackFilterError>)
      modifies this
      ensures invocations == old(invocations) + [Invocation(callable, query, field, data)]
      ensures r == if raises then Fail(CallbackRaised(callable)) else Pass
      ensures active == old(active)
    {
      invocations := invocations + [Invocation(callable, query, field, data)];
      r := if raises then Fail(CallbackRaised(callable)) else Pass;
    }

    /** `filter`: check the callback, run it once, then set `active`. The
        flag is written only after both callbacks have returned, so a throw
        from either leaves it as it was. Whether each throws is a parameter;
        `activeCallbackRaises` matters only when `active_callback` is
        callable. */
    method Filter(query: Query, field: string, data: Payload,
                  callbackRaises: bool, activeCallbackRaises: bool)
      returns (r: Outcome<CallbackFilterError>)
      modifies this
      ensures !options.callback.Callable? ==>
                && r == Fail(InvalidCallback(InvalidCallbackMessage(name)))
                && active == old(active) && invocations == old(invocations)
      ensures options.callback.Callable? ==>
                invocations == old(invocations)
                               + [Invocation(options.callback.callable, query, field, data)]
      ensures options.callback.Callable? && callbackRaises ==>
                r == Fail(CallbackRaised(options.callback.callable)) && active == old(active)
      ensures options.callback.Callable? && !callbackRaises
              && options.activeCallback.ActiveCallable? && activeCallbackRaises ==>
                r == Fail(ActiveCallbackRaised) && active == old(active)
      ensures Completes(options, Run(data, callbackRaises, activeCallbackRaises)) ==>
                r == Pass && active == ActiveVerdict(options.activeCallback, data)
      ensures active == ActiveAfterRuns(options, old(active),
                                        [Run(data, callbackRaises, activeCallbackRaises)])
    {
      if !options.callback.Callable? {
        return Fail(InvalidCallback(InvalidCallbackMessage(name)));
      }
      r := Invoke(options.callback.callable, query, field, data, callbackRaises);
      if r.Fail? {
        return;
      }
      if options.activeCallback.ActiveCallable? {
        if activeCallbackRaises {
          return Fail(ActiveCallbackRaised);
        }
        active := options.activeCallback.decide(data);
        return;
      }
      active := true;
    }
  }
}
