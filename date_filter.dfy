/** The request handling shared by the MongoDB date filters
    (src/Filter/AbstractDateFilter.php): payload normalisation, dispatch on
    the date operator code, the translation of codes to query-builder
    operators, and the choice of render form type. */
module DateFilters {
  import opened FilterValues
  import opened Forms

  // Codes of Sonata AdminBundle's DateOperatorType.
  const TypeGreaterEqual: int := 1
  const TypeGreaterThan: int := 2
  const TypeEqual: int := 3
  const TypeLessEqual: int := 4
  const TypeLessThan: int := 5

  /** The codes `filter` dispatches on. */
  const DateCodes: set<int> :=
    {TypeGreaterEqual, TypeGreaterThan, TypeEqual, TypeLessEqual, TypeLessThan}

  /** The codes `filter` hands to `applyType` rather than to a hook. */
  const OperatorCodes: set<int> := {TypeGreaterEqual, TypeLessThan}

  /** `getDefaultOptions`. */
  function DefaultOptions(): (options: map<string, PhpValue>)
    ensures options.Keys == {"input_type"}
    ensures options["input_type"] == Str("datetime")
  {
    map["input_type" := Str("datetime")]
  }

  /** The form type `getRenderSettings` names for the `time` and `range`
      flags; the four cases are exhaustive and pairwise disjoint. */
  function RenderType(time: bool, range: bool): (t: FormType)
    ensures t == DateTimeRangeType <==> time && range
    ensures t == DateTimeType <==> time && !range
    ensures t == DateRangeType <==> !time && range
    ensures t == DateType <==> !time && !range
  {
    if time && range then DateTimeRangeType
    else if time then DateTimeType
    else if range then DateRangeType
    else DateType
  }

  /** The code `filter` works with: a missing or non-numeric `type` falls
      back to equality, a numeric one is cast to an integer. */
  function NormaliseType(t: TypeEntry): (code: int)
    ensures t.Numeric? ==> code == t.cast
    ensures !t.Numeric? ==> code == TypeEqual
  {
    if t.Numeric? then t.cast else TypeEqual
  }

  /** The comparison a MongoDB query-builder operator performs, as a date
      operator code; the reference `OperatorName` is checked against. */
  function OperatorCode(op: string): Option<int>
  {
    if op == "equals" then Some(TypeEqual)
    else if op == "gte" then Some(TypeGreaterEqual)
    else if op == "gt" then Some(TypeGreaterThan)
    else if op == "lte" then Some(TypeLessEqual)
    else if op == "lt" then Some(TypeLessThan)
    else None
  }

  /** `getOperator`: the query-builder operator for a code. An unknown
      code is an undefined array key, which PHP reads as null. */
  function OperatorName(code: int): (op: Option<string>)
    ensures op.Some? <==> code in DateCodes
    ensures op.Some? ==> OperatorCode(op.value) == Some(code)
  {
    if code == TypeEqual then Some("equals")
    else if code == TypeGreaterEqual then Some("gte")
    else if code == TypeGreaterThan then Some("gt")
    else if code == TypeLessEqual then Some("lte")
    else if code == TypeLessThan then Some("lt")
    else None
  }

  lemma OperatorNameInjective(a: int, b: int)
    requires OperatorName(a).Some? && OperatorName(a) == OperatorName(b)
    ensures a == b
  {
  }

  lemma OperatorCodeRoundTrip(op: string)
    requires OperatorCode(op).Some?
    ensures OperatorName(OperatorCode(op).value) == Some(op)
  {
  }

  /** The three abstract hooks subclasses define. */
  datatype Hook = IsEqual | IsGreaterThan | IsLessEqual

  /** A call `filter` makes: one of the hooks, or
      `$query->getQueryBuilder()->field($field)->$operation($datetime)`. */
  datatype Call =
    | HookCall(hook: Hook, query: Query, field: string, data: FilterData)
    | FieldQuery(query: Query, field: string, operation: string, datetime: PhpValue)

  /** The comparison a call performs, as a date operator code. */
  function CallCode(c: Call): Option<int>
  {
    match c
    case HookCall(IsEqual, _, _, _) => Some(TypeEqual)
    case HookCall(IsGreaterThan, _, _, _) => Some(TypeGreaterThan)
    case HookCall(IsLessEqual, _, _, _) => Some(TypeLessEqual)
    case FieldQuery(_, _, operation, _) => OperatorCode(operation)
  }

  /** Raised when `applyType` receives something that is neither a
      `\DateTime` nor null for its typed parameter. */
  datatype DateFilterError = NotADateTime(given: PhpValue)

  /** What `applyType`'s `?\DateTime $datetime` parameter accepts. */
  predicate AcceptsDateTime(v: PhpValue)
  {
    v.DateTime? || v.Null?
  }

  /** The payload is an array with a value set and a recognised code:
      exactly the payloads for which `filter` sets `active`. */
  predicate Activates(payload: Payload)
  {
    payload.Array? && ValueIsSet(payload.data) && NormaliseType(payload.data.typ) in DateCodes
  }

  /** The calls `filter` appends and what it returns. */
  datatype Effect = Effect(calls: seq<Call>, outcome: Outcome<DateFilterError>)

  /** What one `filter` call does: at most one call, the one whose
      comparison is the requested code, on the normalised payload. */
  function Expected(query: Query, field: string, payload: Payload): (e: Effect)
    ensures !Activates(payload) ==> e == Effect([], Pass)
    ensures |e.calls| <= 1
    ensures e.outcome.Fail? <==>
              Activates(payload) && NormaliseType(payload.data.typ) in OperatorCodes
              && !AcceptsDateTime(payload.data.value.value)
    ensures e.outcome.Fail? ==> e.outcome == Fail(NotADateTime(payload.data.value.value))
    ensures e.calls == [] <==> !Activates(payload) || e.outcome.Fail?
    ensures Activates(payload) ==>
              var code := NormaliseType(payload.data.typ);
              forall c | c in e.calls ::
                && c.query == query && c.field == field
                && CallCode(c) == Some(code)
                && (c.FieldQuery? <==> code in OperatorCodes)
                && (c.HookCall? ==> c.data == payload.data.(typ := Numeric(code)))
                && (c.FieldQuery? ==> c.datetime == payload.data.value.value)
  {
    if !Activates(payload) then Effect([], Pass)
    else
      var code := NormaliseType(payload.data.typ);
      var data := payload.data.(typ := Numeric(code));
      if code == TypeEqual then Effect([HookCall(IsEqual, query, field, data)], Pass)
      else if code == TypeGreaterThan then Effect([HookCall(IsGreaterThan, query, field, data)], Pass)
      else if code == TypeLessEqual then Effect([HookCall(IsLessEqual, query, field, data)], Pass)
      else if AcceptsDateTime(data.value.value) then
        Effect([FieldQuery(query, field, OperatorName(code).value, data.value.value)], Pass)
      else Effect([], Fail(NotADateTime(data.value.value)))
  }

  /** The `active` flag after a run of `filter` calls on one filter. */
  function ActiveAfter(active: bool, payloads: seq<Payload>): bool
    decreases |payloads|
  {
    if payloads == [] then active
    else ActiveAfter(active || Activates(payloads[0]), payloads[1..])
  }

  /** Running `s` and then `t` is running `s + t`. */
  lemma {:induction false} ActiveAfterConcat(active: bool, s: seq<Payload>, t: seq<Payload>)
    ensures ActiveAfter(active, s + t) == ActiveAfter(ActiveAfter(active, s), t)
    decreases |s|
  {
    if s == [] {
      assert s + t == t;
    } else {
      assert (s + t)[0] == s[0];
      assert (s + t)[1..] == s[1..] + t;
      ActiveAfterConcat(active || Activates(s[0]), s[1..], t);
    }
  }

  /** No path of `filter` clears `active`: after any run of calls the flag
      is set exactly when it was set before or some payload activated it. */
  lemma {:induction false} ActiveIsALatch(active: bool, payloads: seq<Payload>)
    ensures ActiveAfter(active, payloads) <==>
              active || exists i :: 0 <= i < |payloads| && Activates(payloads[i])
    decreases |payloads|
  {
    if payloads != [] {
      ActiveIsALatch(active || Activates(payloads[0]), payloads[1..]);
      var rest := payloads[1..];
      if exists i :: 0 <= i < |payloads| && Activates(payloads[i]) {
        var i :| 0 <= i < |payloads| && Activates(payloads[i]);
        if i > 0 {
          assert Activates(rest[i - 1]);
        }
      }
      if exists j :: 0 <= j < |rest| && Activates(rest[j]) {
        var j :| 0 <= j < |rest| && Activates(rest[j]);
        assert Activates(payloads[j + 1]);
      }
    }
  }

  /** A date filter: `time` and `range` are fixed by the subclass, `active`
      is the flag `filter` sets, and `calls` logs the query-builder and hook
      calls it has made. */
  class AbstractDateFilter {
    const time: bool
    const range: bool
    const fieldType: FormType
    const fieldOptions: map<string, PhpValue>
    const fieldLabel: PhpValue
    var active: bool
    var calls: seq<Call>

    constructor (time: bool, range: bool, fieldType: FormType,
                 fieldOptions: map<string, PhpValue>, fieldLabel: PhpValue)
      ensures this.time == time && this.range == range
      ensures this.fieldType == fieldType && this.fieldOptions == fieldOptions
      ensures this.fieldLabel == fieldLabel
      ensures !active && calls == []
    {
      this.time := time;
      this.range := range;
      this.fieldType := fieldType;
      this.fieldOptions := fieldOptions;
      this.fieldLabel := fieldLabel;
      active := false;
      calls := [];
    }

    /** `getRenderSettings`: the form type chosen by the flags, with the
      field type, field options and label passed through. */
    function RenderSettings(): (r: RenderSettings)
      ensures r.formType == RenderType(time, range)
      ensures r.fieldType == fieldType && r.fieldOptions == fieldOptions && r.fieldLabel == fieldLabel
      ensures r.operatorType.None? && r.operatorOptions.None?
    {
      Forms.RenderSettings(RenderType(time, range), fieldType, fieldOptions, None, None, fieldLabel)
    }

    /** One of the abstract hooks; subclasses define their bodies, so only
        the call is recorded. */
    method ApplyHook(hook: Hook, query: Query, field: string, data: FilterData)
      modifies this
      ensures calls == old(calls) + [HookCall(hook, query, field, data)]
      ensures active == old(active)
    {
      calls := calls + [HookCall(hook, query, field, data)];
    }

    /** `applyType`: one `field($field)->$operation($datetime)` call, then
        `active` is set. A value that is neither a date nor null is refused
        by the typed parameter before anything happens. */
    method ApplyType(query: Query, operation: string, field: string, datetime: PhpValue)
      returns (r: Outcome<DateFilterError>)
      modifies this
      ensures AcceptsDateTime(datetime) ==>
                r == Pass && active
                && calls == old(calls) + [FieldQuery(query, field, operation, datetime)]
      ensures !AcceptsDateTime(datetime) ==>
                r == Fail(NotADateTime(datetime)) && active == old(active) && calls == old(calls)
    {
      if !AcceptsDateTime(datetime) {
        return Fail(NotADateTime(datetime));
      }
      calls := calls + [FieldQuery(query, field, operation, datetime)];
      active := true;
      r := Pass;
    }

    /** `filter`: normalise the payload, then dispatch on its code. */
    method Filter(query: Query, field: string, payload: Payload)
      returns (r: Outcome<DateFilterError>)
      modifies this
      ensures calls == old(calls) + Expected(query, field, payload).calls
      ensures r == Expected(query, field, payload).outcome
      ensures active == (old(active) || Activates(payload))
      ensures active == ActiveAfter(old(active), [payload])
    {
      r := Pass;
      if !payload.Array? {
        return;
      }
      var data := payload.data;
      var code := NormaliseType(data.typ);
      data := data.(typ := Numeric(code));
      if !ValueIsSet(data) {
        return;
      }
      if code == TypeEqual {
        active := true;
        ApplyHook(IsEqual, query, field, data);
      } else if code == TypeGreaterThan {
        active := true;
        ApplyHook(IsGreaterThan, query, field, data);
      } else if code == TypeLessEqual {
        active := true;
        ApplyHook(IsLessEqual, query, field, data);
      } else if code == TypeGreaterEqual || code == TypeLessThan {
        active := true;
        var operation := OperatorName(code);
        r := ApplyType(query, operation.value, field, data.value.value);
      }
    }
  }
}
