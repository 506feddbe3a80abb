/** The PHP values that flow through the filters: the payload the form
    layer submits, the values inside it, and PHP's notion of truthiness. */
module FilterValues {

  datatype Option<+T> = None | Some(value: T)

  /** A PHP value as far as the filters look at it. Array keys are not
      modelled: an array is the sequence of its values. */
  datatype PhpValue =
    | Null
    | Bool(b: bool)
    | Int(i: int)
    | Float(r: real)
    | Str(s: string)
    | Arr(elements: seq<PhpValue>)
    | DateTime(instant: int)  // a \DateTime object, by its instant
    | Object(id: nat)         // any other object, by its identity

  /** PHP's conversion to bool: `(bool) $v`. */
  function Truthy(v: PhpValue): bool
  {
    match v
    case Null => false
    case Bool(b) => b
    case Int(i) => i != 0
    case Float(r) => r != 0.0
    case Str(s) => s != "" && s != "0"
    case Arr(elements) => elements != []
    case DateTime(_) => true
    case Object(_) => true
  }

  /** The list of falsy values in the PHP manual, written independently
      of `Truthy`. */
  predicate Falsy(v: PhpValue)
  {
    v == Null || v == Bool(false) || v == Int(0) || v == Float(0.0)
    || v == Str("") || v == Str("0") || v == Arr([])
  }

  lemma TruthyIsNotFalsy(v: PhpValue)
    ensures Truthy(v) <==> !Falsy(v)
  {
  }

  /** The `type` entry of a filter payload, as `isset` and `is_numeric`
      see it. `Numeric(cast)` carries the result of `(int) $data['type']`. */
  datatype TypeEntry = Absent | NonNumeric | Numeric(cast: int)

  /** The entries of a filter payload the filters read. `value` is `None`
      when the key is missing and `Some(Null)` when it holds null. */
  datatype FilterData = FilterData(typ: TypeEntry, value: Option<PhpValue>)

  /** What the form layer hands to `filter`: an array, or something else.
      `NotArray` stands for the non-array values only; an `Arr` inside it
      is not a meaningful payload (it would read as an array without the
      `type` and `value` keys, which both filters ignore). */
  datatype Payload = NotArray(v: PhpValue) | Array(data: FilterData)

  /** `isset($data['value'])` on an array payload. */
  predicate ValueIsSet(data: FilterData)
  {
    data.value.Some? && data.value.value != Null
  }

  /** Success, or the error a call raised. */
  datatype Outcome<+E> = Pass | Fail(error: E)

  /** A value, or the exception raised instead of returning one. */
  datatype Result<+T, +E> = Success(value: T) | Failure(error: E)

  /** The query object handed to `filter`; only its identity is modelled. */
  datatype Query = Query(id: nat)
}
