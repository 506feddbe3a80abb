# SonataDoctrineMongoDBAdminBundle filters, modelled in Dafny

This project models the decision logic of three pieces of the MongoDB
adapter for Sonata AdminBundle:

- the date filters' request handling (`AbstractDateFilter`). It normalises
  the submitted filter payload and dispatches on one of five date operator
  codes, either to one abstract hook or to one query-builder call. It also
  translates codes to MongoDB operators (`equals`, `gte`, `gt`, `lte`, `lt`),
  chooses the render form type from the `time` and `range` flags, and sets
  the filter's `active` flag;
- the callback filter (`CallbackFilter`). It refuses to run without a
  callable `callback` option, runs the callback once, and then sets `active`
  from the `active_callback` option or to `true`;
- the filter-type guess for a document field, as its test suite fixes it:
  a table from ODM mapping type to filter class and confidence, the
  association case, and the missing-metadata error.

Files:

- `values.dfy` (module `FilterValues`): PHP values, PHP truthiness, the
  filter payload, `Option`, `Outcome` and `Result`.
- `forms.dfy` (module `Forms`): form-type tags and the render-settings
  record.
- `date_filter.dfy` (module `DateFilters`): class `AbstractDateFilter`, with
  the `active` flag and a log of the hook and query-builder calls it makes.
  Beside it are the pure functions that specify it.
- `callback_filter.dfy` (module `CallbackFilters`): class `CallbackFilter`,
  with the `active` flag and a log of user-callback runs.
- `type_guesser.dfy` (module `FilterTypeGuessing`): the guess as a pure
  function, and the three tests as lemmas.

Modelling choices:

- The payload's `type` entry is `Absent`, `NonNumeric` or `Numeric(cast)`.
  `cast` is the result of PHP's `(int)` on a numeric value. A null entry
  counts as `Absent`, as `isset` sees it.
- `value` is `None` when the key is missing and `Some(Null)` when it holds
  null. Both fail `isset`.
- The hooks receive the payload with `type` replaced by the normalised code,
  because `filter` writes the code back into `$data` before dispatching.
- `applyType` declares its date parameter as `?\DateTime`. A value that is
  neither a date nor null therefore raises a TypeError before the query is
  built. The model returns `Fail(NotADateTime(...))` there. On that path
  `filter` has already set `active`.
- The operator codes are those of AdminBundle's `DateOperatorType`
  (GREATER_EQUAL 1, GREATER_THAN 2, EQUAL 3, LESS_EQUAL 4, LESS_THAN 5).
  `DateOperatorType` is not part of this model. The proofs use only that
  the five codes are distinct.
- Whether the user callback throws, and whether a callable `active_callback`
  throws, are parameters of `CallbackFilter.Filter`. Either throw propagates
  before `active` is assigned, so the flag keeps its old value.
- The guesser's source is not part of this model. `Guess` agrees with every
  assertion of the tests and extends them to a total function in three
  ways, each listed under "## Left out". The association test's field has
  both a field mapping and an association mapping and is expected to give
  ModelFilter; `Guess` lets the association mapping win for every field
  that has one.

## Model

| member | source | states |
|---|---|---|
| `DateFilters.DefaultOptions` | src/Filter/AbstractDateFilter.php:40-43 | the only default option is `input_type` = `datetime` |
| `DateFilters.RenderType` | src/Filter/AbstractDateFilter.php:45-55 | DateTimeRangeType iff time and range, DateTimeType iff time only, DateRangeType iff range only, DateType iff neither; the four cases are exhaustive and disjoint |
| `DateFilters.AbstractDateFilter.RenderSettings` | src/Filter/AbstractDateFilter.php:45-62 | the form type is the one the flags choose; field type, field options and label are passed through; there are no operator entries |
| `DateFilters.NormaliseType` | src/Filter/AbstractDateFilter.php:83 | a missing or non-numeric type becomes TYPE_EQUAL; a numeric one becomes its integer cast |
| `DateFilters.OperatorName` | src/Filter/AbstractDateFilter.php:165-176 | defined exactly on the five date codes; each operator name maps back to its own code under the independent `OperatorCode` table, so the mapping is injective |
| `DateFilters.OperatorNameInjective` | src/Filter/AbstractDateFilter.php:167-173 | two codes with the same operator name are equal |
| `DateFilters.OperatorCodeRoundTrip` | src/Filter/AbstractDateFilter.php:167-173 | every operator name in the table is produced by exactly its code |
| `DateFilters.Expected` | src/Filter/AbstractDateFilter.php:78-118 | no call unless the payload is an array with a value set and a recognised code; at most one call otherwise; that call performs the requested comparison; EQUAL, GREATER_THAN and LESS_EQUAL go to their hooks with the normalised payload; GREATER_EQUAL and LESS_THAN become a query on the field with the payload's value; a non-date value on that path is a TypeError carrying that value and issues no query |
| `DateFilters.AbstractDateFilter.ApplyHook` | src/Filter/AbstractDateFilter.php:121-134 | an abstract hook call is recorded once and leaves `active` alone |
| `DateFilters.AbstractDateFilter.ApplyType` | src/Filter/AbstractDateFilter.php:141-156 | exactly one `field(field).operation(datetime)` call is logged and `active` is set; a value the typed parameter refuses changes nothing |
| `DateFilters.AbstractDateFilter.Filter` | src/Filter/AbstractDateFilter.php:64-119 | the new call log is the old one followed by `Expected`'s calls; the result is `Expected`'s outcome; `active` is the old flag or-ed with whether the payload activates, which is `ActiveAfter` of the one payload |
| `DateFilters.ActiveAfterConcat` | src/Filter/AbstractDateFilter.php:89-118 | the flag after the calls of `s` and then those of `t` is the flag after the calls of `s + t`; with `Filter`'s contract this makes `ActiveAfter` the flag after any run of `Filter` calls |
| `DateFilters.ActiveIsALatch` | src/Filter/AbstractDateFilter.php:89-118 | no path clears `active`: after any run of `filter` calls the flag is set iff it was set before or some payload activated it |
| `CallbackFilters.DefaultActiveCallback` | src/Filter/CallbackFilter.php:28-30 | the default `active_callback` is true iff the payload is an array whose value is set and not one of PHP's falsy values |
| `CallbackFilters.DefaultOptions` | src/Filter/CallbackFilter.php:24-35 | `callback` is null (not callable); `active_callback` is the default one; `field_type` is TextType; `operator_type` is HiddenType; `operator_options` is empty |
| `CallbackFilters.DefaultVerdict` | src/Filter/CallbackFilter.php:28-30 | with the default options, a filter run whose callback returns is active iff the value is set and truthy |
| `CallbackFilters.InvalidCallbackMessage` | src/Filter/CallbackFilter.php:61-66 | the RuntimeException message names the filter |
| `CallbackFilters.CallbackFilter.RenderSettings` | src/Filter/CallbackFilter.php:37-46 | DefaultType, with field type, field options, operator type, operator options and label passed through unchanged |
| `CallbackFilters.CallbackFilter.Invoke` | src/Filter/CallbackFilter.php:68 | the user callback runs once with (query, field, data) and does not touch `active` |
| `CallbackFilters.CallbackFilter.Filter` | src/Filter/CallbackFilter.php:48-77 | without a callable callback it fails with the message naming the filter, runs nothing and keeps `active`; otherwise the callback runs exactly once; if it throws, `active` is kept; if the callable `active_callback` throws, `active` is kept; otherwise `active` is the `active_callback` verdict when that is callable and `true` otherwise; the new flag is `ActiveAfterRuns` of the one call |
| `CallbackFilters.ActiveAfterRunsConcat` | src/Filter/CallbackFilter.php:61-76 | the flag after the calls of `s` and then those of `t` is the flag after the calls of `s + t`; with `Filter`'s contract this makes `ActiveAfterRuns` the flag after any run of `Filter` calls |
| `CallbackFilters.FailedRunsKeepActive` | src/Filter/CallbackFilter.php:61-71 | over any run of `filter` calls, calls that fail leave `active` as it was: those without a callable callback, and those where the callback or the `active_callback` throws |
| `CallbackFilters.LastCompletedRunDecides` | src/Filter/CallbackFilter.php:68-76 | over any run of `filter` calls, `active` ends as the verdict of the last call that got as far as assigning it, whatever came before |
| `FilterTypeGuessing.TableGuess` | tests/FieldDescription/FilterTypeGuesserTest.php:134-183 | HIGH iff boolean, timestamp or date; MEDIUM iff float, int, string or id; LOW iff the type is not in the table; NumberFilter iff float or int; StringFilter iff string or unknown; never ModelFilter |
| `FilterTypeGuessing.Guess` | tests/FieldDescription/FilterTypeGuesserTest.php:48-127 | fails with missing-property-metadata, naming class and field, iff both mappings are empty; an association yields ModelFilter at HIGH confidence, with field name, mapping type, parent associations and target class as options; a plain field yields the table's guess |
| `FilterTypeGuessing.NoAssociationRowsPass` | tests/FieldDescription/FilterTypeGuesserTest.php:102-183 | every row of the `noAssociationData` provider holds for a plain field of that mapping type |
| `FilterTypeGuessing.MissingFieldThrows` | tests/FieldDescription/FilterTypeGuesserTest.php:48-74 | a field with no field and no association mapping raises missing-property-metadata |
| `FilterTypeGuessing.AssociationGuessesModelFilter` | tests/FieldDescription/FilterTypeGuesserTest.php:76-97 | the to-one association from ContainerDocument to AssociatedDocument guesses ModelFilter at HIGH confidence, with `field_name`, mapping type ONE, no parent associations and the target class |

## Left out

- The deprecation notices raised when the query is not the bundle's own ProxyQueryInterface. They only emit a warning and do not change the result.
- Doctrine ODM's query builder. A `field(f)->op(v)` call is only an entry in the filter's call log.
- `\DateTime` values and date arithmetic. A date is an opaque instant.
- The bodies of `applyTypeIsEqual`, `applyTypeIsGreaterThan` and `applyTypeIsLessEqual`. Subclasses define them and are not part of this model; only their invocation is recorded, and they are taken not to throw.
- PHP's `is_numeric` and `(int)` on strings and floats. The payload's `type` entry arrives already classified, carrying its integer cast.
- Array keys other than `type` and `value` in the payload, and the keys of nested arrays. An array value is the sequence of its elements.
- Floating-point NaN. Float values are reals, so NaN's truthiness is not modelled.
- The base `Filter` class, which resolves options and supplies `getFieldType`, `getFieldOptions`, `getLabel` and `getName`. It is not part of this model; its results are the filters' constant fields.
- CallbackFilters.DefaultActiveCallback: object payloads are not modelled. It returns false for every non-array payload; in PHP an `ArrayAccess` object answers `isset($data['value'])` through `offsetExists`, and any other object makes it throw an `Error`.
- CallbackFilters.DefaultVerdict: inherits the gap above; for an object payload PHP may answer true or throw where the lemma says false.
- CallbackFilters.CallbackFilter.Filter: an `active_callback` returning a non-boolean is not modelled. The verdict is a `bool`. An `active_callback` that throws is modelled by the `activeCallbackRaises` parameter.
- CallbackFilters.CallbackFilter.Invoke: what the user callback does to the query is not modelled. Only its invocation and whether it throws are.
- The guesser itself, FieldDescriptionFactory, the ClassMetadata registry and the test fixtures. Their sources are not part of this model. The form type in the fourth column of `noAssociationData` is kept in the rows but not asserted, as the test ignores it.
- FilterTypeGuessing.TableGuess: the tests check the StringFilter/LOW fallback only for `somefake`. The model extends that fallback to every mapping type outside the table.
- FilterTypeGuessing.Guess: the tests check the error only for a field with neither mapping. The model also lets a field with an association mapping and no field mapping succeed as ModelFilter. It fails only when both mappings are empty.
- FilterTypeGuessing.Guess: the tests check only the exception class of the missing-metadata error. That the error carries the class and field name is the model's choice.
