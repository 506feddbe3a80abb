/** The filter-type guess for a document field, as the guesser's test
    suite (tests/FieldDescription/FilterTypeGuesserTest.php) pins it down:
    a table from the ODM mapping type to a filter class and a confidence,
    an association case, and an error when the field has no metadata. */
module FilterTypeGuessing {
  import opened FilterValues
  import opened Forms

  datatype FilterClass =
    | BooleanFilter
    | DateFilter
    | DateTimeFilter
    | NumberFilter
    | StringFilter
    | IdFilter
    | ModelFilter

  /** Symfony's Guess confidence levels used here, from lowest to highest. */
  datatype Confidence = LowConfidence | MediumConfidence | HighConfidence

  /** Doctrine ODM's ClassMetadata::ONE and ClassMetadata::MANY. */
  datatype MappingKind = One | Many

  datatype AssociationMapping = AssociationMapping(kind: MappingKind, targetDocument: string)

  datatype FieldMapping = FieldMapping(fieldName: string)

  /** What the guesser reads from a field description. An empty mapping
      array is `None`. */
  datatype FieldDescription = FieldDescription(
    className: string,
    fieldName: string,
    mappingType: string,
    fieldMapping: Option<FieldMapping>,
    associationMapping: Option<AssociationMapping>,
    parentAssociationMappings: seq<AssociationMapping>)

  /** The options a ModelFilter guess carries. */
  datatype ModelFilterOptions = ModelFilterOptions(
    fieldName: string,
    mappingType: MappingKind,
    parentAssociationMappings: seq<AssociationMapping>,
    fieldOptionsClass: string)

  /** A TypeGuess; only a ModelFilter guess has options the tests inspect. */
  datatype TypeGuess = TypeGuess(
    filter: FilterClass,
    confidence: Confidence,
    modelOptions: Option<ModelFilterOptions>)

  datatype GuessError = MissingPropertyMetadata(className: string, fieldName: string)

  /** The ODM mapping types the table names (Type::BOOLEAN, TIMESTAMP,
      DATE, FLOAT, INT, STRING and ID). */
  const KnownMappingTypes: set<string> :=
    {"boolean", "timestamp", "date", "float", "int", "string", "id"}

  /** The guess for a plain (non-association) field. Every string has a
      guess: an unknown type falls back to a low-confidence string filter. */
  function TableGuess(mappingType: string): (g: (FilterClass, Confidence))
    ensures g.1 == HighConfidence <==> mappingType in {"boolean", "timestamp", "date"}
    ensures g.1 == MediumConfidence <==> mappingType in {"float", "int", "string", "id"}
    ensures g.1 == LowConfidence <==> mappingType !in KnownMappingTypes
    ensures g.0 == NumberFilter <==> mappingType in {"float", "int"}
    ensures g.0 == StringFilter <==> mappingType == "string" || mappingType !in KnownMappingTypes
    ensures g.0 != ModelFilter
  {
    if mappingType == "boolean" then (BooleanFilter, HighConfidence)
    else if mappingType == "timestamp" then (DateTimeFilter, HighConfidence)
    else if mappingType == "date" then (DateFilter, HighConfidence)
    else if mappingType == "float" then (NumberFilter, MediumConfidence)
    else if mappingType == "int" then (NumberFilter, MediumConfidence)
    else if mappingType == "string" then (StringFilter, MediumConfidence)
    else if mappingType == "id" then (IdFilter, MediumConfidence)
    else (StringFilter, LowConfidence)
  }

  /** `guess`: an association yields a ModelFilter, a plain field the
      table's guess, and a field with neither mapping an error. */
  function Guess(fd: FieldDescription): (r: Result<TypeGuess, GuessError>)
    ensures r.Failure? <==> fd.associationMapping.None? && fd.fieldMapping.None?
    ensures r.Failure? ==> r.error == MissingPropertyMetadata(fd.className, fd.fieldName)
    ensures r.Success? ==> (r.value.filter == ModelFilter <==> fd.associationMapping.Some?)
    ensures r.Success? ==> (r.value.modelOptions.Some? <==> fd.associationMapping.Some?)
    ensures fd.associationMapping.Some? ==>
              && r.Success? && r.value.confidence == HighConfidence
              && r.value.modelOptions.value.fieldName == fd.fieldName
              && r.value.modelOptions.value.mappingType == fd.associationMapping.value.kind
              && r.value.modelOptions.value.parentAssociationMappings == fd.parentAssociationMappings
              && r.value.modelOptions.value.fieldOptionsClass == fd.associationMapping.value.targetDocument
    ensures fd.associationMapping.None? && fd.fieldMapping.Some? ==>
              r.Success? && (r.value.filter, r.value.confidence) == TableGuess(fd.mappingType)
  {
    match fd.associationMapping
    case Some(association) =>
      Success(TypeGuess(ModelFilter, HighConfidence,
        Some(ModelFilterOptions(fd.fieldName, association.kind,
                                fd.parentAssociationMappings, association.targetDocument))))
    case None =>
      if fd.fieldMapping.None? then Failure(MissingPropertyMetadata(fd.className, fd.fieldName))
      else
        var (filter, confidence) := TableGuess(fd.mappingType);
        Success(TypeGuess(filter, confidence, None))
  }

  /** A row of the `noAssociationData` provider: the mapping type, the
      expected filter and confidence, and a form type the test ignores. */
  datatype ProviderRow = ProviderRow(
    mappingType: string,
    filter: FilterClass,
    confidence: Confidence,
    formType: Option<FormType>)

  const NoAssociationData: seq<ProviderRow> := [
    ProviderRow("boolean", BooleanFilter, HighConfidence, Some(BooleanType)),
    ProviderRow("timestamp", DateTimeFilter, HighConfidence, None),
    ProviderRow("date", DateFilter, HighConfidence, None),
    ProviderRow("float", NumberFilter, MediumConfidence, Some(NumberType)),
    ProviderRow("int", NumberFilter, MediumConfidence, Some(NumberType)),
    ProviderRow("string", StringFilter, MediumConfidence, Some(TextType)),
    ProviderRow("id", IdFilter, MediumConfidence, None),
    ProviderRow("somefake", StringFilter, LowConfidence, None)
  ]

  /** The stub of `testGuessTypeNoAssociation`: a field with a field
      mapping, no association, and the given mapping type. */
  function NoAssociationStub(mappingType: string): FieldDescription
  {
    FieldDescription("", "fakeProperty", mappingType,
                     Some(FieldMapping("fakeProperty")), None, [])
  }

  /** `testGuessTypeNoAssociation` passes on every row of its provider. */
  lemma NoAssociationRowsPass()
    ensures forall row | row in NoAssociationData ::
              var r := Guess(NoAssociationStub(row.mappingType));
              r.Success? && r.value.filter == row.filter && r.value.confidence == row.confidence
  {
  }

  /** `testThrowsOnMissingField`. */
  lemma MissingFieldThrows()
    ensures Guess(FieldDescription("stdClass", "nonExisting", "", None, None, []))
            == Failure(MissingPropertyMetadata("stdClass", "nonExisting"))
  {
  }

  /** `testGuessTypeWithAssociation`: ContainerDocument's to-one reference
      to AssociatedDocument. */
  lemma AssociationGuessesModelFilter()
    ensures
      var association := AssociationMapping(One, "AssociatedDocument");
      var fd := FieldDescription("ContainerDocument", "associatedDocument", "one",
                                 Some(FieldMapping("associatedDocument")), Some(association), []);
      Guess(fd) == Success(TypeGuess(ModelFilter, HighConfidence,
                     Some(ModelFilterOptions("associatedDocument", One, [], "AssociatedDocument"))))
  {
  }
}
