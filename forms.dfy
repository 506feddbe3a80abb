/** Symfony and Sonata form types, as the opaque class names the filters
    pass around, and the render settings a filter hands to the form layer. */
module Forms {
  import opened FilterValues

  datatype FormType =
    | DateType
    | DateTimeType
    | DateRangeType
    | DateTimeRangeType
    | DefaultType
    | TextType
    | HiddenType
    | BooleanType
    | NumberType

  /** The `[$name, [...]]` pair of `getRenderSettings`. Entries a filter
      does not emit are `None`. */
  datatype RenderSettings = RenderSettings(
    formType: FormType,
    fieldType: FormType,
    fieldOptions: map<string, PhpValue>,
    operatorType: Option<FormType>,
    operatorOptions: Option<map<string, PhpValue>>,
    fieldLabel: PhpValue)
}
