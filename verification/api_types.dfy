/** The records of the application's API types that the template-tag code
    reads and writes: template tags, parameters, their values-source
    configuration and the saved card. */
module ApiTypes {
  import opened Js

  type FieldId = int

  /** The `type` of a template tag. `StringType` is the legacy `"string"`
      value that is no longer part of the declared union but is still
      recognised when a parameter type is derived. */
  datatype TagType =
    | TextType
    | NumberType
    | DateType
    | BooleanType
    | DimensionType
    | TemporalUnitType
    | CardType
    | SnippetType
    | StringType

  /** A raw field reference `["field", fieldId, options]`. */
  datatype DimensionRef = FieldRef(fieldId: FieldId, options: Value)

  /** A placeholder parsed out of a native query. `displayName` and `default`
      are arbitrary values because the generic attribute setter may store
      `null` in them. */
  datatype TemplateTag = TemplateTag(
    id: string,
    name: string,
    displayName: Value,
    tagType: Option<TagType>,
    widgetType: Option<string>,
    dimension: Option<DimensionRef>,
    default: Value,
    required: Option<bool>,
    options: Value)

  /** Which query slot a parameter binds to. */
  datatype TargetKind = DimensionKind | VariableKind

  /** A parameter target: `[kind, ["template-tag", name]]`, or any other
      target (a field reference on a dashboard, say) kept opaque. */
  datatype Target =
    | TemplateTagTarget(kind: TargetKind, tagName: string)
    | OtherTarget(raw: Value)

  /** A parameter, as stored on a card or derived from a template tag. The four
      values-source keys track presence: `None` means the key is absent and
      `Some(Undefined)` that it is present with value `undefined`. `value` is
      the live value the editor sees on its parameter. */
  datatype Parameter = Parameter(
    id: string,
    paramType: string,
    target: Option<Target>,
    name: Value,
    slug: string,
    default: Value,
    required: Option<bool>,
    options: Value,
    valuesQueryType: Option<Value>,
    valuesSourceType: Option<Value>,
    valuesSourceConfig: Option<Value>,
    temporalUnits: Option<Value>,
    value: Value)

  /** A values-source configuration object; `None` marks an absent key. */
  datatype ValuesConfig = ValuesConfig(
    valuesQueryType: Option<Value>,
    valuesSourceType: Option<Value>,
    valuesSourceConfig: Option<Value>,
    temporalUnits: Option<Value>)

  /** The values-source part of a parameter, read as a configuration object. */
  function ConfigOf(p: Parameter): ValuesConfig {
    ValuesConfig(p.valuesQueryType, p.valuesSourceType, p.valuesSourceConfig, p.temporalUnits)
  }

  /** A card's `dataset_query`: its `type` and, for a native query, the
      values of its `template-tags` object in enumeration order (`None` when
      the object is missing). */
  datatype DatasetQuery = DatasetQuery(queryType: string, templateTags: Option<seq<TemplateTag>>)

  const NativeQueryType := "native"

  /** A saved question; both fields may be missing. */
  datatype Card = Card(datasetQuery: Option<DatasetQuery>, parameters: Option<seq<Parameter>>)

  function ParameterId(p: Parameter): string { p.id }

  function TagName(t: TemplateTag): string { t.name }
}
