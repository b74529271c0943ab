/** The template-tag parameter editor, one instance per tag. Each handler is a
    pure transition from the editor's inputs to the updates it emits: a new
    tag (`setTemplateTag`), a new parameter value (`setParameterValue`, always
    for the tag's own id) and a new values configuration
    (`setTemplateTagConfig`, always for the current tag). */
module TagEditor {
  import opened Js
  import opened ApiTypes
  import opened Indexing
  import TemplateTags

  /** The updates one handler emits; `None` means the update is not emitted. */
  datatype Emitted = Emitted(tag: Option<TemplateTag>, value: Option<Value>, config: Option<ValuesConfig>)

  const Nothing := Emitted(None, None, None)

  /** What the editor reads of the last-saved question: whether its query is
      native, its template tags by name, and its parameters. */
  datatype OriginalQuestion = OriginalQuestion(
    isNative: bool,
    templateTags: map<string, TemplateTag>,
    parameters: seq<Parameter>)

  /** The three values-source keys, present and `undefined`. */
  const EmptyValuesConfig := ValuesConfig(Some(Undefined), Some(Undefined), Some(Undefined), None)

  /** The values-source settings copied back from an original parameter. */
  function RestoredConfig(original: Parameter): ValuesConfig {
    ValuesConfig(
      Some(ReadKey(original.valuesQueryType)),
      Some(ReadKey(original.valuesSourceType)),
      Some(ReadKey(original.valuesSourceConfig)),
      None)
  }

  /** All the conditions under which a type change restores the previous
      values-source settings: the editor has a parameter and an original
      question, the original query is native, its tag of the same name
      already had the new type, and it has a parameter with the same id. */
  predicate RestoresConfig(
    tag: TemplateTag,
    parameter: Option<Parameter>,
    original: Option<OriginalQuestion>,
    newType: TagType)
  {
    && parameter.Some?
    && original.Some?
    && original.value.isNative
    && tag.name in original.value.templateTags
    && original.value.templateTags[tag.name].tagType == Some(newType)
    && Find(original.value.parameters, ParameterId, parameter.value.id).Some?
  }

  /** `getTemplateTagConfigAfterTypeChange`. */
  function ConfigAfterTypeChange(
    tag: TemplateTag,
    parameter: Option<Parameter>,
    original: Option<OriginalQuestion>,
    newType: TagType): (r: ValuesConfig)
    ensures !RestoresConfig(tag, parameter, original, newType) ==> r == EmptyValuesConfig
    ensures RestoresConfig(tag, parameter, original, newType) ==>
              exists i :: 0 <= i < |original.value.parameters|
                          && original.value.parameters[i].id == parameter.value.id
                          && (forall j :: 0 <= j < i ==> original.value.parameters[j].id != parameter.value.id)
                          && r == RestoredConfig(original.value.parameters[i])
  {
    if parameter.None? || original.None? then EmptyValuesConfig
    else if !original.value.isNative then EmptyValuesConfig
    else
      var originalParameter := Find(original.value.parameters, ParameterId, parameter.value.id);
      if tag.name !in original.value.templateTags
         || original.value.templateTags[tag.name].tagType != Some(newType)
         || originalParameter.None?
      then EmptyValuesConfig
      else RestoredConfig(originalParameter.value)
  }

  /** `setType`: a real type change clears the default, the field mapping and
      the widget type (`none` for a dimension tag), resets the value and
      recomputes the values configuration. */
  function SetType(
    tag: TemplateTag,
    parameter: Option<Parameter>,
    original: Option<OriginalQuestion>,
    newType: TagType): (e: Emitted)
    ensures tag.tagType == Some(newType) <==> e == Nothing
    ensures tag.tagType != Some(newType) ==>
              && e.tag.Some?
              && e.tag.value.tagType == Some(newType)
              && e.tag.value.default.Undefined?
              && e.tag.value.dimension.None?
              && (e.tag.value.widgetType == Some("none") <==> newType == DimensionType)
              && (newType != DimensionType ==> e.tag.value.widgetType.None?)
              && e.tag.value.id == tag.id && e.tag.value.name == tag.name
              && e.tag.value.displayName == tag.displayName && e.tag.value.required == tag.required
              && e.tag.value.options == tag.options
              && e.value == Some(Null)
              && e.config == Some(ConfigAfterTypeChange(tag, parameter, original, newType))
  {
    if tag.tagType == Some(newType) then Nothing
    else
      Emitted(
        Some(tag.(tagType := Some(newType),
                  default := Undefined,
                  dimension := None,
                  widgetType := if newType == DimensionType then Some("none") else None)),
        Some(Null),
        Some(ConfigAfterTypeChange(tag, parameter, original, newType)))
  }

  /** Setting the same type again on the emitted tag changes nothing. */
  lemma SetTypeSettles(tag: TemplateTag, parameter: Option<Parameter>, original: Option<OriginalQuestion>, newType: TagType)
    requires SetType(tag, parameter, original, newType).tag.Some?
    ensures SetType(SetType(tag, parameter, original, newType).tag.value, parameter, original, newType) == Nothing
  {
  }

  /** Switching a tag to a field filter leaves it unmapped and without a usable
      widget, so it no longer surfaces as a parameter; switching it to any
      other non-composition type makes it surface as a variable whose
      parameter type comes from the fixed mapping. */
  lemma SetTypeAndInclusion(tag: TemplateTag, parameter: Option<Parameter>, original: Option<OriginalQuestion>, newType: TagType)
    requires tag.tagType != Some(newType)
    ensures var t := SetType(tag, parameter, original, newType).tag.value;
            TemplateTags.Included(t) <==> newType !in {DimensionType, TemporalUnitType, CardType, SnippetType}
    ensures var t := SetType(tag, parameter, original, newType).tag.value;
            TemplateTags.Included(t) ==>
              && TemplateTags.ParameterTarget(t).kind == VariableKind
              && TemplateTags.ParameterType(t) in TemplateTags.FixedParameterTypes
  {
  }

  /** `setWidgetType`: a real change stores the widget type, drops the default,
      recomputes the options from the updated tag and resets the value. */
  function SetWidgetType(tag: TemplateTag, widgetType: string, optionsFor: TemplateTag -> Value): (e: Emitted)
    ensures tag.widgetType == Some(widgetType) <==> e == Nothing
    ensures tag.widgetType != Some(widgetType) ==>
              && e.tag.Some?
              && e.tag.value.widgetType == Some(widgetType)
              && e.tag.value.default.Null?
              && e.tag.value.options == optionsFor(tag.(widgetType := Some(widgetType)))
              && e.tag.value.(default := tag.default, options := tag.options, widgetType := tag.widgetType) == tag
              && e.value == Some(Null)
              && e.config.None?
  {
    if tag.widgetType == Some(widgetType) then Nothing
    else
      var newTag := tag.(widgetType := Some(widgetType));
      Emitted(Some(newTag.(default := Null, options := optionsFor(newTag))), Some(Null), None)
  }

  /** After a change to a non-empty widget type, that widget type is the type
      of the tag's parameter. */
  lemma WidgetTypeChangeDecidesParameterType(tag: TemplateTag, widgetType: string, optionsFor: TemplateTag -> Value)
    requires tag.widgetType != Some(widgetType) && widgetType != ""
    ensures TemplateTags.ParameterType(SetWidgetType(tag, widgetType, optionsFor).tag.value) == widgetType
  {
  }

  /** `setRequired`: the tag is rewritten only when the flag changes; the
      default is pushed as the value when there is a parameter without a
      value, the tag is now required and it has a default. */
  function SetRequired(tag: TemplateTag, parameter: Option<Parameter>, required: bool): (e: Emitted)
    ensures e.tag.Some? <==> tag.required != Some(required)
    ensures e.tag.Some? ==> e.tag.value == tag.(required := Some(required))
    ensures e.value.Some? <==>
              parameter.Some? && !Truthy(parameter.value.value) && required && Truthy(tag.default)
    ensures e.value.Some? ==> e.value.value == tag.default
    ensures e.config.None?
  {
    var newTag := if tag.required != Some(required) then Some(tag.(required := Some(required))) else None;
    if parameter.None? then Emitted(newTag, None, None)
    else if !Truthy(parameter.value.value) && required && Truthy(tag.default)
    then Emitted(newTag, Some(tag.default), None)
    else Emitted(newTag, None, None)
  }

  /** Making a tag optional never touches the parameter value, and neither does
      an editor without a parameter. */
  lemma SetRequiredKeepsValue(tag: TemplateTag, parameter: Option<Parameter>, required: bool)
    requires !required || parameter.None?
    ensures SetRequired(tag, parameter, required).value.None?
  {
  }

  /** Repeating the change on the emitted tag rewrites nothing, and a pushed
      value is always a truthy default. */
  lemma SetRequiredSettles(tag: TemplateTag, parameter: Option<Parameter>, required: bool)
    ensures var e := SetRequired(tag, parameter, required);
            && SetRequired(e.tag.GetOr(tag), parameter, required).tag.None?
            && (e.value.Some? ==> Truthy(e.value.value))
  {
  }

  /** `{...(parameter ?? {})}`: the parameter's values-source keys as they are. */
  function SpreadConfig(parameter: Option<Parameter>): ValuesConfig {
    if parameter.Some? then ConfigOf(parameter.value) else ValuesConfig(None, None, None, None)
  }

  /** `setQueryType`: the configuration becomes the parameter's with the new
      query type. */
  function SetQueryType(parameter: Option<Parameter>, queryType: Value): (e: Emitted)
    ensures e.tag.None? && e.value.None? && e.config.Some?
    ensures e.config.value.valuesQueryType == Some(queryType)
    ensures parameter.Some? ==>
              && e.config.value.valuesSourceType == parameter.value.valuesSourceType
              && e.config.value.valuesSourceConfig == parameter.value.valuesSourceConfig
              && e.config.value.temporalUnits == parameter.value.temporalUnits
    ensures parameter.None? ==> e.config.value == ValuesConfig(Some(queryType), None, None, None)
  {
    Emitted(None, None, Some(SpreadConfig(parameter).(valuesQueryType := Some(queryType))))
  }

  /** `setSourceSettings`: the configuration becomes the parameter's with the
      new source type and source configuration. */
  function SetSourceSettings(parameter: Option<Parameter>, sourceType: Value, sourceConfig: Value): (e: Emitted)
    ensures e.tag.None? && e.value.None? && e.config.Some?
    ensures e.config.value.valuesSourceType == Some(sourceType)
    ensures e.config.value.valuesSourceConfig == Some(sourceConfig)
    ensures parameter.Some? ==>
              && e.config.value.valuesQueryType == parameter.value.valuesQueryType
              && e.config.value.temporalUnits == parameter.value.temporalUnits
    ensures parameter.None? ==> e.config.value == ValuesConfig(None, Some(sourceType), Some(sourceConfig), None)
  {
    Emitted(None, None, Some(SpreadConfig(parameter).(valuesSourceType := Some(sourceType),
                                                      valuesSourceConfig := Some(sourceConfig))))
  }

  /** The configuration a query-type change emits reaches the parameter
      derived for the tag. */
  lemma QueryTypeReachesDerivedParameter(tag: TemplateTag, parameter: Option<Parameter>, queryType: Value)
    ensures TemplateTags.TemplateTagParameter(tag, SetQueryType(parameter, queryType).config).valuesQueryType
            == Some(queryType)
  {
  }

  /** The source settings a change emits reach the parameter derived for
      the tag. */
  lemma SourceSettingsReachDerivedParameter(tag: TemplateTag, parameter: Option<Parameter>, sourceType: Value, sourceConfig: Value)
    ensures var p := TemplateTags.TemplateTagParameter(tag, SetSourceSettings(parameter, sourceType, sourceConfig).config);
            p.valuesSourceType == Some(sourceType) && p.valuesSourceConfig == Some(sourceConfig)
  {
  }

  /** The tag attributes the editor sets through its generic setter. */
  datatype TagAttribute = DisplayNameAttribute | DefaultAttribute

  function AttributeOf(tag: TemplateTag, attr: TagAttribute): Value {
    match attr
    case DisplayNameAttribute => tag.displayName
    case DefaultAttribute => tag.default
  }

  function WithAttribute(tag: TemplateTag, attr: TagAttribute, v: Value): TemplateTag {
    match attr
    case DisplayNameAttribute => tag.(displayName := v)
    case DefaultAttribute => tag.(default := v)
  }

  /** `val?.length > 0 ? val : null`. */
  function NonEmptyOrNull(v: Value): (r: Value)
    ensures HasPositiveLength(v) ==> r == v
    ensures !HasPositiveLength(v) ==> r.Null?
  {
    if HasPositiveLength(v) then v else Null
  }

  /** `setParameterAttribute`: when the attribute differs from `val` it is set
      to `val` if that has a positive length and to `null` otherwise; nothing
      else in the tag changes. */
  function SetParameterAttribute(tag: TemplateTag, attr: TagAttribute, val: Value): (e: Emitted)
    ensures e.value.None? && e.config.None?
    ensures e.tag.None? <==> AttributeOf(tag, attr) == val
    ensures e.tag.Some? ==>
              && AttributeOf(e.tag.value, attr) == (if HasPositiveLength(val) then val else Null)
              && forall other :: other != attr ==> AttributeOf(e.tag.value, other) == AttributeOf(tag, other)
    ensures e.tag.Some? ==> e.tag.value.(displayName := tag.displayName, default := tag.default) == tag
  {
    if AttributeOf(tag, attr) == val then Nothing
    else Emitted(Some(WithAttribute(tag, attr, NonEmptyOrNull(val))), None, None)
  }

  /** Setting the same attribute value again never changes the tag any
      further, and emits nothing when the value had a positive length or was
      `null`. */
  lemma SetParameterAttributeSettles(tag: TemplateTag, attr: TagAttribute, val: Value)
    requires SetParameterAttribute(tag, attr, val).tag.Some?
    ensures var t := SetParameterAttribute(tag, attr, val).tag.value;
            SetParameterAttribute(t, attr, val).tag.None? || SetParameterAttribute(t, attr, val).tag == Some(t)
    ensures var t := SetParameterAttribute(tag, attr, val).tag.value;
            HasPositiveLength(val) || val.Null? ==> SetParameterAttribute(t, attr, val).tag.None?
  {
  }

  /** The default-value callback: the tag's default goes through the generic
      setter and the raw value becomes the parameter value. */
  function ChangeDefaultValue(tag: TemplateTag, val: Value): (e: Emitted)
    ensures e.value == Some(val) && e.config.None?
    ensures e.tag.None? <==> tag.default == val
    ensures e.tag.Some? ==> e.tag.value == tag.(default := NonEmptyOrNull(val))
  {
    Emitted(SetParameterAttribute(tag, DefaultAttribute, val).tag, Some(val), None)
  }

  /** The stored default and the pushed value agree unless the value is empty
      (an empty string or array is stored as `null` but pushed as is). */
  lemma ChangeDefaultValueAgrees(tag: TemplateTag, val: Value)
    requires HasPositiveLength(val) || val.Null?
    ensures var e := ChangeDefaultValue(tag, val);
            e.tag.GetOr(tag).default == e.value.value
  {
  }

  /** The field reference `["field", fieldId, null]` the editor stores. */
  function FieldDimension(fieldId: FieldId): DimensionRef {
    FieldRef(fieldId, Null)
  }

  /** `setDimension`: mapping the tag to a known field that is not already its
      field stores the field reference, recomputes the widget type for
      dimension tags, and recomputes the options from the updated tag. */
  function SetDimension<F>(
    tag: TemplateTag,
    fieldId: FieldId,
    fieldById: FieldId -> Option<F>,
    widgetTypeFor: (TemplateTag, F) -> Option<string>,
    optionsFor: TemplateTag -> Value): (e: Emitted)
    ensures e.value.None? && e.config.None?
    ensures e.tag.None? <==> tag.dimension == Some(FieldDimension(fieldId)) || fieldById(fieldId).None?
    ensures e.tag.Some? ==>
              && e.tag.value.dimension == Some(FieldDimension(fieldId))
              && (tag.tagType == Some(DimensionType) ==>
                    e.tag.value.widgetType == widgetTypeFor(tag, fieldById(fieldId).value))
              && (tag.tagType != Some(DimensionType) ==> e.tag.value.widgetType == tag.widgetType)
              && e.tag.value.options == optionsFor(e.tag.value.(options := tag.options))
              && e.tag.value.(dimension := tag.dimension, widgetType := tag.widgetType, options := tag.options) == tag
  {
    var dimension := FieldDimension(fieldId);
    if tag.dimension == Some(dimension) then Nothing
    else
      var field := fieldById(fieldId);
      if field.None? then Nothing
      else
        var newTag := tag.(dimension := Some(dimension),
                           widgetType := if tag.tagType == Some(DimensionType)
                                         then widgetTypeFor(tag, field.value)
                                         else tag.widgetType);
        Emitted(Some(newTag.(options := optionsFor(newTag))), None, None)
  }

  /** Once a field filter is mapped to a field it surfaces as a parameter
      with a dimension target; mapping it to the same field again is a no-op. */
  lemma MappedFieldFilterSurfaces<F>(
    tag: TemplateTag,
    fieldId: FieldId,
    fieldById: FieldId -> Option<F>,
    widgetTypeFor: (TemplateTag, F) -> Option<string>,
    optionsFor: TemplateTag -> Value)
    requires TemplateTags.IsFieldFilter(tag.tagType)
    requires SetDimension(tag, fieldId, fieldById, widgetTypeFor, optionsFor).tag.Some?
    ensures var t := SetDimension(tag, fieldId, fieldById, widgetTypeFor, optionsFor).tag.value;
            && TemplateTags.Included(t)
            && TemplateTags.ParameterTarget(t).kind == DimensionKind
            && SetDimension(t, fieldId, fieldById, widgetTypeFor, optionsFor) == Nothing
  {
  }

  /** Widget types kept from older versions that the selector shows as `string/=`. */
  predicate IsOldWidgetType(w: string) {
    StartsWith(w, "location") || w == "category"
  }

  /** `getFilterWidgetTypeValue`: the widget type shown in the selector. */
  function FilterWidgetTypeValue(tag: TemplateTag): (r: string)
    ensures r != "" && !IsOldWidgetType(r)
    ensures !TemplateTags.HasWidgetType(tag) ==> r == "none"
    ensures TemplateTags.HasWidgetType(tag) && IsOldWidgetType(tag.widgetType.value) ==> r == "string/="
    ensures TemplateTags.HasWidgetType(tag) && !IsOldWidgetType(tag.widgetType.value) ==>
              r == tag.widgetType.value
  {
    var widgetType := if TemplateTags.HasWidgetType(tag) then tag.widgetType.value else "none";
    if IsOldWidgetType(widgetType) then
      assert "string/="[0] != "location"[0];
      "string/="
    else widgetType
  }

  /** Normalising the shown widget type twice gives the same result. */
  lemma FilterWidgetTypeValueIdempotent(tag: TemplateTag)
    ensures var r := FilterWidgetTypeValue(tag);
            FilterWidgetTypeValue(tag.(widgetType := Some(r))) == r
  {
  }

  /** `newTemporalUnits.includes(value)`. */
  predicate IncludesUnit(units: seq<string>, v: Value) {
    v.Str? && v.s in units
  }

  /** The temporal-units callback: the units become the configuration; a
      default that is set but not among the new units is reset to `null`,
      and so is the parameter value. */
  function ChangeTemporalUnits(tag: TemplateTag, units: seq<string>): (e: Emitted)
    ensures e.config == Some(ValuesConfig(None, None, None, Some(StrList(units))))
    ensures e.tag.Some? <==> !IsNullish(tag.default) && !IncludesUnit(units, tag.default)
    ensures e.tag.Some? ==> e.tag.value == tag.(default := Null) && e.value == Some(Null)
    ensures e.tag.None? ==> e.value.None?
  {
    var config := ValuesConfig(None, None, None, Some(StrList(units)));
    if !IsNullish(tag.default) && !IncludesUnit(units, tag.default) then
      var reset := SetParameterAttribute(tag, DefaultAttribute, Null);
      Emitted(reset.tag, Some(Null), Some(config))
    else Emitted(None, None, Some(config))
  }

  /** After the units change the tag's default is unset or one of the units,
      and a second identical change resets nothing. */
  lemma ChangeTemporalUnitsKeepsDefaultAmongUnits(tag: TemplateTag, units: seq<string>)
    ensures var t := ChangeTemporalUnits(tag, units).tag.GetOr(tag);
            && (IsNullish(t.default) || IncludesUnit(units, t.default))
            && ChangeTemporalUnits(t, units).tag.None?
  {
  }
}
