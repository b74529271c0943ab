/** Template tag -> parameter mapping: deriving the filter parameters of a
    native question from its template tags, and re-keying dashboard filter
    values onto template-tag names. */
module TemplateTags {
  import opened Js
  import opened ApiTypes
  import opened Indexing

  /** The parameter types a tag without a widget type can resolve to. */
  const FixedParameterTypes: set<string> :=
    {"date/single", "string/=", "number/=", "boolean/=", "temporal-unit", "category"}

  /** `tag["widget-type"]` is truthy: set and not the empty string. */
  predicate HasWidgetType(tag: TemplateTag) {
    tag.widgetType.Some? && tag.widgetType.value != ""
  }

  /** Field filters: the tag types that bind to a column rather than a value. */
  predicate IsFieldFilter(t: Option<TagType>) {
    t == Some(DimensionType) || t == Some(TemporalUnitType)
  }

  /** The parameter type of a tag: an explicit widget type wins, otherwise
      the tag type is mapped to a fixed parameter type. */
  function ParameterType(tag: TemplateTag): (r: string)
    ensures HasWidgetType(tag) ==> r == tag.widgetType.value
    ensures !HasWidgetType(tag) ==> r in FixedParameterTypes
    ensures r != ""
  {
    if HasWidgetType(tag) then tag.widgetType.value
    else if tag.tagType == Some(DateType) then "date/single"
    else if tag.tagType == Some(StringType) || tag.tagType == Some(TextType) then "string/="
    else if tag.tagType == Some(NumberType) then "number/="
    else if tag.tagType == Some(BooleanType) then "boolean/="
    else if tag.tagType == Some(TemporalUnitType) then "temporal-unit"
    else "category"
  }

  /** A set widget type decides the parameter type whatever the tag type is. */
  lemma WidgetTypeWins(tag: TemplateTag, other: Option<TagType>)
    requires HasWidgetType(tag)
    ensures ParameterType(tag.(tagType := other)) == ParameterType(tag) == tag.widgetType.value
  {
  }

  /** Without a widget type each fixed parameter type comes from exactly the
      tag types listed for it; everything else, field filters on dimensions
      included, becomes `category`. */
  lemma FixedTypeMapping(tag: TemplateTag)
    requires !HasWidgetType(tag)
    ensures ParameterType(tag) == "date/single" <==> tag.tagType == Some(DateType)
    ensures ParameterType(tag) == "string/=" <==> tag.tagType == Some(StringType) || tag.tagType == Some(TextType)
    ensures ParameterType(tag) == "number/=" <==> tag.tagType == Some(NumberType)
    ensures ParameterType(tag) == "boolean/=" <==> tag.tagType == Some(BooleanType)
    ensures ParameterType(tag) == "temporal-unit" <==> tag.tagType == Some(TemporalUnitType)
    ensures ParameterType(tag) == "category" <==>
              tag.tagType.None? || tag.tagType == Some(DimensionType)
              || tag.tagType == Some(CardType) || tag.tagType == Some(SnippetType)
  {
    if tag.tagType.Some? {
      match tag.tagType.value
      case TextType =>
      case NumberType =>
      case DateType =>
      case BooleanType =>
      case DimensionType =>
      case TemporalUnitType =>
      case CardType =>
      case SnippetType =>
      case StringType =>
    }
  }

  /** The target of a tag's parameter: a dimension target for field filters,
      a variable target otherwise, both naming the tag. */
  function ParameterTarget(tag: TemplateTag): (r: Target)
    ensures r.TemplateTagTarget? && r.tagName == tag.name
    ensures r.kind == DimensionKind <==> IsFieldFilter(tag.tagType)
  {
    if tag.tagType == Some(DimensionType) || tag.tagType == Some(TemporalUnitType)
    then TemplateTagTarget(DimensionKind, tag.name)
    else TemplateTagTarget(VariableKind, tag.name)
  }

  /** `config?.key`: `undefined` when there is no configuration or no such key. */
  function ConfigRead(config: Option<ValuesConfig>, key: ValuesConfig -> Option<Value>): Value {
    if config.Some? then ReadKey(key(config.value)) else Undefined
  }

  function QueryTypeKey(c: ValuesConfig): Option<Value> { c.valuesQueryType }
  function SourceTypeKey(c: ValuesConfig): Option<Value> { c.valuesSourceType }
  function SourceConfigKey(c: ValuesConfig): Option<Value> { c.valuesSourceConfig }
  function TemporalUnitsKey(c: ValuesConfig): Option<Value> { c.temporalUnits }

  /** The parameter derived from one tag and its stored configuration. */
  function TemplateTagParameter(tag: TemplateTag, config: Option<ValuesConfig>): (p: Parameter)
    ensures p.id == tag.id && p.slug == tag.name && p.name == tag.displayName
    ensures p.default == tag.default && p.required == tag.required && p.options == tag.options
    ensures p.paramType == ParameterType(tag) && p.target == Some(ParameterTarget(tag))
    ensures config.None? ==>
              p.valuesQueryType == p.valuesSourceType == p.valuesSourceConfig == Some(Undefined)
    ensures config.Some? ==>
              && p.valuesQueryType == Some(ReadKey(config.value.valuesQueryType))
              && p.valuesSourceType == Some(ReadKey(config.value.valuesSourceType))
              && p.valuesSourceConfig == Some(ReadKey(config.value.valuesSourceConfig))
    ensures p.temporalUnits.Some? <==> p.paramType == "temporal-unit"
    ensures p.temporalUnits.Some? ==> p.temporalUnits.value == ConfigRead(config, TemporalUnitsKey)
    ensures p.value.Undefined?
  {
    var paramType := ParameterType(tag);
    Parameter(
      tag.id,
      paramType,
      Some(ParameterTarget(tag)),
      tag.displayName,
      tag.name,
      tag.default,
      tag.required,
      tag.options,
      Some(ConfigRead(config, QueryTypeKey)),
      Some(ConfigRead(config, SourceTypeKey)),
      Some(ConfigRead(config, SourceConfigKey)),
      if paramType == "temporal-unit" then Some(ConfigRead(config, TemporalUnitsKey)) else None,
      Undefined)
  }

  /** The `temporal_units` key is present exactly for tags whose widget type
      is `temporal-unit`, or that have no widget type and are temporal-unit tags. */
  lemma TemporalUnitsKeyPresence(tag: TemplateTag, config: Option<ValuesConfig>)
    ensures TemplateTagParameter(tag, config).temporalUnits.Some? <==>
              tag.widgetType == Some("temporal-unit")
              || (!HasWidgetType(tag) && tag.tagType == Some(TemporalUnitType))
  {
    if !HasWidgetType(tag) {
      FixedTypeMapping(tag);
    }
  }

  /** A stored configuration whose keys are all present comes back unchanged
      from the derived parameter (without `temporal_units` unless the
      parameter is a temporal-unit one). */
  lemma ConfigSurvivesDerivation(tag: TemplateTag, c: ValuesConfig)
    requires c.valuesQueryType.Some? && c.valuesSourceType.Some? && c.valuesSourceConfig.Some?
    requires c.temporalUnits.Some? <==> ParameterType(tag) == "temporal-unit"
    ensures ConfigOf(TemplateTagParameter(tag, Some(c))) == c
  {
  }

  /** The inclusion rule: a tag surfaces as a parameter when it has a type that
      is not `card` or `snippet`, and, for a field filter, when it is mapped to
      a field or has a widget type other than `none`. */
  predicate Included(tag: TemplateTag) {
    && tag.tagType.Some?
    && tag.tagType != Some(CardType)
    && tag.tagType != Some(SnippetType)
    && (!IsFieldFilter(tag.tagType)
        || tag.dimension.Some?
        || (HasWidgetType(tag) && tag.widgetType.value != "none"))
  }

  /** The tags that pass the inclusion rule, in input order. */
  function Kept(tags: seq<TemplateTag>): (r: seq<TemplateTag>)
    ensures |r| <= |tags|
    ensures forall t :: t in r <==> t in tags && Included(t)
    decreases |tags|
  {
    if |tags| == 0 then []
    else (if Included(tags[0]) then [tags[0]] else []) + Kept(tags[1..])
  }

  /** Filtering keeps the input order: it distributes over concatenation. */
  lemma {:induction false} KeptAppend(a: seq<TemplateTag>, b: seq<TemplateTag>)
    ensures Kept(a + b) == Kept(a) + Kept(b)
    decreases |a|
  {
    if |a| == 0 {
      assert a + b == b;
    } else {
      assert (a + b)[0] == a[0];
      assert (a + b)[1..] == a[1..] + b;
      KeptAppend(a[1..], b);
    }
  }

  /** A single tag is kept exactly when it passes the inclusion rule. */
  lemma KeptSingleton(t: TemplateTag)
    ensures Kept([t]) == if Included(t) then [t] else []
  {
    assert [t][1..] == [];
  }

  /** The stored configuration for tag id `id`: that of the last stored
      parameter with this id. */
  function StoredConfig(byId: map<string, Parameter>, id: string): Option<ValuesConfig> {
    if id in byId then Some(ConfigOf(byId[id])) else None
  }

  /** `getTemplateTagParameters`: the kept tags, each mapped with the
      configuration of the last stored parameter that has its id. */
  function TemplateTagParameters(tags: seq<TemplateTag>, parameters: seq<Parameter>): (r: seq<Parameter>)
    ensures |r| == |Kept(tags)| <= |tags|
    ensures forall i :: 0 <= i < |r| ==> r[i].id == Kept(tags)[i].id && r[i].slug == Kept(tags)[i].name
    ensures forall i :: 0 <= i < |r| ==>
              (forall j :: 0 <= j < |parameters| ==> parameters[j].id != r[i].id) ==>
                r[i] == TemplateTagParameter(Kept(tags)[i], None)
    ensures forall i, j ::
              (0 <= i < |r| && 0 <= j < |parameters| &&
               parameters[j].id == r[i].id && LastWithKey(parameters, ParameterId, j)) ==>
                r[i] == TemplateTagParameter(Kept(tags)[i], Some(ConfigOf(parameters[j])))
  {
    var byId := IndexBy(parameters, ParameterId);
    var kept := Kept(tags);
    seq(|kept|, i requires 0 <= i < |kept| => TemplateTagParameter(kept[i], StoredConfig(byId, kept[i].id)))
  }

  /** Deriving parameters keeps the order of the tags: the parameters of two
      runs of tags are those of the first run followed by those of the second. */
  lemma TemplateTagParametersAppend(a: seq<TemplateTag>, b: seq<TemplateTag>, parameters: seq<Parameter>)
    ensures TemplateTagParameters(a + b, parameters)
            == TemplateTagParameters(a, parameters) + TemplateTagParameters(b, parameters)
  {
    KeptAppend(a, b);
    var byId := IndexBy(parameters, ParameterId);
    var ka, kb := Kept(a), Kept(b);
    assert Kept(a + b) == ka + kb;
    var whole := TemplateTagParameters(a + b, parameters);
    var left := TemplateTagParameters(a, parameters);
    var right := TemplateTagParameters(b, parameters);
    assert |whole| == |left| + |right|;
    forall i | 0 <= i < |whole|
      ensures whole[i] == (left + right)[i]
    {
      if i < |ka| {
        assert (ka + kb)[i] == ka[i];
      } else {
        assert (ka + kb)[i] == kb[i - |ka|];
      }
    }
  }

  /** Every derived parameter binds to the tag it was derived from: its slug is
      the tag name, its target names that tag, and the binding kind is
      `dimension` exactly for field filters. */
  lemma DerivedParametersTargetTheirTags(tags: seq<TemplateTag>, parameters: seq<Parameter>, p: Parameter)
    requires p in TemplateTagParameters(tags, parameters)
    ensures exists t :: t in tags && Included(t) && p.id == t.id && p.slug == t.name
    ensures p.target.Some? && p.target.value.TemplateTagTarget? && p.target.value.tagName == p.slug
  {
  }

  /** The card's query is native and carries a template-tags object. */
  predicate HasNativeTags(card: Option<Card>) {
    && card.Some?
    && card.value.datasetQuery.Some?
    && card.value.datasetQuery.value.queryType == NativeQueryType
    && card.value.datasetQuery.value.templateTags.Some?
  }

  /** `getTemplateTags`: the template tags of a native card, or nothing. */
  function TemplateTagsOf(card: Option<Card>): (r: seq<TemplateTag>)
    ensures r != [] ==> HasNativeTags(card)
    ensures HasNativeTags(card) ==> r == card.value.datasetQuery.value.templateTags.value
  {
    if card.Some? && card.value.datasetQuery.Some?
       && card.value.datasetQuery.value.queryType == NativeQueryType
       && card.value.datasetQuery.value.templateTags.Some?
    then card.value.datasetQuery.value.templateTags.value
    else []
  }

  /** A card has template tags exactly when its query is native and its
      template-tags object holds at least one tag. */
  lemma TemplateTagsOfNonEmpty(card: Option<Card>)
    ensures TemplateTagsOf(card) != [] <==>
              HasNativeTags(card) && card.value.datasetQuery.value.templateTags.value != []
  {
  }

  /** `getTemplateTagParametersFromCard`: parameters derived from the card's
      tags, with the card's stored parameters as configuration. */
  function TemplateTagParametersFromCard(card: Card): (r: seq<Parameter>)
    ensures |r| == |Kept(TemplateTagsOf(Some(card)))|
    ensures forall i :: 0 <= i < |r| ==>
              r[i].id == Kept(TemplateTagsOf(Some(card)))[i].id
              && r[i].slug == Kept(TemplateTagsOf(Some(card)))[i].name
    ensures var ps := card.parameters.GetOr([]);
            forall i :: 0 <= i < |r| ==>
              (forall j :: 0 <= j < |ps| ==> ps[j].id != r[i].id) ==>
                r[i] == TemplateTagParameter(Kept(TemplateTagsOf(Some(card)))[i], None)
    ensures var ps := card.parameters.GetOr([]);
            forall i, j ::
              (0 <= i < |r| && 0 <= j < |ps| && ps[j].id == r[i].id && LastWithKey(ps, ParameterId, j)) ==>
                r[i] == TemplateTagParameter(Kept(TemplateTagsOf(Some(card)))[i], Some(ConfigOf(ps[j])))
    ensures (card.datasetQuery.None? || card.datasetQuery.value.queryType != NativeQueryType) ==> r == []
  {
    TemplateTagParameters(TemplateTagsOf(Some(card)), card.parameters.GetOr([]))
  }

  /** The `i`-th parameter derived from a card carries the values-source
      settings of the last stored card parameter with its tag's id. */
  lemma FromCardStoredConfig(card: Card, i: int, j: int)
    requires 0 <= i < |Kept(TemplateTagsOf(Some(card)))|
    requires card.parameters.Some? && 0 <= j < |card.parameters.value|
    requires card.parameters.value[j].id == Kept(TemplateTagsOf(Some(card)))[i].id
    requires LastWithKey(card.parameters.value, ParameterId, j)
    requires card.parameters.value[j].valuesQueryType.Some?
    requires card.parameters.value[j].valuesSourceType.Some?
    requires card.parameters.value[j].valuesSourceConfig.Some?
    ensures var c := ConfigOf(TemplateTagParametersFromCard(card)[i]);
            && c.valuesQueryType == card.parameters.value[j].valuesQueryType
            && c.valuesSourceType == card.parameters.value[j].valuesSourceType
            && c.valuesSourceConfig == card.parameters.value[j].valuesSourceConfig
  {
    var ps := card.parameters.value;
    var r := TemplateTagParameters(TemplateTagsOf(Some(card)), ps);
    assert r[i] == TemplateTagParameter(Kept(TemplateTagsOf(Some(card)))[i], Some(ConfigOf(ps[j])));
  }

  /** `getParametersFromCard`: nothing for a missing card, the card's own
      parameters when it has any, otherwise those derived from its tags. */
  function ParametersFromCard(card: Option<Card>): (r: seq<Parameter>)
    ensures card.None? ==> r == []
    ensures card.Some? && card.value.parameters.Some? && card.value.parameters.value != [] ==>
              r == card.value.parameters.value
    ensures card.Some? && (card.value.parameters.None? || card.value.parameters.value == []) ==>
              r == TemplateTagParametersFromCard(card.value)
  {
    if card.None? then []
    else if card.value.parameters.Some? && |card.value.parameters.value| != 0 then card.value.parameters.value
    else TemplateTagParametersFromCard(card.value)
  }

  /** A card with no stored parameters and no native template tags has no
      parameters at all. */
  lemma ParametersFromPlainCard(card: Card)
    requires card.parameters.None? || card.parameters.value == []
    requires TemplateTagsOf(Some(card)) == []
    ensures ParametersFromCard(Some(card)) == []
  {
  }

  // ---------------------------------------------------------------------------
  // Dashboard values -> template-tag values

  /** A dashboard parameter reaches tag `name` when its target names that tag. */
  predicate Reaches(tagOf: Option<Target> -> Option<string>, p: Parameter, name: string) {
    tagOf(p.target) == Some(name)
  }

  /** Some dashboard parameter reaches tag `name`. */
  predicate ReachedBy(tagOf: Option<Target> -> Option<string>, dash: seq<Parameter>, name: string) {
    exists i :: 0 <= i < |dash| && Reaches(tagOf, dash[i], name)
  }

  /** Dashboard parameter `i` is the last one whose target names its tag. */
  predicate LastReaching(tagOf: Option<Target> -> Option<string>, dash: seq<Parameter>, i: int)
    requires 0 <= i < |dash|
  {
    && tagOf(dash[i].target).Some?
    && forall j :: i < j < |dash| ==> tagOf(dash[j].target) != tagOf(dash[i].target)
  }

  /** Some template tag is called `name`. */
  predicate IsTagName(tags: seq<TemplateTag>, name: string) {
    exists i :: 0 <= i < |tags| && tags[i].name == name
  }

  /** The keys of the remapped values: the known tags some parameter reaches. */
  ghost predicate RemapKeys(
    known: set<string>,
    dash: seq<Parameter>,
    tagOf: Option<Target> -> Option<string>,
    r: map<string, Value>)
  {
    forall k :: k in r <==> k in known && ReachedBy(tagOf, dash, k)
  }

  /** The remapped values: a known tag holds the value of the last parameter
      that reaches it. */
  ghost predicate RemapValues(
    known: set<string>,
    dash: seq<Parameter>,
    valuesById: map<string, Value>,
    tagOf: Option<Target> -> Option<string>,
    r: map<string, Value>)
  {
    forall i :: 0 <= i < |dash| && LastReaching(tagOf, dash, i) && tagOf(dash[i].target).value in known
      ==> tagOf(dash[i].target).value in r && r[tagOf(dash[i].target).value] == Get(valuesById, dash[i].id)
  }

  /** The body of the `forEach` callback for one dashboard parameter. */
  function RemapOne(
    byName: map<string, TemplateTag>,
    p: Parameter,
    valuesById: map<string, Value>,
    tagOf: Option<Target> -> Option<string>,
    acc: map<string, Value>): map<string, Value>
  {
    var tag := tagOf(p.target);
    if tag.Some? && tag.value in byName
    then acc[byName[tag.value].name := Get(valuesById, p.id)]
    else acc
  }

  /** One step of the fold keeps the keys right. */
  lemma RemapStepKeys(
    byName: map<string, TemplateTag>,
    dash: seq<Parameter>,
    valuesById: map<string, Value>,
    tagOf: Option<Target> -> Option<string>,
    acc: map<string, Value>)
    requires |dash| > 0
    requires forall k :: k in byName ==> byName[k].name == k
    requires RemapKeys(byName.Keys, dash[..|dash| - 1], tagOf, acc)
    ensures RemapKeys(byName.Keys, dash, tagOf, RemapOne(byName, dash[|dash| - 1], valuesById, tagOf, acc))
  {
  }

  /** One step of the fold keeps the values right. */
  lemma RemapStepValues(
    byName: map<string, TemplateTag>,
    dash: seq<Parameter>,
    valuesById: map<string, Value>,
    tagOf: Option<Target> -> Option<string>,
    acc: map<string, Value>)
    requires |dash| > 0
    requires forall k :: k in byName ==> byName[k].name == k
    requires RemapValues(byName.Keys, dash[..|dash| - 1], valuesById, tagOf, acc)
    ensures RemapValues(byName.Keys, dash, valuesById, tagOf, RemapOne(byName, dash[|dash| - 1], valuesById, tagOf, acc))
  {
  }

  /** The `forEach` over dashboard parameters, given the tags indexed by name. */
  function RemapInto(
    byName: map<string, TemplateTag>,
    dashboardParameters: seq<Parameter>,
    valuesById: map<string, Value>,
    tagOf: Option<Target> -> Option<string>): (r: map<string, Value>)
    requires forall k :: k in byName ==> byName[k].name == k
    ensures RemapKeys(byName.Keys, dashboardParameters, tagOf, r)
    ensures RemapValues(byName.Keys, dashboardParameters, valuesById, tagOf, r)
    decreases |dashboardParameters|
  {
    if |dashboardParameters| == 0 then map[]
    else
      var n := |dashboardParameters|;
      var acc := RemapInto(byName, dashboardParameters[..n - 1], valuesById, tagOf);
      RemapStepKeys(byName, dashboardParameters, valuesById, tagOf, acc);
      RemapStepValues(byName, dashboardParameters, valuesById, tagOf, acc);
      RemapOne(byName, dashboardParameters[n - 1], valuesById, tagOf, acc)
  }

  /** `remapParameterValuesToTemplateTags`: the value of each dashboard
      parameter, keyed by the name of the template tag its target names.
      Targets naming no known tag contribute nothing; when several dashboard
      parameters reach one tag the last one wins. */
  function RemapParameterValuesToTemplateTags(
    templateTags: seq<TemplateTag>,
    dashboardParameters: seq<Parameter>,
    valuesById: map<string, Value>,
    tagOf: Option<Target> -> Option<string>): (r: map<string, Value>)
    ensures forall k :: k in r ==> IsTagName(templateTags, k)
    ensures forall k :: k in r <==> IsTagName(templateTags, k) && ReachedBy(tagOf, dashboardParameters, k)
    ensures forall i :: 0 <= i < |dashboardParameters| && LastReaching(tagOf, dashboardParameters, i)
              && IsTagName(templateTags, tagOf(dashboardParameters[i].target).value)
              ==> tagOf(dashboardParameters[i].target).value in r
                  && r[tagOf(dashboardParameters[i].target).value] == Get(valuesById, dashboardParameters[i].id)
  {
    var byName := IndexBy(templateTags, TagName);
    assert forall k :: k in byName.Keys <==> IsTagName(templateTags, k) by {
      forall k ensures k in byName.Keys <==> IsTagName(templateTags, k) {
        IndexByKeys(templateTags, TagName, k);
      }
    }
    RemapInto(byName, dashboardParameters, valuesById, tagOf)
  }
}
