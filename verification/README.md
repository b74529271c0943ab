# Template tags as filter parameters — a Dafny model

A native (hand-written) query of the business-intelligence application holds
template tags such as `{{category}}`. The query builder turns those tags into
filter parameters, and a per-tag editor lets the user change the tag's type,
field mapping, widget type, default, `required` flag and values source. This
project models both pieces as pure functions over immutable datatypes:

- `js.dfy` (module `Js`): the JavaScript value semantics the code leans on:
  `undefined` apart from `null`, truthiness, `val?.length > 0`, `!= null`.
- `api_types.dfy` (module `ApiTypes`): template tags, parameters, targets,
  values-source configurations and cards. Keys that may be absent from an
  object are modelled as `Option<Value>`: `None` is an absent key and
  `Some(Undefined)` is a key present with value `undefined`.
- `indexing.dfy` (module `Indexing`): `_.indexBy`, where the last element
  with a key wins, and `Array.prototype.find`, where the first match wins.
- `template_tags.dfy` (module `TemplateTags`): the tag → parameter mapper,
  the choice of parameter source for a card, and the re-keying of dashboard
  filter values onto tag names.
- `tag_editor.dfy` (module `TagEditor`): the editor's handlers. Each handler
  is a transition that returns the updates it emits as an `Emitted` record:
  a new tag, a new parameter value and a new values configuration.

The editor also calls policies whose code is not part of this model. These
become parameters: the default options for a tag, the default widget type
for a tag and field, the metadata field lookup, and the extraction of a tag
name from a parameter target. The field metadata itself is a type parameter.
The last-saved question is an explicit input (`OriginalQuestion`), made of
its native flag, its tags by name and its parameters.

Two behaviours of the code worth noting:

- The setter for `required` pushes the default whenever the new flag is true,
  the parameter has no value and the tag has a default, whether or not the
  flag actually changed.
- A widget type overrides the tag type only when it is truthy. An empty
  widget type falls through to the tag type.

## Model

| member | source | states |
|---|---|---|
| TemplateTags.ParameterType | frontend/src/metabase-lib/v1/parameters/utils/template-tags.ts:13-38 | a non-empty widget type is the parameter type; otherwise the type is one of six fixed types; never empty |
| TemplateTags.WidgetTypeWins | frontend/src/metabase-lib/v1/parameters/utils/template-tags.ts:13-16 | with a widget type set, changing the tag type does not change the parameter type |
| TemplateTags.FixedTypeMapping | frontend/src/metabase-lib/v1/parameters/utils/template-tags.ts:18-37 | without a widget type, each fixed parameter type comes from exactly its tag types (both directions); `category` from no type, dimension, card or snippet |
| TemplateTags.ParameterTarget | frontend/src/metabase-lib/v1/parameters/utils/template-tags.ts:40-44 | the target names the tag and is a dimension target iff the tag is a dimension or temporal-unit tag |
| TemplateTags.TemplateTagParameter | frontend/src/metabase-lib/v1/parameters/utils/template-tags.ts:46-69 | id, slug, name, default, required and options come from the tag; the values-source keys come from the config or are undefined; `temporal_units` is present iff the type is `temporal-unit`, holding the config's value or undefined |
| TemplateTags.TemporalUnitsKeyPresence | frontend/src/metabase-lib/v1/parameters/utils/template-tags.ts:50-67 | `temporal_units` is present iff the widget type is `temporal-unit`, or there is no widget type and the tag is a temporal-unit tag |
| TemplateTags.ConfigSurvivesDerivation | frontend/src/metabase-lib/v1/parameters/utils/template-tags.ts:62-67 | a stored configuration with all keys present is read back unchanged from the derived parameter |
| TemplateTags.Kept | frontend/src/metabase-lib/v1/parameters/utils/template-tags.ts:79-88 | a tag is kept iff it has a type other than card/snippet and, for a field filter, a field or a widget type other than `none`; never longer than the input |
| TemplateTags.KeptAppend | frontend/src/metabase-lib/v1/parameters/utils/template-tags.ts:79-88 | filtering distributes over concatenation, so the input order is kept |
| TemplateTags.KeptSingleton | frontend/src/metabase-lib/v1/parameters/utils/template-tags.ts:80-88 | a single tag is kept exactly when it passes the inclusion rule |
| TemplateTags.TemplateTagParameters | frontend/src/metabase-lib/v1/parameters/utils/template-tags.ts:73-90 | one parameter per kept tag in order; each is built with the config of the last stored parameter with the tag's id, or with none when no stored parameter has it |
| TemplateTags.TemplateTagParametersAppend | frontend/src/metabase-lib/v1/parameters/utils/template-tags.ts:79-89 | parameters of concatenated tag runs are the concatenated parameters |
| TemplateTags.DerivedParametersTargetTheirTags | frontend/src/metabase-lib/v1/parameters/utils/template-tags.ts:73-90 | every derived parameter comes from an included input tag with its id and name, and its target names its own slug |
| TemplateTags.TemplateTagsOf | frontend/src/metabase-lib/v1/parameters/utils/template-tags.ts:92-97 | a non-empty result only for a native card with a tag object; for such a card, exactly its tags |
| TemplateTags.TemplateTagsOfNonEmpty | frontend/src/metabase-lib/v1/parameters/utils/template-tags.ts:92-97 | a card has tags iff its query is native and its tag object holds at least one tag |
| TemplateTags.TemplateTagParametersFromCard | frontend/src/metabase-lib/v1/parameters/utils/template-tags.ts:113-116 | one parameter per kept tag of the card, in order, each the parameter derived from that tag: with the configuration of the last stored card parameter carrying its id, or with none when no stored parameter has it; a card that is not native derives none |
| TemplateTags.FromCardStoredConfig | frontend/src/metabase-lib/v1/parameters/utils/template-tags.ts:113-116 | a derived parameter carries the values-source settings of the last stored card parameter with its id |
| TemplateTags.ParametersFromCard | frontend/src/metabase-lib/v1/parameters/utils/template-tags.ts:99-111 | nothing for a missing card; the card's parameters unchanged when there are any; otherwise the tag-derived ones |
| TemplateTags.ParametersFromPlainCard | frontend/src/metabase-lib/v1/parameters/utils/template-tags.ts:99-116 | a card with no stored parameters and no native tags has no parameters |
| TemplateTags.RemapInto | frontend/src/metabase-lib/v1/parameters/utils/template-tags.ts:134-144 | the loop leaves one key per known tag some dashboard parameter reaches, holding the value of the last such parameter |
| TemplateTags.RemapParameterValuesToTemplateTags | frontend/src/metabase-lib/v1/parameters/utils/template-tags.ts:122-147 | every key is a tag name; a key is present iff it is a tag name some dashboard parameter targets; its value is the (possibly undefined) value of the last such parameter |
| Indexing.IndexBy | frontend/src/metabase-lib/v1/parameters/utils/template-tags.ts:77 | every element's key is in the index; each entry is an element with that key; the last element with a key is the entry |
| Indexing.IndexByKeys | frontend/src/metabase-lib/v1/parameters/utils/template-tags.ts:132 | a key is in the index iff some element carries it |
| Indexing.Find | frontend/src/metabase/query_builder/components/template_tags/TagEditorParam.tsx:127 | none iff no element has the id; otherwise the first element that has it |
| TagEditor.ConfigAfterTypeChange | frontend/src/metabase/query_builder/components/template_tags/TagEditorParam.tsx:111-137 | the empty config unless parameter, original question, native query, same-name original tag of the new type and original parameter all exist; then that first original parameter's three values-source fields |
| TagEditor.SetType | frontend/src/metabase/query_builder/components/template_tags/TagEditorParam.tsx:139-155 | no updates iff the type is unchanged; otherwise the new type, default and field cleared, widget type `none` iff dimension and cleared otherwise, other fields kept, value null, config re-derived |
| TagEditor.SetTypeSettles | frontend/src/metabase/query_builder/components/template_tags/TagEditorParam.tsx:143-150 | setting the same type on the emitted tag emits nothing |
| TagEditor.SetTypeAndInclusion | frontend/src/metabase/query_builder/components/template_tags/TagEditorParam.tsx:144-150 | after a type change the tag surfaces as a parameter iff the new type is not a field filter, card or snippet; if it surfaces it is a variable with a fixed parameter type |
| TagEditor.SetWidgetType | frontend/src/metabase/query_builder/components/template_tags/TagEditorParam.tsx:157-176 | no updates iff the widget type is unchanged; otherwise the widget type is set, the default is null, the options come from the updated tag, nothing else changes and the value is null |
| TagEditor.WidgetTypeChangeDecidesParameterType | frontend/src/metabase/query_builder/components/template_tags/TagEditorParam.tsx:160-172 | after a change to a non-empty widget type, that widget type is the tag's parameter type |
| TagEditor.SetRequired | frontend/src/metabase/query_builder/components/template_tags/TagEditorParam.tsx:178-194 | the tag is rewritten iff the flag changes; the default is pushed iff a parameter exists, its value is falsy, the tag is required and its default truthy |
| TagEditor.SetRequiredKeepsValue | frontend/src/metabase/query_builder/components/template_tags/TagEditorParam.tsx:185-193 | without a parameter, or when making the tag optional, no value is emitted |
| TagEditor.SetRequiredSettles | frontend/src/metabase/query_builder/components/template_tags/TagEditorParam.tsx:178-194 | repeating the change on the emitted tag rewrites nothing, and a pushed value is always truthy |
| TagEditor.SetQueryType | frontend/src/metabase/query_builder/components/template_tags/TagEditorParam.tsx:196-203 | the emitted config has the new query type and keeps the parameter's other values-source keys |
| TagEditor.SetSourceSettings | frontend/src/metabase/query_builder/components/template_tags/TagEditorParam.tsx:205-216 | the emitted config has the new source type and config and keeps the parameter's query type and temporal units |
| TagEditor.SourceSettingsReachDerivedParameter | frontend/src/metabase/query_builder/components/template_tags/TagEditorParam.tsx:211-215 | the new source type and config show up in the parameter derived with the emitted config |
| TagEditor.QueryTypeReachesDerivedParameter | frontend/src/metabase/query_builder/components/template_tags/TagEditorParam.tsx:199-202 | the new query type shows up in the parameter derived with the emitted config |
| TagEditor.NonEmptyOrNull | frontend/src/metabase/query_builder/components/template_tags/TagEditorParam.tsx:223 | a value with a positive length is kept as is; any other value becomes null |
| TagEditor.SetParameterAttribute | frontend/src/metabase/query_builder/components/template_tags/TagEditorParam.tsx:218-226 | no update iff the attribute already equals the value; otherwise only that attribute changes, to the value if it has a positive length and to null otherwise |
| TagEditor.SetParameterAttributeSettles | frontend/src/metabase/query_builder/components/template_tags/TagEditorParam.tsx:220-224 | repeating the update never changes the tag further, and emits nothing for a non-empty or null value |
| TagEditor.ChangeDefaultValue | frontend/src/metabase/query_builder/components/template_tags/TagEditorParam.tsx:386-389 | the raw value is pushed; the tag's default is updated through the attribute setter |
| TagEditor.ChangeDefaultValueAgrees | frontend/src/metabase/query_builder/components/template_tags/TagEditorParam.tsx:386-389 | for a non-empty or null value, the stored default equals the pushed value |
| TagEditor.SetDimension | frontend/src/metabase/query_builder/components/template_tags/TagEditorParam.tsx:228-253 | no update iff the tag already has `["field", id, null]` or the field is unknown; otherwise the reference is stored, the widget type is recomputed only for dimension tags, the options are recomputed from the updated tag, and nothing else changes |
| TagEditor.MappedFieldFilterSurfaces | frontend/src/metabase/query_builder/components/template_tags/TagEditorParam.tsx:234-251 | a field filter mapped to a field surfaces as a parameter with a dimension target; mapping the same field again is a no-op |
| TagEditor.FilterWidgetTypeValue | frontend/src/metabase/query_builder/components/template_tags/TagEditorParam.tsx:255-270 | never empty, never a `location…` or `category` value; `none` without a widget type, `string/=` for old widget types, the widget type otherwise |
| TagEditor.FilterWidgetTypeValueIdempotent | frontend/src/metabase/query_builder/components/template_tags/TagEditorParam.tsx:255-270 | normalising the shown widget type a second time changes nothing |
| TagEditor.ChangeTemporalUnits | frontend/src/metabase/query_builder/components/template_tags/TagEditorParam.tsx:350-363 | the config is exactly the new units; the default and value are reset to null iff the default is set and not among the units |
| TagEditor.ChangeTemporalUnitsKeepsDefaultAmongUnits | frontend/src/metabase/query_builder/components/template_tags/TagEditorParam.tsx:350-363 | afterwards the default is unset or one of the units, and repeating the change resets nothing |

## Left out

- Rendering, the visibility rules of the editor and the field-mapping selector
  (TagEditorParam.tsx:272-395, TagEditorParamParts/FieldMappingSelect.tsx) are
  presentation and have no state of their own.
- The store wiring (`connect`, the state and dispatch mappings) and the field
  fetch on mount (TagEditorParam.tsx:83-109) are plumbing and asynchronous I/O.
- The order in which a handler calls its store callbacks is not modelled.
  Each callback is modelled only as emitted or not, with its argument.
- The query library calls, the original question's parameters, and the
  policies `getDefaultParameterOptions`, `getDefaultParameterWidgetType`,
  `getParameterOptionsForField`, `getTemplateTagFromTarget` and
  `canUseCustomSource` are inputs. Their code is not part of this model.
- The server-side derivation that `getTemplateTagParameters` must mirror is
  not part of this model.
- Numbers are integers: floating point and NaN are not modelled.
- The tags of a card are given in the order `Object.values` enumerates them.
  The ordering rule that puts integer-like keys first is not modelled.
- Lookups in plain objects ignore keys inherited from `Object.prototype`. For
  example, a target naming a missing tag called `constructor` is not modelled.
- `val?.length` is true only for strings and arrays. An object with its own
  `length` key, and the coercion `>` applies to non-number lengths, are not
  modelled.
- TemplateTags.TemplateTagsOf: only the legacy-query shape is modelled. The
  `native` object is assumed present whenever the query type is `native`.
- TagEditor.SetParameterAttribute: `!==` compares arrays and objects by
  reference, but the model compares them by content. Only the `display-name`
  and `default` attributes, the two the editor sets, are modelled.
- TagEditor.SetQueryType: the spread also copies the parameter's other keys
  (id, name, slug, ...) into the emitted config. Only the values-source keys
  are kept.
- TagEditor.SetSourceSettings: the same spread simplification as for the query type.
- Tag type strings outside the declared union are not represented, except the
  legacy `"string"` (`StringType`).
