# API v2 query example editor — Dafny model

The `ApiV2Example` component of the documentation site shows an example query
for the Plausible Stats API v2 in a JSON editor. The editor checks the text live
against an embedded JSON Schema (draft-07). That schema is the `SCHEMA` constant.
It decides which query documents are accepted: a `site_id`, a list of
`metrics`, a `date_range`, and optional `dimensions`, `filters`, `order_by` and
`include`. The component also keeps an editor `height` state. Its
content-change handler updates that state.

This project models both parts:

- `json.dfy` (`Json`): parsed JSON values.
- `draft07.dfy` (`Draft07`): the meaning of the draft-07 keywords the schema
  uses that are more than a one-line test. These are `oneOf` (a count of
  matching branches equal to one), lists of `const` branches, `\d`, and the
  anchored prefix pattern.
- `query_schema.dfy` (`QuerySchema`): one predicate per entry of the schema's
  `definitions` (`DateRange`, `Metric`, `SimpleFilterDimensions`,
  `CustomPropertyFilterDimensions`, `GoalDimension`, `TimeDimensions`,
  `Dimensions`, `Clauses`, `FilterEntry`, `OrderByEntry`), plus `Include` and
  the top-level `Query`. Each predicate reads its definition's keywords
  literally. A `$ref` is a call, and every `oneOf` is a count over the list of
  its branches' results.
- `query_grammar.dfy` (`QueryGrammar`): the same acceptance stated directly, as
  token sets and shapes, with lemmas proving it equals the keyword reading. This
  depends on the fact that every `oneOf` in the schema has pairwise disjoint
  branches, which is proved for each of the seven. The corners of the schema
  are proved here too: `time_dimensions` is never referenced, `order_by`
  entries have no arity bound, the top level is closed, and `include` is open.
- `query_examples.dfy` (`QueryExamples`): concrete documents on each side of
  the boundary.
- `editor_height.dfy` (`ExampleEditor`): the component's height state as a
  class, `ApiV2Example`, and the pure rule it follows.

Three behaviours of the code may differ from what a reader of the page would
expect. The model follows the code in each case.

- One might expect the editor to only ever grow. It does not. The handler is
  memoised with an empty dependency list (`src/js/apiv2-example.js:300`), so it
  always compares the reported content height with the initial 170, not with
  the current height. Reports 100, 250 and 180 therefore end at 180, not 250
  (`HeightCanShrink`).
- One might expect a query to need at least one metric. The schema sets no
  `minItems` on `metrics`, so an empty list is accepted (`MinimalQueryAccepted`).
- One might read an order-by entry as a pair. The schema's tuple-form `items`
  has no `minItems`, `maxItems` or `additionalItems`, so entries of any length
  are accepted (`OrderByEntryArity`).

## Model

| member | source | states |
|---|---|---|
| `Draft07.CountTrue` | src/js/apiv2-example.js:13 | The number of matching branches is at most the number of branches, and it is zero exactly when no branch matches. |
| `Draft07.OneOfIff` | src/js/apiv2-example.js:13 | draft-07 `oneOf`: exactly one branch matches iff some branch matches and no two distinct branches both do. |
| `Draft07.OneOfOfDisjoint` | src/js/apiv2-example.js:13 | When branches are pairwise disjoint, `oneOf` holds iff some branch matches. |
| `Draft07.ConstBranchesHit` | src/js/apiv2-example.js:67-99 | Some `const` branch of a list matches iff the value is a string among the listed tokens. |
| `Draft07.ConstBranchesDisjoint` | src/js/apiv2-example.js:113-155 | `const` branches with distinct tokens never match together. |
| `QuerySchema.DatePattern` | src/js/apiv2-example.js:104 | Decides the pattern `^\d{4}-\d{2}-\d{2}$` with ECMAScript `$` and ASCII `\d`. An accepted string consists of digits and hyphens only. |
| `QuerySchema.CustomDateRange` | src/js/apiv2-example.js:100-110 | Decides the array branch of `date_range`. An accepted value is an array of exactly two ten-character strings. |
| `QuerySchema.DateRange` | src/js/apiv2-example.js:66-111 | Decides `date_range` as exactly one of its nine branches. An accepted value is a string or a two-element array. `QueryGrammar.DateRangeAccepts` characterises it. |
| `QuerySchema.Metric` | src/js/apiv2-example.js:113-156 | Decides `metric` as exactly one of its ten `const` branches. Only strings are accepted. `QueryGrammar.MetricAccepts` characterises it. |
| `QuerySchema.SimpleFilterDimensions` | src/js/apiv2-example.js:157-184 | Decides the 23-token enum. Every accepted token has a five-letter scope followed by `:`. |
| `QuerySchema.CustomPropertyFilterDimensions` | src/js/apiv2-example.js:185-190 | Decides the pattern `^event:props:`. An accepted string is at least twelve characters long and has `:` after its five-letter scope. |
| `QuerySchema.GoalDimension` | src/js/apiv2-example.js:191-194 | Decides the constant `event:goal`, which is not a custom-property dimension. |
| `QuerySchema.TimeDimensions` | src/js/apiv2-example.js:195-204 | Decides the time enum. Every accepted token starts with `time`, and none is a custom-property dimension. |
| `QuerySchema.Dimensions` | src/js/apiv2-example.js:205-211 | Decides `dimensions` as exactly one of its three referenced branches. Every accepted value is a string with a five-letter scope followed by `:`. `QueryGrammar.DimensionsAccepts` characterises it. |
| `QuerySchema.FilterTuple` | src/js/apiv2-example.js:218-257 | Decides one `filter_entry` branch. An accepted value is a three-element array whose first element is one of the branch's operations. |
| `QuerySchema.FilterEntry` | src/js/apiv2-example.js:216-259 | Decides `filter_entry` as exactly one of its two branches. An accepted value is a three-element array starting with a string. `QueryGrammar.FilterEntryAccepts` characterises it. |
| `QuerySchema.OrderByEntry` | src/js/apiv2-example.js:260-277 | Decides `order_by_entry`. An accepted value is an array whose first two elements, where present, are strings. `QueryGrammar.OrderByEntryAccepts` characterises it. |
| `QuerySchema.Include` | src/js/apiv2-example.js:52-61 | Decides the `include` object. Any object without `time_labels` and `imports` is accepted, whatever other members it has. |
| `QuerySchema.Query` | src/js/apiv2-example.js:14-64 | Decides the whole document. An accepted document is an object whose members include the three required names and lie within the seven declared names. `QueryGrammar.QueryAccepts` characterises it. |
| `QueryGrammar.CustomPropertyExcludesTokens` | src/js/apiv2-example.js:157-204 | A string starting with `event:props:` is not a simple dimension, a metric, a time token or `event:goal`. |
| `QueryGrammar.MetricTokensAreNotDimensions` | src/js/apiv2-example.js:113-193 | No metric token is a simple dimension or the goal. |
| `QueryGrammar.TimeTokensAreNotDimensions` | src/js/apiv2-example.js:113-204 | No time token is a simple dimension, the goal, a metric, or a custom property. |
| `QueryGrammar.DateRangeTokensDistinct` | src/js/apiv2-example.js:67-99 | The eight fixed date-range tokens are distinct. |
| `QueryGrammar.MetricTokensDistinct` | src/js/apiv2-example.js:113-155 | The ten metric tokens are distinct. |
| `QueryGrammar.DateRangeBranchesDisjoint` | src/js/apiv2-example.js:66-111 | No value matches two branches of the `date_range` `oneOf`. |
| `QueryGrammar.MetricBranchesDisjoint` | src/js/apiv2-example.js:113-156 | No value matches two branches of the `metric` `oneOf`. |
| `QueryGrammar.DimensionsBranchesDisjoint` | src/js/apiv2-example.js:205-211 | No value matches two branches of the `dimensions` `oneOf`. |
| `QueryGrammar.NegatableDimensionBranchesDisjoint` | src/js/apiv2-example.js:226-231 | No value matches both branches of the dimension-slot `oneOf` for `is_not`/`contains`/`does_not_contain`. |
| `QueryGrammar.IsDimensionBranchesDisjoint` | src/js/apiv2-example.js:245-252 | No value matches two branches of the dimension-slot `oneOf` for `is`. |
| `QueryGrammar.FilterEntryBranchesDisjoint` | src/js/apiv2-example.js:216-258 | No value matches both `filter_entry` branches. |
| `QueryGrammar.OrderByKeyBranchesDisjoint` | src/js/apiv2-example.js:263-268 | No value matches two branches of the `order_by_entry` key `oneOf`. |
| `QueryGrammar.MetricAccepts` | src/js/apiv2-example.js:113-156 | `metric` accepts a value iff it is a string among the ten metric tokens. |
| `QueryGrammar.DateRangeAccepts` | src/js/apiv2-example.js:66-111 | `date_range` accepts a value iff it is one of the eight fixed tokens, or an array of exactly two strings each matching `^\d{4}-\d{2}-\d{2}$`. |
| `QueryGrammar.DimensionsAccepts` | src/js/apiv2-example.js:157-211 | A dimension is accepted iff it is a simple dimension token, a string starting with `event:props:`, or `event:goal`. |
| `QueryGrammar.FilterDimensionSlots` | src/js/apiv2-example.js:226-252 | The `is` dimension slot accepts every dimension. The slot of the other three operations accepts every dimension except `event:goal`. |
| `QueryGrammar.FilterEntryAccepts` | src/js/apiv2-example.js:212-259 | A filter is accepted iff it is an array of exactly three elements: an operation, a dimension and an array of strings. `is` allows any dimension. `is_not`, `contains` and `does_not_contain` allow any dimension but the goal. No other operation is accepted. |
| `QueryGrammar.OrderByEntryAccepts` | src/js/apiv2-example.js:260-277 | An order-by entry is accepted iff it is an array whose first element, if present, is a metric or a non-goal dimension, and whose second, if present, is `asc` or `desc`. Later elements are unconstrained. |
| `QueryGrammar.QueryAccepts` | src/js/apiv2-example.js:14-64 | A document is accepted iff it is an object with `site_id`, `metrics` and `date_range` and no member outside the seven declared names. In addition, `site_id` must be a string, `metrics` an array of metric tokens, and `date_range` valid. Present `dimensions`, `filters` and `order_by` must be arrays of valid items, and a present `include` must be valid. |
| `QueryGrammar.MissingRequiredRejected` | src/js/apiv2-example.js:63 | Any document without one of the three required members is rejected. |
| `QueryGrammar.UnknownMemberRejected` | src/js/apiv2-example.js:64 | Any document with a member outside the declared seven is rejected. |
| `QueryGrammar.IncludeIsOpen` | src/js/apiv2-example.js:52-61 | Adding any member other than `time_labels` or `imports` to a valid `include` object keeps it valid. |
| `QueryGrammar.IncludeFlagsAreBooleans` | src/js/apiv2-example.js:52-61 | With `time_labels` or `imports` set, `include` is valid iff the value is a boolean and the rest of the object is valid. |
| `QueryGrammar.TimeDimensionsUnreferenced` | src/js/apiv2-example.js:195-211 | A `time_dimensions` token is not a dimension, not a metric, and not a valid order-by key. |
| `QueryGrammar.TimeDimensionQueryRejected` | src/js/apiv2-example.js:31-37 | A document whose `dimensions` list contains a time token is rejected. |
| `QueryGrammar.OrderByEntryArity` | src/js/apiv2-example.js:260-277 | The empty entry, a lone valid key, and a valid key and direction followed by anything are all accepted order-by entries. |
| `QueryExamples.ThirtyDaysAccepted` | src/js/apiv2-example.js:80-83 | `"30d"` is an accepted date range. |
| `QueryExamples.ThirtyOneDaysRejected` | src/js/apiv2-example.js:66-111 | `"31d"` is a rejected date range. |
| `QueryExamples.CustomDateRangeAccepted` | src/js/apiv2-example.js:100-110 | `["2024-01-01", "2024-01-31"]` is accepted. |
| `QueryExamples.ImpossibleDatesAccepted` | src/js/apiv2-example.js:104 | The date pattern checks only the shape, so `["2024-13-45", "2024-00-00"]` is accepted. |
| `QueryExamples.CustomDateRangeRejected` | src/js/apiv2-example.js:100-110 | A one-date array, a three-date array and slash-separated dates are rejected. |
| `QueryExamples.CustomPropertyExamples` | src/js/apiv2-example.js:185-190 | `"event:props:url"` is an accepted dimension and `"event:propz:url"` is not. |
| `QueryExamples.DimensionExamples` | src/js/apiv2-example.js:157-211 | `"visit:country"` and `"event:goal"` are accepted dimensions and `"time:day"` is not. |
| `QueryExamples.FilterEntryAcceptedExamples` | src/js/apiv2-example.js:216-258 | `is_not` and `is` with `visit:country`, and `is` with `event:goal`, are accepted filters. |
| `QueryExamples.FilterEntryRejectedExamples` | src/js/apiv2-example.js:216-258 | `is_not` with `event:goal`, an unknown operation, and a two-element filter are rejected. |
| `QueryExamples.OrderByAccepted` | src/js/apiv2-example.js:260-277 | `["visitors", "desc"]` is an accepted order-by entry. |
| `QueryExamples.OrderByDirectionRejected` | src/js/apiv2-example.js:271-275 | `["visitors", "sideways"]` is rejected. |
| `QueryExamples.OrderByGoalRejected` | src/js/apiv2-example.js:263-268 | `["event:goal", "asc"]` is rejected. |
| `QueryExamples.MinimalQueryAccepted` | src/js/apiv2-example.js:14-64 | A document with only `site_id`, an empty `metrics` list and `date_range: "all"` is accepted. |
| `ExampleEditor.AfterChange` | src/js/apiv2-example.js:295-299 | One change leaves the height unchanged or sets it to the reported height. Any change is to a value above the captured height, and a report above the captured height is always adopted. |
| `ExampleEditor.HeightAfter` | src/js/apiv2-example.js:285-300 | The height after a sequence of reports is either the initial 170 or one of the reported heights. |
| `ExampleEditor.HeightAfterAtLeastInitial` | src/js/apiv2-example.js:285-300 | Whatever heights are reported, the height state never falls below 170. |
| `ExampleEditor.HeightAfterIsLastRaise` | src/js/apiv2-example.js:295-300 | The height is the last reported content height above 170, or 170 if none exceeded it. |
| `ExampleEditor.HeightCanShrink` | src/js/apiv2-example.js:295-300 | Reports 100 and 250 give 250. A further report of 180 gives 180: the height can decrease. |
| `ExampleEditor.ApiV2Example.constructor` | src/js/apiv2-example.js:285-286 | The height starts at 170, with no editor mounted and no reports. |
| `ExampleEditor.ApiV2Example.OnMount` | src/js/apiv2-example.js:288-293 | Mounting records the editor and subscribes the handler. The height is unchanged. |
| `ExampleEditor.ApiV2Example.OnContentChange` | src/js/apiv2-example.js:295-300 | A reported height `h` becomes the height exactly when `h > 170`. Otherwise the height is unchanged. The height stays at least 170, and the report is appended to the history. |

## Left out

- The registration of the schema with the editor's JSON language service
  (`setDiagnosticsOptions`) is not modelled. It is process-wide configuration of
  a foreign library. The same goes for the editor widget itself and its
  rendering options.
- Validation error reports are not modelled. These are the paths and messages
  the editor shows for a rejected document. The model decides only acceptance.
- The example table (`./examples`) and its pretty-printing with
  `JSON.stringify` are not modelled. The table is not part of this model.
- Annotation keywords (`description`, `markdownDescription`, `examples`) are
  left out. So are the requirements they state in prose, such as an order key
  having to be listed under `metrics`, or `time_labels` needing a time dimension.
  The schema does not enforce them.
- Heights are Dafny `real`s, not IEEE doubles. `getContentHeight()` can in
  principle return NaN or an infinity, and the model cannot express either.
- Strings are sequences of characters, so a JSON string holding a lone UTF-16
  surrogate (such as `"\ud800"`, which the schema accepts as a `site_id`)
  cannot be written as a model value.
- JSON numbers are an abstract integer tag. No keyword of the schema looks at
  a number's value.
- A JSON object is a map, so duplicate member names in the editor text are not
  modelled.
- The content height comes from the editor widget. It is a parameter of
  `OnContentChange`.
- `editorRef` is a flag saying whether `onMount` has run. It is not an editor
  handle.
- React schedules `setHeight` as a re-render. The model applies it at once.
- `onMount` is re-created on every render because it has no dependency list.
  This does not change which handler is subscribed, so it is not modelled.
