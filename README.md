# API Blueprint to Spring MVC: the semantic-analysis core, in Dafny

The generator reads an API Blueprint document, already parsed by drafter into
an abstract syntax tree. Before any template is rendered, it turns that tree
into the values the Spring MVC templates consume:

- **Type names** (`TypeNames`): `mapType` sends element names through a small
  primitive table, passes composed names through untouched and Pascal-cases
  the rest. `getClassNameFromDataStructureElement` builds generic names such as
  `List<Integer>`.
- **HTTP status table** (`SpringHttpStatus`): `statusMap` and `fromStatusCode`,
  the Spring `HttpStatus` constants of the 2xx codes.
- **Example analysis** (`ExampleAnalysis`):
  - the 2xx codes of an action's first example block;
  - the payload type of an action's requests or responses, with warnings when
    the examples disagree, the action's own content as a fallback, and a
    resource-level override.
- **Resource normalisation** (`Normalizer` for one action, `Resources` for the
  loops of `parseResources`). Each action:
  - inherits its resource's parameters and URI template;
  - has its description trimmed;
  - gets a response class (`Object` by default), a request body, its query
    names from the first `{?...}`/`{&...}` group, a template without its
    `{?...}`, `{#...}` and `{&...}` groups, and at most one `@ResponseStatus`
    annotation;
  - has its parameter objects tagged with separator, `RequestParam` or
    `PathVariable`, and default value.
- **Model extraction** (`Models`): `parseModels` collects the named data
  structures depth-first, reads `+ key: value` options from their
  descriptions, builds member fields, and either flattens ancestor fields in or
  records one parent class.
- **Resource modifiers** (`Modifiers`): `applyResourceModifiers` and
  `appendParameterDefinitions`. A rule whose pattern accepts an action's name
  splices its complete prepended definitions, the action's parameters and its
  complete appended definitions into a new list, renumbers the separators, and
  may replace the method annotations.

The document objects that the code updates in place are classes (`Document`):
resources, actions and URI parameters. A parameter object is shared by every
action that inherits it from its resource, and the model keeps that aliasing
in the normaliser's loops and in the one-action modifier step as written
(`Modifiers.ApplyToActionAsWritten`); the modifier loops are modelled on the
corrected step, which copies the parameter objects it renumbers (see
"## Findings").
The AST, examples, rules and warnings are datatypes. Loops that push onto
arrays or write fields are methods. Each one is proved against a function on
values, and the properties are lemmas about those functions.

Code outside the core becomes function-typed parameters:

- the `pascal-case` and `camel-case` packages;
- the global `parseInt`, as a string to optional-integer function;
- each modifier's compiled regular expression, as a string predicate.

The console messages become an appended list of `Report.Warning` values.
`""` stands for an absent string field, which matches the code's truthiness
tests.

Some behaviour of the code that the model keeps as it is:

- With more than one 2xx code, the code warns and adds no `@ResponseStatus`
  annotation at all (lib/index.js:211-212).
- The code collects every eligible data structure, so duplicate ids are kept
  (lib/index.js:246-256).
- The code pushes a model's own fields first and its flattened ancestors'
  fields after them (lib/index.js:286-307).
- The option map a model is built with is shared with its ancestors'
  descriptions, so an ancestor's `+ flattenParentClasses: false` line can give
  a model both merged fields and a parent class. The model proves that a model
  never has both only when no description names that option
  (`Models.NeverBothWhenOptionKept`).
- The name `Long<String>` is turned into `Long<String>!!!`
  (lib/index.js:100-103).
- `modelPropertyPattern` is not a global regular expression, so its
  `lastIndex` step (lib/index.js:277-279) has no effect, and the model carries
  no such state.

## Model

| member | source | states |
|---|---|---|
| TypeNames.MapTypeCases | lib/index.js:41-47 | null stays null; a string with a character outside `[A-Za-z0-9\s]` is returned unchanged; a table key gives its entry; any other string is Pascal-cased |
| TypeNames.MapTypeTable | lib/index.js:33-40 | `number` gives `Integer`, `array` gives `List`, `int`/`double`/`boolean`/`float` map to themselves, and a composed name such as `List<Integer>` passes through |
| TypeNames.StripPrefixedAt | lib/index.js:57-61 | the result is the input or the input without its leading `@`, one character shorter exactly when the input starts with `@` |
| TypeNames.StripPrefixedAtRoundTrip | lib/index.js:57-61 | stripping the `@` from `"@" + s` gives back `s` |
| TypeNames.GenericNameShape | lib/index.js:87-95 | a generic node is named `Base<A, ..., A>` with one argument per child, each the name of the FIRST child, joined by `", "` |
| TypeNames.ArgumentListIsJoin | lib/index.js:91-93 | the argument loop yields `count` copies of the argument joined with `", "` |
| TypeNames.WrapperNameShape | lib/index.js:85-96 | a node with no children, or with one child whose content is neither null nor an array, gets no angle brackets; a table element gets exactly its table entry |
| TypeNames.OnlyFirstChildNamed | lib/index.js:92 | two generic nodes with the same element, the same number of children and the same first child get the same name, whatever their other children |
| TypeNames.NeverBareLongString | lib/index.js:100-104 | no name comes out as exactly `Long<String>` |
| TypeNames.LongStringIsMarked | lib/index.js:100-103 | `Long` holding one `string` node is named `Long<String>!!!` |
| SpringHttpStatus.FromStatusCodeRange | lib/spring-http-status.js:2-17 | a code has an entry exactly when it is 200-208 or 226; every entry is 2xx; only 200 is the implicit default |
| SpringHttpStatus.StatusNames | lib/spring-http-status.js:2-7 | codes 200-204 map to exactly their Spring constants and reason phrases (200 `OK` is the only default, 201 `CREATED`, 204 `NO_CONTENT`, ...) |
| SpringHttpStatus.StatusNamesUpper | lib/spring-http-status.js:8-17 | codes 205-208 and 226 map to exactly their constants and reason phrases (226 `IM_USED`, ...); 209, 299 and 404 have no entry |
| ExampleAnalysis.SuccessCodes | lib/index.js:71-77 | at most one code per response, every code in [200, 300) |
| ExampleAnalysis.SuccessStatuses | lib/index.js:63-81 | the loop returns the 2xx codes of the first example block's responses, in order; none without an example block |
| ExampleAnalysis.SuccessCodesAppend | lib/index.js:71-77 | the codes of two runs of responses are the codes of the first followed by those of the second |
| ExampleAnalysis.SuccessCodesMembership | lib/index.js:71-77 | a code is collected exactly when it is 2xx and some response name parses to it |
| ExampleAnalysis.NameFromExample | lib/index.js:115-123 | the forEach keeps the name of the first `dataStructure` entry with exactly one child |
| ExampleAnalysis.NameFromContentsIsFirst | lib/index.js:117-121 | the name found is the one of the first naming entry; with no naming entry there is none |
| ExampleAnalysis.FirstExampleNameWins | lib/index.js:130-138 | the first non-empty candidate is the result, and every warning expected it and saw a different name from a later example |
| ExampleAnalysis.NoCandidateNoName | lib/index.js:130-138 | with no candidate there is no name and no warning |
| ExampleAnalysis.PickWarnsOnlyMismatches | lib/index.js:130-138 | the example loop's only warnings are type mismatches between examples |
| ExampleAnalysis.PayloadWarnsOnlyMismatches | lib/index.js:111-159 | choosing a payload class warns only about example type mismatches |
| ExampleAnalysis.WidgetThenGadget | lib/index.js:130-138 | responses naming `Widget` then `Gadget` give `Widget` and one mismatch warning for example 2 |
| ExampleAnalysis.PickFromExamples | lib/index.js:126-139 | the loop over the first example block's payloads of the requested kind gives the pick of the specification: a found name is adopted unless a truthy, different name is already held, which instead reports a mismatch numbered by its example; nothing without such payloads |
| ExampleAnalysis.LookupOverride | lib/index.js:146-157 | the loop over the resource's content entries replaces the name by what the first entry of that name names, and keeps it when no entry has that name |
| ExampleAnalysis.ClassNameFromActionExamples | lib/index.js:111-160 | the loops return the example name, else the action's own content, then the resource-level override, with the mismatch warnings |
| ExampleAnalysis.ActionContentOnlyAsFallback | lib/index.js:141-144 | once the examples give a name, the action's own content does not affect the result |
| ExampleAnalysis.ResourceOverrideFirstMatch | lib/index.js:146-157 | a name equal to the name of a resource content entry is replaced by what the FIRST such entry names; with no such entry it is kept |
| JsText.Trim | lib/index.js:175 | the result is no longer than the input |
| JsText.TrimSlice | lib/index.js:175 | `trim` leaves the slice between the leading and trailing white space, with no white space at either end |
| JsText.TrimIdempotent | lib/index.js:175 | trimming twice equals trimming once |
| JsText.Split | lib/index.js:199 | `split` on one character gives at least one part and no part holds the separator |
| JsText.JoinSplit | lib/index.js:199 | joining the parts of a split with the separator gives back the string |
| JsText.SplitJoin | lib/index.js:199 | splitting a join of separator-free parts gives back the parts |
| Normalizer.QueryGroupFrom | lib/index.js:196 | the match found is the leftmost `{?...}`/`{&...}` group with a non-empty body, and no match means no position from `from` on starts such a group |
| Normalizer.QueryGroupIsStripped | lib/index.js:196-204 | without a query group the template and the query names are unchanged and empty; with one, at least that group is removed |
| Normalizer.StatusAnnotationRule | lib/index.js:207-221 | at most one annotation, added exactly when there is one code with a non-default table entry; several codes give one warning naming the first |
| Normalizer.ListTagsAt | lib/index.js:224-229 | parameter i gets separator `""` when i = 0 and `", "` otherwise, `RequestParam` exactly when its name is a query name, and its default value |
| Normalizer.NormalizeFacts | lib/index.js:168-229 | an action without parameters takes the resource's, an action without a template takes the resource's (stripped), the response class is never empty, `Object` is used, with a warning, exactly when no payload class is found, at most one extra annotation, and the body changes only when there are request examples |
| Normalizer.InheritDefaults | lib/index.js:170-175 | parameters and template inherited, description trimmed, other fields unchanged |
| Normalizer.ResolveTypes | lib/index.js:177-193 | response class and request body set as the example analysis decides, other fields unchanged |
| Normalizer.RequestParameters | lib/index.js:195-204 | the query names and the stripped template of a URI template |
| Normalizer.ResponseStatusAnnotations | lib/index.js:209-221 | the status annotations and warnings of the action's 2xx codes |
| Normalizer.UpdateAction | lib/index.js:169-221 | the action's new fields are those its normalization gives |
| Normalizer.TagParameters | lib/index.js:224-229 | every parameter object in the list carries the tags of its last position in the list |
| Normalizer.NormalizeAction | lib/index.js:169-229 | one loop iteration: the action's new state and warnings are its normalization, and its parameter objects carry their tags |
| Resources.WarningsAppend | lib/index.js:164-231 | the warnings of two runs of actions are those of the first then the second |
| Resources.TaggingAppend | lib/index.js:224-229 | the tags of a later run overwrite those of an earlier one |
| Resources.TaggingKeys | lib/index.js:224-229 | exactly the parameter objects of the normalized actions are tagged |
| Resources.LastWriterWins | lib/index.js:170-171 | a parameter object shared by several actions carries the tags of the last action that lists it |
| Resources.TouchedIsTagged | lib/index.js:170-171 | the objects normalizing a resource tags are each action's own list or the resource's |
| Resources.NormalizeStep | lib/index.js:168-230 | one action is normalized, every other action is unchanged, and the objects it does not list keep their tags |
| Resources.NormalizeActions | lib/index.js:168-230 | every action of a resource gets its normalized state; the warnings come in order; every tag holds |
| Resources.ParseResource | lib/index.js:164-231 | one resource's actions are normalized and the progress invariant extends to the next resource |
| Resources.NameResources | lib/index.js:166 | every resource's `resourcename` is its name |
| Resources.NoProgressYet | lib/index.js:164 | before the loop nothing is normalized and nothing is tagged |
| Resources.ProgressDone | lib/index.js:164-231 | after the last resource every action holds its normalized state and the warnings are all of them in order |
| Resources.NormalizeResources | lib/index.js:164-231 | every action gets its normalized state, the warnings come in document order, each shared object carries the tags of the last action listing it |
| Resources.ParseResources | lib/index.js:162-233 | parseResources: names copied, every action normalized, warnings in document order, last writer's tags on every parameter object |
| Models.ListedModelsEligible | lib/index.js:246-256 | every model collected from a data-structure list has an id, is not skip-listed and has no `.` in its id |
| Models.CollectedEligible | lib/index.js:240-265 | every model collected depth-first is eligible |
| Models.ListedModelsExact | lib/index.js:246-256 | an entry of a data-structure list is collected exactly when it is eligible, duplicates included |
| Models.NamelessReported | lib/index.js:247-249 | every entry without an id is reported, once |
| Models.PushListedModels | lib/index.js:246-256 | the forEach appends the eligible entries, in order, and reports the nameless ones |
| Models.ProcessContent | lib/index.js:240-262 | the recursion appends the models of the subtree depth-first |
| Models.FindOption | lib/index.js:239 | a match's key is a non-empty run of letters and its value holds no line terminator; no match means no position from `from` on matches |
| Models.FindOptionIsLeftmost | lib/index.js:239 | a match is the match at some position from `from` on, and no earlier position matches |
| Models.NoPlusNoOption | lib/index.js:239 | a line without `+` carries no option |
| Models.OptionLineRoundTrip | lib/index.js:275-281 | the line `+ key: value` yields that key and value, for a letters-only key and a value that neither starts with white space nor holds a line terminator |
| Models.LaterLineWins | lib/index.js:274-282 | of two lines naming the same key, the later one's value is kept |
| Models.ReadDescription | lib/index.js:271-284 | the description loop writes every matching line's option, in order |
| Models.MemberFieldsCount | lib/index.js:286-296 | one field per `member` entry, none for other entries |
| Models.MemberFieldsFromMembers | lib/index.js:286-296 | each field takes its name from a `member`'s key and its type from that member's value |
| Models.PushMemberFields | lib/index.js:286-296 | the member loop appends the model's own fields |
| Models.AddFieldsSpec | lib/index.js:268-308 | the fields so far, then the model's own fields, start the result; the shared counter is left alone or run to the end, and always run to the end when flattening is on |
| Models.ScanSpec | lib/index.js:298-307 | the ancestor scan only adds fields and leaves the counter at the end |
| Models.FlattenOffOwnFieldsOnly | lib/index.js:298-307 | with flattening off a model gets only its own fields |
| Models.ScanSkips | lib/index.js:301-306 | models whose id is not the parent's name are passed over |
| Models.ScanToFirst | lib/index.js:301-306 | nothing is merged before the first model with the parent's name |
| Models.ScanStopsAfterMerge | lib/index.js:301-306 | once an ancestor that flattens is merged, the shared counter is at the end, so no later model with the same name is merged |
| Models.AncestorFieldsFollowOwn | lib/index.js:286-307 | flattening gives the own fields, then the first ancestor's own fields, then what that ancestor merges in turn |
| Models.AddFieldsIgnoresCounter | lib/index.js:301 | where the shared counter starts does not change the fields or options |
| Models.AddFields | lib/index.js:268-308 | addFields hands back the fields, options and counter its specification gives |
| Models.FindParentClass | lib/index.js:322-330 | the parent-class loop finds the parent class its specification gives |
| Models.SubClassRule | lib/index.js:321-330 | a definition names a parent class exactly when the option ends up `'false'`, the element is set, and some model carries the element's name; that name is the element |
| Models.AddFieldsKeepsFlatten | lib/index.js:271-307 | when no description names the flattening option, addFields leaves it as it was |
| Models.NeverBothWhenOptionKept | lib/index.js:298-330 | when no description names the option, a definition with a parent class has only its own fields |
| Models.CollectModels | lib/index.js:263-265 | the loop over the document's top-level content collects the models and the nameless-entry reports of processing each entry in turn |
| Models.ScanAncestors | lib/index.js:298-307 | the ancestor loop leaves the fields, options and counter of the scan specification: models from the counter on whose id is the parent class have their fields merged, in model order, until a merge that itself flattens; that merge runs the shared counter to the end, so later models of that name are skipped (`Models.ScanStopsAfterMerge`) |
| Models.BuildDefinition | lib/index.js:311-337 | one turn of the definition loop yields the model's definition: its id, its own fields then its ancestors', the parent class (only when not flattening) and the options |
| Models.ParseModels | lib/index.js:235-342 | parseModels returns one definition per collected model, in order, and the nameless-entry reports |
| Modifiers.AcceptedExact | lib/index.js:346-352 | a definition is pushed exactly when it has a name and a type, duplicates included |
| Modifiers.AcceptedOrRejected | lib/index.js:346-362 | every definition is either pushed or reported, and every report is a missing-field error |
| Modifiers.SplicedPositional | lib/index.js:355-392 | a spliced list has no separator first and `", "` before every later entry, whatever the separators it started from |
| Modifiers.SplicedOrder | lib/index.js:386-399 | the spliced names are the complete prepended definitions', the action's own in order, then the complete appended definitions'; the middle of the list is the action's own parameters, in order, with only their separators changed to those of their new positions |
| Modifiers.NoMatchNoChange | lib/index.js:380-381 | corrected step: rules whose pattern rejects the action's name leave it unchanged |
| Modifiers.MatchedIsPositional | lib/index.js:366-402 | corrected step: once any rule matched, the action's separators follow positions |
| Modifiers.LastAnnotationsWin | lib/index.js:383-384 | the extra annotations are those of the last matching rule that names some |
| Modifiers.AnnotationsKept | lib/index.js:383-384 | rules naming no annotations leave the annotations unchanged |
| Modifiers.PrependAuth | lib/index.js:386-402 | prepending `auth: String` to an action whose only parameter is `p1` gives `[auth, p1]`, `auth` without separator and `p1` with `", "` |
| Modifiers.NewParameter | lib/index.js:354-361 | the object pushed for a complete definition, with the separator of its position |
| Modifiers.AppendParameterDefinitions | lib/index.js:344-363 | pushes a fresh object for each complete definition, separated by position, keeps the list before it, and reports each incomplete definition |
| Modifiers.CopyShifted | lib/index.js:390-395 | corrected step: the action's own parameters are appended as copies with the separators of their new positions |
| Modifiers.BuildParameters | lib/index.js:386-399 | corrected step: the new list is the spliced list of the rule and the action's parameters; the warnings are the rejected definitions' |
| Modifiers.ApplyToAction | lib/index.js:376-402 | corrected step (see Findings): the action's parameters and extra annotations become what the rule makes of them, its other fields stay as they were, and no parameter object changes |
| Modifiers.ApplyToActionAt | lib/index.js:376-402 | corrected step: one action changes as the rule says and every other action stays as it was; only parameters and extra annotations may change |
| Modifiers.RulesOnAllAt | lib/index.js:366-405 | corrected step: rule after rule over every action is, for each action, its rules in order |
| Modifiers.ApplyRuleToResource | lib/index.js:376-403 | corrected step: one rule over the actions of one resource: those actions change as the rule says, in order, and their errors follow the earlier ones |
| Modifiers.ApplyRuleEverywhere | lib/index.js:373-404 | corrected step: one rule over every action of every resource, with its errors action by action |
| Modifiers.ApplyResourceModifiers | lib/index.js:365-408 | corrected step: every action's parameters and extra annotations become what the rules, in order, make of them, its other fields stay as they were; the errors come rule by rule, action by action |
| Modifiers.RewriteDelims | lib/index.js:390-395 | as written: each own parameter object gets, in place, the separator of its new position (the later write wins for an object listed twice); annotations and defaults unchanged |
| Modifiers.BuildParametersAsWritten | lib/index.js:386-399 | as written: fresh definition objects around the action's own objects, whose separators are rewritten in place |
| Modifiers.ApplyToActionAsWritten | lib/index.js:376-402 | as written: a non-matching action is unchanged; a matching one gets the new list holding its own objects, with their separators rewritten in place |
| Modifiers.SharedParameterAsWritten | lib/index.js:390-395 | the rule matches only the first of two actions sharing `id`, yet the second action's `id` ends up with separator `", "` |
| Modifiers.SharedParameterCorrected | lib/index.js:376-402 | the same two actions under the corrected step: the second action is left as it was |

## Left out

- Rendering, templates and file output (`renderFiles`), the drafter callbacks,
  include-file handling and option defaulting (`exports.render`): I/O and
  plumbing, not analysis.
- Console output: each message is a `Report.Warning` value appended in order.
  Colours and message text are not modelled.
- The `pascal-case` and `camel-case` packages, `parseInt` and the JavaScript
  regular-expression engine behind modifier patterns are given functions. The
  model does not capture the `lastIndex` state of a global (`/g`) pattern
  passed by the caller; each test is a pure predicate.
- `Normalizer.QueryGroupIsStripped`: bounds the stripped template's length
  (at least the first query group is removed). It does not give the exact
  result of the global replace; `Normalizer.StripFrom` defines that result.
- `Models.ParseModels`: `addFields` recursion is given `|models|` levels of
  fuel. A cycle of flattening ancestors, which overflows the stack in the
  source, ends in the model when the fuel runs out.
- `Modifiers.ApplyResourceModifiers`: an absent `appendedParameters` makes the
  source throw at lib/index.js:397. The model takes the list as given, and an
  absent `prependedParameters` is the empty list.
- `Modifiers.ApplyResourceModifiers` and the loop members under it
  (`Modifiers.ApplyRuleEverywhere`, `Modifiers.ApplyRuleToResource`,
  `Modifiers.ApplyToActionAt`) run the corrected step: they copy the action's
  own parameter objects with renumbered separators instead of writing `__delim`
  on the shared objects in place (lib/index.js:390-395). The as-written step is
  `Modifiers.ApplyToActionAsWritten`; see "## Findings".
- `Modifiers.NoMatchNoChange`, `Modifiers.MatchedIsPositional` and
  `Modifiers.RulesOnAllAt` hold for the corrected step only. As written, a
  later rule that matches a sibling action rewrites the separators of the
  parameter objects the two actions share. That write can also reach an action
  an earlier rule matched, so its separators no longer follow its own
  positions.
- LookupOverride: in the source, a resource-content entry whose name matches,
  or an example or action passed to `getNameFromExample`, whose `content` is
  not an array throws at `exa.content.forEach` (lib/index.js:117, 153). The
  model (`ExampleAnalysis.EntryContents`) reads such content as no children, so
  it yields no name.
- JavaScript object lookups `map[type]` (lib/index.js:46),
  `requestParamMap[param.name]` (lib/index.js:227) and `skipModels[name]`
  (lib/index.js:251) also find members inherited from `Object.prototype`
  (`constructor`, `toString`, `valueOf`, ...). The model's map and set
  membership (`TypeNames.MapType`, `Normalizer.AnnotationFor`,
  `Models.CollectModels`) does not: a type, parameter or model with such a
  name is treated as absent.
- `Models.PushListedModels`: a `dataStructure` child with no `meta` object
  makes the source throw at `ds.meta.id` (lib/index.js:247). Every `Ast.Node`
  carries a `Meta` record, so the model cannot represent a missing `meta`; it
  reads the entry as nameless, reports it (`Models.NamelessReported`) and
  skips it.
- Models: a `member` entry without a `key`/`value` object makes the source
  throw at lib/index.js:292. The model gives it no field.
- `Resources.ParseResources` and `Modifiers.ApplyResourceModifiers` require
  that no action object appears twice in the document, as drafter builds it.
- Action parameter lists are assumed to be arrays, so the
  `if (action.parameters)` test at lib/index.js:390 always holds.
- `Resources.ParseResources`: copies every resource's name before normalizing
  the actions; the source does it at the head of each resource's iteration.
  Normalization neither reads nor writes `resourcename`, so the final state is
  the same.

## Findings

| source | as written | input that shows it | evidently intended | confidence | as-written member | corrected member |
|---|---|---|---|---|---|---|
| lib/index.js:390-395 | A matching rule rewrites `__delim` on the action's own parameter objects in place. An action without parameters shares its resource's parameter objects (lib/index.js:170-171), so the write also reaches every other action that inherited them, including actions the rule does not match. | A resource with parameter `id` and two actions `first` and `second` that inherit it, and a rule matching only `Demo.first` that prepends `auth: String`. After the rule, `second`'s `id` has separator `", "` although it is that action's first parameter. The templates are not part of this model; if they print the separator before each parameter, as its name suggests, `second`'s argument list starts with a stray comma. | Each action's separators follow positions in its own list, and actions the rule does not match are unchanged. | not executed; medium | Modifiers.SharedParameterAsWritten (with Modifiers.ApplyToActionAsWritten) | Modifiers.SharedParameterCorrected (with Modifiers.ApplyToAction and Modifiers.ApplyResourceModifiers) |
