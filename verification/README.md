# Tekton template resolver — parameter normalisation and text helpers

This project models the core of a Tekton remote resolver that expands
pipeline templates. A resolution request carries parameters. Two of them are
required: `repository` and `path`. The resolver:

- checks that the required parameters are present (`ValidateParams`);
- fetches the template text;
- turns every parameter into an entry of the template namespace. The key is
  the parameter's kebab-case name rewritten in PascalCase (`toCamelCase`).
  Array and string values that look like lists of Tekton tasks also get
  companion entries: `<X>Objects`, `<X>Names` and `<X>Name`;
- renders the template with Go's `text/template` and a set of helper
  functions (`indent`, `last`, `toYAML`, `fromYAML`);
- returns the rendered text with its provenance (`RefSource`).

`formatTasksYAML` (which re-indents a YAML task list for a Pipeline's
`tasks:` section) is modelled as a standalone helper. It is not registered
with the template engine, and `Resolve` never calls it.

Files:

- `wrappers.dfy`: `Option`, `Result` and `Outcome`.
- `strings.dfy`: the Go `strings`/`unicode` functions the code relies on,
  over sequences of runes, with their algebra (split/join round trips,
  trimming).
- `model.dfy`: the data. Parameters with their three kinds, the decoded
  YAML/JSON value trees, and namespace entries. The foreign collaborators
  are values passed in as parameters:
  - `Codec`: the YAML and JSON libraries;
  - `TemplateEngine`: template parse and execute;
  - `Fetcher`: the template fetch.
- `utils.dfy`: `toCamelCase`. The method keeps the source's loop that
  rewrites the split pieces in place. It is proved against the function
  `CamelCase`, and the derivation's properties are proved as lemmas.
- `template.dfy`: `formatTasksYAML`, `indent`, `last`, `toYAML`, `fromYAML`
  and `renderTemplate`. The loops are methods proved against
  specification functions, with lemmas about those functions.
- `resolver.dfy`: `ValidateParams` and `Resolve`. Both passes over the
  parameters are loops that update a namespace map. Each iteration is
  proved against `Process`, and the whole pass against `Build`.
- `resolver_props.dfy`: what the namespace construction guarantees:
  - first writer wins;
  - the keys one parameter may touch;
  - the required entries can never be shadowed;
  - companion-entry contents;
  - graceful fallback;
  - the outcome of resolution.

How the second pass treats parameter values, as the code does it:

- An array item is kept as a task when it decodes to a mapping with any
  `"name"` key, whatever the type of its value. Items that fail to decode
  are dropped. One remaining task is enough to treat the whole array as
  tasks (cmd/template-resolver/resolver.go:192-204).
- A task list is stored under `<X>` as re-marshalled YAML text, and the
  decoded records go under `<X>Objects` (resolver.go:150-182). The doc
  comment on `Resolve` (resolver.go:71-75) says the structured objects go
  under `<X>` and the original string under `<X>Raw`. The code does
  neither, and the model follows the code: no `<X>Raw` entry is written.
- A string containing `name:` that decodes to an empty list is stored as
  `""`, not as the original text (resolver.go:300-303).
- Only the parameter's own key is guarded by first-writer-wins
  (resolver.go:118-121). The companion keys are written unguarded, so a
  later parameter can overwrite an existing entry named `<X>Objects`,
  `<X>Names` or `<X>Name` (`ResolverProps.BuildKeepsEntries` states the
  exact exception). The keys `repository` and `path` are never a derived
  or companion key, so their entries are never shadowed or overwritten
  (`ResolverProps.RequiredKeysNeverDerived`,
  `ResolverProps.RequiredEntriesReachTemplate`).
- The empty name derives the empty key.

## Model

| member | source | states |
|---|---|---|
| Utils.ToUpper | cmd/template-resolver/utils.go:16 | A rune changes exactly when it is a lower-case ASCII letter, which becomes the capital at the same alphabet position; every other rune is kept |
| Utils.Capitalize | cmd/template-resolver/utils.go:14-18 | Only the first rune of a segment is upper-cased; the rest and the length are unchanged |
| Utils.CapitalizeAll | cmd/template-resolver/utils.go:12-19 | Every piece of the split is capitalized, in order, and the count is kept |
| Utils.ToCamelCase | cmd/template-resolver/utils.go:10-21 | The in-place loop yields the derived identifier; the result has no '-' and is as long as the name minus its hyphens |
| Utils.CapitalizeKeepsCapital | cmd/template-resolver/utils.go:14-18 | A segment that does not start with a lower-case letter is unchanged |
| Utils.CamelCaseOfSegment | cmd/template-resolver/utils.go:11-20 | A hyphen-free name derives itself with only its first rune upper-cased |
| Utils.CamelCaseOfHyphenated | cmd/template-resolver/utils.go:11-20 | A hyphen maps to concatenation: the two sides derive independently |
| Utils.EmptyNameVanishes | cmd/template-resolver/utils.go:14 | The empty name derives the empty identifier |
| Utils.LeadingHyphenVanishes | cmd/template-resolver/utils.go:14 | A leading hyphen contributes nothing |
| Utils.TrailingHyphenVanishes | cmd/template-resolver/utils.go:14 | A trailing hyphen contributes nothing |
| Utils.DoubledHyphenVanishes | cmd/template-resolver/utils.go:14 | A doubled hyphen derives what a single hyphen does |
| Utils.CamelCaseOfSegments | cmd/template-resolver/utils.go:11-20 | Hyphen-joined hyphen-free segments derive the concatenation of the capitalized segments, in order |
| Utils.CamelCaseHasNoHyphen | cmd/template-resolver/utils.go:11-20 | No derived identifier contains '-' |
| Utils.CamelCaseLength | cmd/template-resolver/utils.go:11-20 | The identifier's length is the name's length minus its hyphen count |
| Utils.CamelCaseHead | cmd/template-resolver/utils.go:14-18 | The identifier's first rune is its own upper case |
| Utils.CamelCaseNotLowerInitial | cmd/template-resolver/utils.go:14-18 | No identifier starts with a lower-case ASCII letter |
| Utils.CamelCaseIdempotent | cmd/template-resolver/utils.go:10-21 | Deriving from a derived identifier changes nothing |
| Utils.CamelCaseOfThreeSegments | cmd/template-resolver/utils.go:11-20 | A three-segment name derives the three capitalized segments concatenated |
| Utils.CamelCaseOfSingle | cmd/template-resolver/helpers_test.go:20-21 | "single" derives "Single" |
| Utils.CamelCaseOfPostDevSteps | cmd/template-resolver/helpers_test.go:16-17 | "post-dev-steps" derives "PostDevSteps" |
| Utils.CamelCaseOfWithNumbers | cmd/template-resolver/helpers_test.go:32-33 | "with-numbers-123" derives "WithNumbers123": digits are untouched |
| Utils.CamelCaseOfCapitalized | cmd/template-resolver/helpers_test.go:36-37 | "already-Capitalized-Words" derives "AlreadyCapitalizedWords": capitals stay |
| Template.AsListItem | cmd/template-resolver/template.go:56-59 | The item starts with "- "; text already starting with "- " is kept as is, otherwise the marker is followed by the text with a leading "---\n" removed |
| Template.FormatTasksYAML | cmd/template-resolver/template.go:15-86 | Empty input and a decoded empty list give "" without error; a decode error is returned; otherwise every task is formatted in order, and the output consists of complete lines, each indented by at least four spaces |
| Template.FormatEach | cmd/template-resolver/template.go:43-81 | The outer loop concatenates the formatted tasks in order; the first marshalling error ends it with that error |
| Template.FormatAllStep | cmd/template-resolver/template.go:46-79 | One outer iteration: a failing task gives its error, a formatted task is appended to the text built so far |
| Template.IndentTask | cmd/template-resolver/template.go:56-76 | The inner loop gives the first line four spaces, each later non-empty line six, drops empty lines and ends every line with a newline; the text starts with "    - " |
| Template.FormatTaskLines | cmd/template-resolver/template.go:62-76 | The lines of a formatted task are the first line indented by four, the non-empty later lines indented by six, and nothing after the final newline |
| Template.FormatTaskMarker | cmd/template-resolver/template.go:56-68 | A formatted task starts with "    - " |
| Template.IndentFollowingLines | cmd/template-resolver/template.go:71-75 | The later lines of a task split back into exactly the six-space-indented non-empty lines |
| Template.SixSpacedIndented | cmd/template-resolver/template.go:73 | Every later line carries at least four leading spaces |
| Template.WellIndentedAppend | cmd/template-resolver/template.go:79 | Appending complete indented lines to complete indented lines keeps that shape |
| Template.FormatAllWellIndented | cmd/template-resolver/template.go:43-85 | Whatever the outer loop emits consists of complete lines indented by at least four spaces |
| Template.PadLines | cmd/template-resolver/template.go:144-148 | Each non-empty line gains the padding in front; empty lines stay empty; the line count is kept |
| Template.Indent | cmd/template-resolver/template.go:140-151 | A negative count fails as strings.Repeat does; otherwise each non-empty line gains exactly n spaces, empty lines stay, and the line count is kept |
| Template.IndentKeepsLines | cmd/template-resolver/template.go:141-150 | Splitting the indented text gives back exactly the padded lines: no line is merged or split |
| Template.IndentZero | cmd/template-resolver/template.go:140-151 | Indenting by zero is the identity |
| Template.StrLeReflexive | cmd/template-resolver/template.go:165 | The string order used by the key sort is reflexive |
| Template.StrLeTotal | cmd/template-resolver/template.go:165 | The string order is total |
| Template.StrLeAntisymmetric | cmd/template-resolver/template.go:165 | The string order is antisymmetric |
| Template.StrLeTransitive | cmd/template-resolver/template.go:165 | The string order is transitive |
| Template.Last | cmd/template-resolver/template.go:152-169 | A nil map gives false; an empty map fails with the index-out-of-range error; otherwise true exactly when the key is in the map and no key is greater |
| Template.MinIndent | cmd/template-resolver/template.go:223-235 | -1 exactly when every line is white space only; otherwise the leading-space count of some non-blank line, and no non-blank line has fewer |
| Template.Dedent | cmd/template-resolver/template.go:238-244 | The line count is kept |
| Template.FindMinIndent | cmd/template-resolver/template.go:224-235 | The first loop of toYAML computes the minimum indentation over the non-blank lines |
| Template.DedentLines | cmd/template-resolver/template.go:238-244 | The second loop removes the minimum indentation from every line long enough |
| Template.ToYAML | cmd/template-resolver/template.go:198-252 | nil gives ""; a marshalling error gives "Error: " and the message; otherwise the markers are stripped, the indentation normalised, and the result has no white space at either end |
| Template.CutLeadingSpaces | cmd/template-resolver/template.go:231-241 | Cutting at most the leading spaces removes exactly those spaces and keeps whether the line is blank |
| Template.NormalizeIndentKeepsBlankness | cmd/template-resolver/template.go:238-244 | Removing the indentation never makes a line blank or non-blank |
| Template.NormalizeIndentStripsMinimum | cmd/template-resolver/template.go:238-244 | With a positive minimum m, every non-blank line loses exactly m leading spaces |
| Template.NormalizeIndentFlushLeft | cmd/template-resolver/template.go:223-244 | Afterwards some non-blank line starts with a non-space rune (minimum indentation 0), unless all lines are blank |
| Template.NormalizeIndentIdempotent | cmd/template-resolver/template.go:221-244 | Normalising the indentation a second time changes nothing |
| Template.FromYAML | cmd/template-resolver/template.go:120-139 | White space only gives nil; a decode error gives the single-key map {"error": "Error parsing YAML: …"} instead of failing; otherwise the decoded value |
| Template.SuspectLinesExact | cmd/template-resolver/template.go:278-284 | The reported line numbers are exactly the 1-based numbers of the lines that fail to decode on their own, in increasing order |
| Template.RenderTemplate | cmd/template-resolver/template.go:258-289 | Fails exactly when parsing or execution fails, with that error; on success returns the engine's output unchanged; the per-line diagnostics are produced only when the whole output does not decode |
| Resolver.Validate | cmd/template-resolver/resolver.go:52-69 | Passes exactly when both a "repository" and a "path" parameter are present; a missing repository is reported before a missing path |
| Resolver.ValidateParams | cmd/template-resolver/resolver.go:52-69 | The loop over the names gives the verdict of Validate |
| Resolver.LastValue | cmd/template-resolver/resolver.go:86-97 | A value exists exactly when a parameter has the name |
| Resolver.Seed | cmd/template-resolver/resolver.go:86-97 | After the first pass the namespace has a "repository" (resp. "path") entry exactly when such a parameter exists, holding the last one's string value |
| Resolver.JsonArrayText | cmd/template-resolver/resolver.go:132-139 | The JSON text is "[", the items joined by ",", then "]" |
| Resolver.NamedRecords | cmd/template-resolver/resolver.go:192-204 | The fallback keeps at most one record per item, each with a "name" key |
| Resolver.TaskNames | cmd/template-resolver/resolver.go:164-169 | At most one name per record |
| Resolver.ExtractRequired | cmd/template-resolver/resolver.go:80-97 | The first loop leaves the last repository and path values and their namespace entries |
| Resolver.JoinJsonArray | cmd/template-resolver/resolver.go:132-139 | The concatenation loop builds exactly the JSON array text |
| Resolver.CollectNamedRecords | cmd/template-resolver/resolver.go:192-204 | The fallback loop keeps the items that decode and carry a "name" key, in order |
| Resolver.CollectTaskNames | cmd/template-resolver/resolver.go:164-169 | The extraction loop keeps the string "name" fields, in order |
| Resolver.StoreTaskEntries | cmd/template-resolver/resolver.go:150-182 | Writes the task text, the records under <X>Objects and, when names exist, <X>Names and <X>Name |
| Resolver.ProcessArrayParam | cmd/template-resolver/resolver.go:125-247 | The array case: the JSON reading for steps/tasks names, else the per-item reading, else the raw items |
| Resolver.ProcessStringParam | cmd/template-resolver/resolver.go:253-310 | The string case: verbatim unless it mentions "name:" and decodes as a task list |
| Resolver.ProcessValueParam | cmd/template-resolver/resolver.go:124-311 | The dispatch on the parameter's kind |
| Resolver.ProcessParam | cmd/template-resolver/resolver.go:106-312 | One iteration of the second loop, with its two skips |
| Resolver.Resolve | cmd/template-resolver/resolver.go:76-340 | Computes Resolution: the fetch error or the render error wrapped with its context, or the rendered text with repository, path and the placeholder digest as provenance |
| ResolverProps.ValidateIgnoresOrder | cmd/template-resolver/resolver.go:52-69 | Two requests with the same set of parameter names validate alike: order, repetition and values do not matter |
| ResolverProps.ValidateIgnoresExtras | cmd/template-resolver/resolver.go:52-69 | Extra parameters anywhere never make a valid request invalid |
| ResolverProps.StoreTasksFrame | cmd/template-resolver/resolver.go:150-182 | A task update adds the key and <X>Objects, plus <X>Names and <X>Name exactly when some name was found, and changes nothing else |
| ResolverProps.ProcessFrame | cmd/template-resolver/resolver.go:106-312 | A parameter adds at most its own key and its companion keys; a processed parameter's key is present afterwards; no other entry changes |
| ResolverProps.ArrayFrame | cmd/template-resolver/resolver.go:125-247 | The same frame for the array case |
| ResolverProps.StringFrame | cmd/template-resolver/resolver.go:253-310 | The same frame for the string case |
| ResolverProps.BuildKeepsKeys | cmd/template-resolver/resolver.go:106-312 | The second pass never removes a key |
| ResolverProps.BuildKeysBound | cmd/template-resolver/resolver.go:106-312 | Every key after the second pass existed before or derives from some parameter's name |
| ResolverProps.BuildKeepsEntries | cmd/template-resolver/resolver.go:106-312 | An existing entry survives unchanged unless its key is a companion key of some parameter |
| ResolverProps.LaterDuplicateSkipped | cmd/template-resolver/resolver.go:110-121 | First writer wins: a later parameter with the same derived key as an earlier one changes nothing |
| ResolverProps.BuildPrefixKeepsKeys | cmd/template-resolver/resolver.go:106-312 | A longer prefix of the parameters leaves at least the keys of a shorter one |
| ResolverProps.BuildStep | cmd/template-resolver/resolver.go:106-107 | One more parameter is one more iteration of the second pass |
| ResolverProps.SkippedUnchanged | cmd/template-resolver/resolver.go:118-121 | A parameter whose key already exists writes neither its key nor any companion key |
| ResolverProps.BuildSplits | cmd/template-resolver/resolver.go:106-312 | The second pass over a concatenation is the pass over each part in turn |
| ResolverProps.RequiredKeysNeverDerived | cmd/template-resolver/resolver.go:110-121 | "repository" and "path" are never a derived key or a companion key |
| ResolverProps.LastValueIsLastOccurrence | cmd/template-resolver/resolver.go:86-97 | When a name is present, the value kept is that of an occurrence that no later parameter with that name follows |
| ResolverProps.RequiredEntriesReachTemplate | cmd/template-resolver/resolver.go:86-121 | The namespace holds "repository" (resp. "path") exactly when the request has it, with the last occurrence's value, whatever the other parameters are called |
| ResolverProps.JsonArrayTextItems | cmd/template-resolver/resolver.go:132-139 | The comma-free items can be read back from between the brackets |
| ResolverProps.JsonReadingOnlyForStructuredNames | cmd/template-resolver/resolver.go:129 | For a name without "steps" or "tasks", the JSON decoder is never consulted |
| ResolverProps.NamedRecordsExact | cmd/template-resolver/resolver.go:192-204 | A record is kept exactly when some item decodes to it and it has a "name" key |
| ResolverProps.NamedRecordsOfOne | cmd/template-resolver/resolver.go:192-204 | A single item yields its decoded record exactly when it decodes to a mapping with a "name" key, and nothing otherwise |
| ResolverProps.NamedRecordsAppend | cmd/template-resolver/resolver.go:192-204 | The records kept from concatenated items are those of each part in turn, so the fallback keeps item order and repetitions |
| ResolverProps.NamedRecordsNone | cmd/template-resolver/resolver.go:192-204 | When no item decodes to a named mapping, nothing is kept |
| ResolverProps.RawArrayFallback | cmd/template-resolver/resolver.go:244-247 | An array with no named task (and no JSON reading) is stored as the raw items, with no companion entries |
| ResolverProps.TaskNamesAllNamed | cmd/template-resolver/resolver.go:164-169 | When every record has a string name, the names are exactly those, one per record, in order |
| ResolverProps.TaskNamesAppend | cmd/template-resolver/resolver.go:164-169 | The names of concatenated record lists are the names of each list in turn: every string name is kept, in source order, whatever the other records hold |
| ResolverProps.TaskNamesSound | cmd/template-resolver/resolver.go:164-169 | Every name comes from some record's string "name"; records without one contribute nothing |
| ResolverProps.StoreTasksLastName | cmd/template-resolver/resolver.go:171-182 | <X>Names lists the names found, and <X>Name is its last element |
| ResolverProps.StringParamCases | cmd/template-resolver/resolver.go:253-310 | Verbatim without "name:" or on a decode error; "" for an empty list; otherwise the marshalled text (or the original on a marshalling error) and the records |
| ResolverProps.ShortStringVerbatim | cmd/template-resolver/resolver.go:255 | A string without ':' is stored verbatim without being decoded |
| ResolverProps.NoColonNoNameMarker | cmd/template-resolver/resolver.go:255 | A string without ':' never contains "name:" |
| ResolverProps.ResolutionOutcome | cmd/template-resolver/resolver.go:99-339 | A fetch failure ends resolution with "failed to fetch template: " and the error; a render failure with "failed to render template: " and the error; success carries the engine's output, URI = repository, EntryPoint = path, Digest {"sha1": "unknown"} and no annotations |
| ResolverProps.ResolutionProvenance | cmd/template-resolver/resolver.go:330-339 | For a valid request, the provenance names the last repository and path given, and these are what was fetched |

## Left out

- Fetching is a parameter (`Fetcher`). The HTTP and `git clone` fetcher, the server, the configuration and the process bootstrap are I/O and are not part of this model. cmd/template-resolver/main.go is an older monolithic copy with different behaviour and is not part of this model.
- The YAML and JSON libraries are parameters (`Codec`), and so is `text/template` parsing and execution (`TemplateEngine`). A decode or encode gives the value or the library's error message.
- `Template.ToYAML`, `Template.FromYAML`: not modelled are the exact decoded value shapes (numbers are integers; there are no floats, and no distinction between Go's map types).
- `toJson`, `typeIs` and `toString` are left out. They depend on runtime type reflection and library marshalling.
- `trimLeading` is used by the tests, but the code never registers it, so it has no behaviour to model.
- The `<X>Raw` key promised in Resolve's doc comment is never written by the code, and the model does not write it.
- Logging (`debugf`, `log.Printf`) is left out. So is Resolve's final YAML check, which only logs.
- `Resolver.ProcessStringParam`: the inner `paramVal != ""` branch is left out. It cannot be taken, because the value contains "name:".
- Parameter kinds other than string, array and object are not modelled. Tekton defines only these three.
- `Utils.ToUpper`: upper-cases the ASCII letters only. `unicode.ToUpper` maps other scripts too, so the derived-key lemmas are stated for this ASCII mapping.
- Strings are sequences of runes. `toYAML` measures and cuts lines in bytes. The two agree on every line that is not white space only, because such a line has at least the minimum number of leading ASCII spaces. On a blank line made of multi-byte white space, Go may cut inside a rune; the model cuts whole runes.
- `Template.Last`: `sort.Strings` followed by `keys[len(keys)-1]` is modelled as a search for the greatest key, proved against the string order. An empty map panics in Go. `text/template` recovers that panic as an execution error, so the model returns a failure.
- `Template.Indent`: a negative count panics in `strings.Repeat`. That panic likewise becomes an execution error, so the model returns a failure.
- `Resolver.Resolve`: the context argument and the resolver's name, selector and `Initialize` are not modelled.
