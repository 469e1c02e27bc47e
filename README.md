# microerror in Dafny

A model of the error-composition library `github.com/giantswarm/microerror`.
Its properties are proved with Dafny. The library holds two generations of the
same idea, and their type definitions clash, so each has a module of its own.

**The current generation** covers `types.go`, `string_case.go`, `stack_trace.go`,
`pretty.go` and `json.go`.

- `Types` turns a Go error into the closed datatype `Err`. Its cases are a
  foreign error, a kind error (`Error`), an annotated error and a stacked error.
- `Types` also models `Error()`, `Unwrap()`, the walk `errors.As` makes down
  the unwrap chain, and the two `MarshalJSON` methods.
- `StringCase` models `toStringCase`: camelCase becomes space-separated lower
  case.
- `StackTrace` models the rebuilt call-site stack and its formatting.
- `Pretty` models the human-readable rendering.
- `Json` models the rewrap of foreign errors as kind `"unknown"` before
  marshalling.
- JSON output is a `JsonValue` tree (`JsonValues`), not bytes.
- Loops and in-place updates in the Go code are methods proved against
  specification functions. The loops are `ToStringCase`, `CreateStackTrace`,
  `FormatStackTrace` and `StackedMarshalJSON`. `Pretty` writes into a
  `strings.Builder` and `PrettifyErrorMessage` writes index 0 of a rune slice;
  neither has a loop.

**The legacy generation** covers `annotated_error.go`, `masked_error.go`,
`deprecated_set_stack.go`, `error_handler.go` and `meta_error.go`.

- Module `Legacy` models the heap objects the source updates in place:
  `*Error` (its stack), `*annotatedError` (its annotation) and `*maskedError`
  (its stack). Each is a class.
- Methods state exactly which of these objects they modify and what each one
  holds afterwards.
- A Go `error` interface value is the datatype `GoError`. `*metaError`, which
  nothing updates, is one of its cases.
- Call sites that `runtime.Caller` would report are passed in as `file` and
  `line`. Formatted annotations are passed in as plain strings.
- Constants defined outside the modelled files are uninterpreted constants:
  `kindNil`, `defaultError`, the state `newDefaultError` starts from, and the
  legacy `*Error` rendering.

## Model

| member | source | states |
|---|---|---|
| JsonValues.GetFinds | types.go:12-14 | a JSON member lookup finds nothing exactly when no member has that name, and what it finds is a member of the object |
| JsonValues.OmitEmpty | types.go:12-13 | an `omitempty` string member is present exactly when its value is not empty |
| StringCase.ToStringCase | string_case.go:8-20 | the rune loop computes exactly `StringCaseOf(input)` |
| StringCase.StringCaseJoinsWords | string_case.go:11-19 | the output is the input's words lower-cased and joined by single spaces |
| StringCase.WordsPartition | string_case.go:11-19 | the words concatenate back to the input, so removing the inserted spaces gives the lower-cased input |
| StringCase.WordsAreCaseDelimited | string_case.go:13 | every word but the first starts with an upper-case rune, and no word has one anywhere else, so one space is inserted before each upper-case rune after position 0 and nowhere else |
| StringCase.NoUpperInOutput | string_case.go:16 | the output contains no upper-case letter |
| StringCase.OutputLength | string_case.go:11-19 | output length is input length plus the number of upper-case runes after the first |
| StringCase.FirstRuneNoSpace | string_case.go:13 | a leading capital adds no space: the first rune's case does not matter |
| StringCase.AppendWord | string_case.go:11-19 | after a non-empty input, a capitalised word with no other capital adds exactly one space and the word in lower case |
| StringCase.TwoWords | string_case.go:11-19 | a word with no capital after its first rune, followed by a capitalised word, renders as both words lower-cased with one space between |
| StringCase.ExampleEmpty | string_case.go:11-19 | the empty kind renders as "" |
| StringCase.ExampleLowerStart | string_case_test.go:13-17 | "fooBar" renders as "foo bar" |
| StringCase.ExampleUpperStart | string_case_test.go:23-27 | "FooBar" renders as "foo bar" |
| StringCase.ExampleKind | string_case_test.go:33-37 | "authenticationError" renders as "authentication error" |
| Types.Unwrap | types.go:74-76 | annotated errors unwrap to their kind error, stacked ones to their underlying error, others to nothing, and each step gets closer to the root |
| Types.AsKind | types.go:115 | `errors.As` for a kind error finds one exactly when a kind error is on the unwrap chain, and what it finds is on the chain |
| Types.AsAnnotated | types.go:117 | `errors.As` for an annotated error finds one exactly when an annotated error is on the unwrap chain, and what it finds is on the chain |
| Types.AsStacked | types.go:106 | `errors.As` for a stacked error finds one exactly when a stacked error is on the unwrap chain, and what it finds is a stacked error on the chain |
| Types.AsStackedIsHead | types.go:106 | `errors.As` for a stacked error finds the receiver itself when it is stacked, and nothing otherwise |
| Types.AsThroughStacked | types.go:90-92 | finding the kind and annotated layers passes through stacked layers unchanged |
| Types.AsKindFindsRoot | types.go:112-119 | a kind error is reachable exactly when the root is not foreign, and it is the root's kind error; an annotated layer is found exactly when the root is annotated |
| Types.Message | types.go:24-92 | the message depends only on the root under the stacked layers: a foreign root gives its own text; a kind root gives `toStringCase` of its kind; an annotated root's message starts with its kind message, and is exactly that when the annotation is empty |
| Types.KindMessageIgnoresDescDocs | types.go:24-26 | a kind error's message is `toStringCase(Kind)` and does not depend on Desc or Docs |
| Types.AnnotatedMessageJoin | types.go:52-57 | an annotated message is the kind message alone exactly when the annotation is empty, otherwise the kind message, ": " and the annotation |
| Types.MaskedMessage | types.go:90-92 | any number of stacked layers leave the message unchanged |
| Types.MaskedStack | types.go:100-110 | masking with n entries puts exactly those entries on the stack, in masking order, after those already there, and keeps the root |
| Types.UnwrapReachesKind | types.go:144-146 | unwrapping through n stacked layers reaches the annotated error, and one step more reaches its kind error |
| Types.StackShape | types.go:100-110 | the stack length is `Layers(e)`, one entry per stacked layer, the receiver's own entry is last, and the first entry is `Innermost(e)`'s |
| Types.Innermost | stack_trace.go:13-19 | the innermost stacked layer of `e` is on its unwrap chain, sits directly on its root (the first non-stacked error the walk meets), and contributes only its own entry |
| Types.StackJson | types.go:32-38 | the `stack` array holds one `{file, line}` object per entry, in order |
| Types.ToJson | types.go:28-33 | a `JSONError` object has only the members desc, docs, kind, annotation and stack |
| Types.ToJsonKind | types.go:14 | `kind` is always present |
| Types.ToJsonDescDocs | types.go:12-13 | `desc` and `docs` are present exactly when not empty |
| Types.ToJsonAnnotationStack | types.go:31-32 | `annotation` and `stack` are present exactly when not empty |
| Types.ToJsonUniqueNames | types.go:28-33 | no member name repeats |
| Types.JSONView | types.go:59-133 | the record each `MarshalJSON` builds holds the full stack; with a kind error on the chain, its fields and the annotated layer's annotation or ""; without one, kind "unknown" and the whole message as annotation |
| Types.AnnotatedMarshalJSON | types.go:59-72 | annotated JSON always carries the kind, carries desc, docs and the annotation only when not empty, and never carries a stack |
| Types.RebuildStack | types.go:100-110 | the prepend loop returns exactly `Stack(e)`, whose last entry is the receiver's own |
| Types.StackedMarshalJSON | types.go:99-142 | the rebuilt stack and the kind/annotation selection give exactly the specified `JSONError`, whose last stack entry is the receiver's own |
| StackTrace.CreateStackTrace | stack_trace.go:9-22 | the loop returns exactly the stack of nested stacked layers, innermost first |
| StackTrace.NatDigitsValue | stack_trace.go:24-26 | the decimal digits of a line number read back as that number |
| StackTrace.DecimalRoundTrip | stack_trace.go:24-26 | `%d` of any int, sign included, reads back as that int |
| StackTrace.FormatStackEntry | stack_trace.go:24-26 | an entry renders as the file, ":" and the decimal line, which reads back as the line |
| StackTrace.FormatStackTrace | stack_trace.go:28-37 | the builder loop computes exactly the in-order concatenation of formatted entries |
| StackTrace.FormatTraceAppend | stack_trace.go:32-34 | formatting a concatenated trace is the concatenation of the formatted parts |
| StackTrace.MaskedTrace | stack_trace.go:9-22 | the formatted trace of a masked error is the formatted list of its masking call sites |
| StackTrace.ElevenMasks | stack_trace_test.go:40-43 | Mask followed by ten more Masks gives eleven entries |
| Pretty.Capitalise | pretty.go:62-64 | the first rune is upper-cased and the rest is unchanged |
| Pretty.PrettifyErrorMessage | pretty.go:47-68 | the step-by-step rewrite computes exactly `Prettified(input)` |
| Pretty.PrettifyPanics | pretty.go:53-64 | as written, "error: ", " error" and "Error:  error" index an empty rune slice |
| Pretty.PrettifiedCorrectsPanic | pretty.go:47-68 | the corrected rendering agrees with the source wherever the source returns, and is "" exactly for "" and for messages that stripping empties |
| Pretty.PrettifyOnlyCapitalises | pretty.go:62-64 | a message without the prefix and suffix only has its first rune upper-cased |
| Pretty.PrefixRemovedOnce | pretty.go:53-55 | a case-insensitive leading "error: " is removed once, and a second one behind it stays |
| Pretty.SuffixRemoved | pretty.go:58 | one trailing " error" is removed |
| Pretty.PrefixExample | pretty.go:53-55 | "error: error: disk full" renders as "Error: disk full" |
| Pretty.Pretty | pretty.go:14-45 | the builder computes exactly `PrettyOf(err, stackTrace)` |
| Pretty.WriteAnnotated | pretty.go:19-24 | the annotated branch writes the prettified kind message and ": " only for a kind other than `kindNil` and "unknown", then the prettified annotation |
| Pretty.WriteAppendix | pretty.go:35-42 | a blank line and the formatted trace are written exactly when the flag is set and the outermost error is stacked |
| Pretty.FlagAppendsAppendix | pretty.go:29-42 | setting the flag only appends the trace part, except that an unannotated error whose message prettifies to "" still renders as "" |
| Pretty.MaskedParts | pretty.go:18-40 | masking a non-stacked error keeps the annotated layer, the message and the rendering without the flag, and the trace part becomes a blank line and the masking call sites |
| Pretty.PrettyIgnoresMasks | pretty.go:18-28 | stacked layers never change the message part |
| Pretty.PrettyWithTrace | pretty.go:35-42 | with the flag set, a masked error renders its message part, a blank line and its formatted call sites; only an unannotated error whose message prettifies to "" renders as "" |
| Pretty.PrettyAnnotated | pretty.go:19-24 | an annotated kind other than `kindNil` and "unknown" renders as prettify(kind message) + ": " + prettify(annotation) |
| Pretty.PrettyKindSuppressed | pretty.go:20-24 | with kind `kindNil` or "unknown" only prettify(annotation) is rendered |
| Pretty.PrettyUnannotated | pretty.go:25-33 | without an annotated layer the result is prettify(err.Error()), which is "" when that is empty |
| Pretty.PrettyMaskedForeign | pretty.go:25-33 | a foreign error under any number of stacked layers renders as its prettified message |
| Pretty.PrettifyDiskFull | pretty.go:60-65 | "disk full", which carries neither the prefix nor the suffix, becomes "Disk full" |
| Pretty.PrettyForeignExample | pretty.go:25-33 | a masked `errors.New("disk full")` renders as "Disk full" |
| Json.Classify | json.go:20-27 | the error marshalled is never a bare foreign error |
| Json.ClassifyRewrapsForeignOnly | json.go:20-27 | only an error reaching neither a kind error nor a stacked layer is rewrapped, as an annotated error with kind "unknown" and its message as annotation; every other error is marshalled as it is |
| Json.ClassifiedView | json.go:20-29 | the record marshalled carries the reachable kind fields, or kind "unknown"; the annotated layer's annotation beside a kind error, or the whole message without one; and the full stack |
| Json.JsonKind | json.go:20-29 | `kind` is always present: the reachable kind, or "unknown" |
| Json.JsonDescDocs | json.go:20-29 | `desc` and `docs` come from the reachable kind error and are omitted when empty or when there is none |
| Json.JsonAnnotation | json.go:20-29 | `annotation` is the annotated layer's annotation beside a kind error and the full message without one, omitted when empty |
| Json.JsonStack | json.go:29 | `stack` is present exactly when the outermost error is stacked, and then lists every layer innermost first |
| Json.JsonUniqueNames | json.go:29 | no member name repeats |
| Json.JsonBareKind | json.go:29 | a bare kind error renders only kind, desc and docs |
| Json.JSON | json.go:15-35 | the output is an object with no repeated member name, whose names are among desc, docs, kind, annotation and stack |
| Json.JsonForeign | json.go:20-27 | an unmasked foreign error renders as exactly kind "unknown" and its message as annotation |
| Json.JsonMaskedForeign | json.go:20-29 | a masked foreign error renders kind "unknown", its message as annotation and one stack entry |
| Legacy.Error.NewDefault | error_handler.go:55-56 | a fresh default error holds the given cause and the default fields and stack |
| Legacy.AnnotatedError.constructor | annotated_error.go:18-22 | a fresh wrapper holds the error and the annotation |
| Legacy.MaskedError.constructor | masked_error.go:21-23 | a fresh masked error holds the cause and an empty stack |
| Legacy.WithAnnotation | annotated_error.go:11-23 | an annotated error gets its annotation overwritten in place and is returned itself; anything else gets a fresh wrapper; an empty annotation on a fresh wrapper keeps the message |
| Legacy.AnnotatedMessage | annotated_error.go:25-33 | the message is the inner message, with ": " and the annotation appended exactly when the annotation is not empty |
| Legacy.Message | annotated_error.go:25-33 | an annotated error's message starts with the message of the error it wraps |
| Legacy.AnnotatedMarshalJSON | annotated_error.go:35-49 | the JSON holds one `message` member, in which a non-empty annotation appears twice |
| Legacy.NewMaskedError | masked_error.go:15-26 | a masked error is returned itself and untouched; anything else is wrapped, through `withAnnotation(err, "")`, in a fresh masked error with an empty stack, keeping a plain error's message |
| Legacy.MaskedMessageIsCauses | masked_error.go:28-30 | a masked error's message is its cause's, so holders of the cause see its current annotation |
| Legacy.MaskedKindFields | masked_error.go:35-38 | the kind fields come from the `*Error` inside the cause, else from `defaultError` |
| Legacy.MaskedFrameJson | masked_error.go:10-13 | a stack entry omits `file` when empty and `line` when 0 |
| Legacy.MaskedStackJson | masked_error.go:7 | the stack array holds one object per entry, in order |
| Legacy.MaskedMembersFields | masked_error.go:42-50 | the inlined members give `cause`; give `stack`, as one object per entry in order, exactly when the stack is not empty; always give `kind`; and give `desc` and `docs` exactly when not empty |
| Legacy.MaskedMembersUnique | masked_error.go:42-50 | the inlined members repeat no name |
| Legacy.MaskedJsonFields | masked_error.go:34-56 | the masked JSON carries the cause's rendering, the stack array exactly when the stack is not empty, and the selected kind, desc and docs |
| Legacy.MaskedMarshalJSON | masked_error.go:34-56 | the masked JSON is an object with no repeated member name, whose names are among cause, stack, desc, docs and kind |
| Legacy.DeprecatedSetStack | deprecated_set_stack.go:15-25 | without a masked source the destination is returned as it is; otherwise the result is masked and holds the source's stack; a masked destination is reused in place, an annotated one has its annotation cleared, and any other is wrapped in a fresh annotated error with an empty annotation, keeping its message |
| Legacy.ErrorHandler.constructor | error_handler.go:21-25 | the call depth stored is the configured one plus one |
| Legacy.ErrorHandler.Cause | error_handler.go:35-46 | a non-`*Error` is returned unchanged, an `*Error` with a cause returns the cause, and one without returns itself |
| Legacy.ErrorHandler.Mask | error_handler.go:48-69 | nil stays nil; an `*Error` gets exactly one entry with an empty message appended in place and is returned itself; anything else becomes a fresh default error caused by it, so `Cause(Mask(err)) == err` |
| Legacy.ErrorHandler.Maskf | error_handler.go:71-92 | as Mask, with the formatted annotation as the entry's message |
| Legacy.NewMetaError | meta_error.go:41-58 | nil error, empty message and nil map are refused in that order as invalid config; otherwise the result holds the cause and the map |
| Legacy.FromMetaError | meta_error.go:64-78 | a cause that is not a meta error is the wrong type; a present key gives its value; a missing key gives metadata-not-found |
| Legacy.MetaErrorCause | meta_error.go:80-87 | a meta error gives its cause; any other error is returned unchanged |
| Legacy.MetaRoundTrip | meta_error.go:41-87 | a meta error made by `NewMetaError` keeps its cause's message, gives the cause back, and answers `FromMetaError` from its map |

## Left out

- Byte-level `encoding/json` output is not modelled: escaping, number formatting and `json.Indent`. JSON is a value tree whose members are listed in declaration order.
- The marshal-failure panics are left out (types.go:66-69, 136-139; json.go:29-32). No modelled value can fail to marshal.
- JSON(nil) is not modelled. `Err` has no nil case. json.go:22 calls `err.Error()` on its argument, which a nil error cannot serve, yet the case-8 golden test of json_test.go passes nil.
- `runtime.Caller` and call-depth correctness are not modelled; call sites are parameters.
- `fmt.Sprintf` formatting of annotations is not modelled; the formatted text is an input string.
- Unicode case tables are not modelled: `unicode.IsUpper`, `ToUpper` and `ToLower` act on ASCII letters only.
- Golden-file input and output of the tests are left out.
- Go's pointer-versus-value `errors.As` target mismatches are left out (types.go:106 against pretty.go:37; json.go:20 against types.go:42). The model walks the unwrap chain as intended.
- Foreign errors that wrap others, such as `fmt.Errorf` with `%w`, are leaves of the chain.
- Legacy.Message: the legacy `*Error` type and its `Error` method are not part of this model. Its rendering is an uninterpreted function of its fields, its stack and its cause's message (error_handler_test.go:235-245 expects a masked foreign error to render as the foreign message). How it combines them is not modelled.
- Legacy.MaskedMarshalJSON: the legacy `*Error` struct's own json tags are not part of this model. Desc, docs and kind are assumed to follow types.go:12-14, and clashes between the inlined structs' field names are not modelled.
- Legacy.DeprecatedSetStack: after the transplant (deprecated_set_stack.go:22) both masked errors' `Stack` slices share one backing array. Stacks here are values, so that sharing is not modelled. In Go it would be visible only through an index write into either slice, or through appends to both past the shared length; an append to one never changes the other's length. No modelled operation does either to a `*maskedError`'s stack: the only appends (error_handler.go:66 and :89) go to an `*Error`'s stack.
- Legacy.Message: in Go, `Error()` on a wrapper of a nil error panics (annotated_error.go:26), which `newMaskedError(nil)` or `DeprecatedSetStack(nil, masked)` can build and `err.Error()` at meta_error.go:45 can then reach. The model requires `Renderable` of every error it renders instead of modelling that panic.
- Legacy.NewMetaError: the failures are returned as values naming the sentinel error. The source returns `Maskf(invalidConfigError, ...)`, which also appends a frame to that shared sentinel's stack in place; that append is not modelled.
- Legacy.FromMetaError: `errgo.Cause` comes from a package outside this model, so it is a function parameter. The failures are returned as values naming the sentinel error. The source returns `Maskf(wrongTypeError, ...)` and `Maskf(metadataNotFoundError, ...)` (meta_error.go:69 and :74), which also append a frame to those shared sentinels' stacks in place; that append is not modelled.
- errgo_handler.go, error.go and microerror.go are not part of this model. They only delegate to `github.com/juju/errgo` or to a global handler.
- `ErrorHandler.New` and `Newf` are not modelled; they only delegate to `errors.New` and `fmt.Errorf`.
- spec.go and marshalable_error.go are not part of this model. One holds an interface declaration, the other a one-field accessor.

## Findings

| source | as written | input that shows it | evidently intended | confidence | as-written member | corrected member |
|---|---|---|---|---|---|---|
| pretty.go:47-68 | the emptiness guard runs only before the prefix and suffix are stripped, and the capitalisation then writes index 0 of the rune slice | "error: " or " error": stripping leaves "", so `tmpMessage[0]` is out of range and `Pretty` panics | a message that stripping empties renders as "" | not executed | Pretty.PrettifyPanics | Pretty.PrettifiedCorrectsPanic |
