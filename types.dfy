/**
 * The current error types (types.go): a kind error `Error`, an annotation
 * wrapper `annotatedError` and a call-site wrapper `stackedError`, as one
 * closed datatype. Their `Error`, `Unwrap` and `MarshalJSON` methods, the
 * `errors.As` walk they rely on, and the `JSONError` record they marshal.
 */
module Types {
  import opened Wrappers
  import opened JsonValues
  import StringCase

  const KindUnknown: string := "unknown"

  /** The kind error: `Kind` classifies, `Desc` and `Docs` inform. */
  datatype Error = Error(desc: string, docs: string, kind: string)

  datatype StackEntry = StackEntry(file: string, line: int)

  /** The flattened view that MarshalJSON builds before marshalling. */
  datatype JSONError = JSONError(error: Error, annotation: string, stack: seq<StackEntry>)

  /**
   * An error value. `Foreign` is any error not built from these types
   * (`errors.New`, `fmt.Errorf`), seen only through its message.
   */
  datatype Err =
    | Foreign(msg: string)
    | Kind(error: Error)
    | Annotated(annotation: string, error: Error)
    | Stacked(entry: StackEntry, underlying: Err)

  /**
   * The `Error()` method of each type. Stacked layers add nothing: the
   * message is the root's, which for a kind error starts with its kind in
   * string case.
   */
  function Message(e: Err): (r: string)
    ensures Root(e).Foreign? ==> r == Root(e).msg
    ensures !Root(e).Foreign? ==> StringCase.StringCaseOf(Root(e).error.kind) <= r
    ensures Root(e).Kind? || (Root(e).Annotated? && Root(e).annotation == "") ==>
      r == StringCase.StringCaseOf(Root(e).error.kind)
  {
    match e
    case Foreign(msg) => msg
    case Kind(k) => StringCase.StringCaseOf(k.kind)
    case Annotated(a, k) =>
      var m := StringCase.StringCaseOf(k.kind);
      if a == "" then m else m + ": " + a
    case Stacked(_, u) => Message(u)
  }

  /** Number of unwrap steps that can still be taken from `e`. */
  function Rank(e: Err): nat
  {
    match e
    case Stacked(_, u) => Rank(u) + 1
    case Annotated(_, _) => 1
    case _ => 0
  }

  /** The `Unwrap()` method: annotated errors yield their kind error, stacked ones their underlying error. */
  function Unwrap(e: Err): (r: Option<Err>)
    ensures r.Some? ==> Rank(r.value) < Rank(e)
    ensures r.None? <==> Rank(e) == 0
  {
    match e
    case Annotated(_, k) => Some(Kind(k))
    case Stacked(_, u) => Some(u)
    case _ => None
  }

  /** The errors `errors.As` visits: `e`, then each result of `Unwrap` in turn. */
  function Chain(e: Err): (c: seq<Err>)
    ensures |c| == Rank(e) + 1 && c[0] == e
    decreases Rank(e)
  {
    match Unwrap(e)
    case None => [e]
    case Some(u) => [e] + Chain(u)
  }

  function FirstKind(c: seq<Err>): (r: Option<Error>)
    ensures r.Some? ==> Kind(r.value) in c
    ensures r.None? <==> forall x :: x in c ==> !x.Kind?
  {
    if c == [] then None else if c[0].Kind? then Some(c[0].error) else FirstKind(c[1..])
  }

  function FirstAnnotated(c: seq<Err>): (r: Option<(string, Error)>)
    ensures r.Some? ==> Annotated(r.value.0, r.value.1) in c
    ensures r.None? <==> forall x :: x in c ==> !x.Annotated?
  {
    if c == [] then None
    else if c[0].Annotated? then Some((c[0].annotation, c[0].error))
    else FirstAnnotated(c[1..])
  }

  function FirstStacked(c: seq<Err>): (r: Option<Err>)
    ensures r.Some? ==> r.value.Stacked? && r.value in c
    ensures r.None? <==> forall x :: x in c ==> !x.Stacked?
  {
    if c == [] then None else if c[0].Stacked? then Some(c[0]) else FirstStacked(c[1..])
  }

  /** `errors.As(e, &microErr)` with an `Error` target: found exactly when a kind error is on the chain. */
  function AsKind(e: Err): (r: Option<Error>)
    ensures r.Some? ==> Kind(r.value) in Chain(e)
    ensures r.None? <==> forall x :: x in Chain(e) ==> !x.Kind?
  {
    FirstKind(Chain(e))
  }

  /** `errors.As(e, &annotatedErr)`: found exactly when an annotated error is on the chain. */
  function AsAnnotated(e: Err): (r: Option<(string, Error)>)
    ensures r.Some? ==> Annotated(r.value.0, r.value.1) in Chain(e)
    ensures r.None? <==> forall x :: x in Chain(e) ==> !x.Annotated?
  {
    FirstAnnotated(Chain(e))
  }

  /** `errors.As(e, &stacked)`: found exactly when a stacked error is on the chain. */
  function AsStacked(e: Err): (r: Option<Err>)
    ensures r.Some? ==> r.value.Stacked? && r.value in Chain(e)
    ensures r.None? <==> forall x :: x in Chain(e) ==> !x.Stacked?
  {
    FirstStacked(Chain(e))
  }

  /** The innermost error under all stacked layers. */
  function Root(e: Err): (r: Err)
    ensures !r.Stacked?
  {
    if e.Stacked? then Root(e.underlying) else e
  }

  /** The stack MarshalJSON reconstructs: one entry per stacked layer, the innermost first. */
  function Stack(e: Err): seq<StackEntry>
  {
    if e.Stacked? then Stack(e.underlying) + [e.entry] else []
  }

  /** Wrapping `e` in one stacked layer per entry, in order: the last entry is the outermost layer. */
  function MaskAll(e: Err, entries: seq<StackEntry>): Err
  {
    if entries == [] then e
    else Stacked(entries[|entries| - 1], MaskAll(e, entries[..|entries| - 1]))
  }

  /** `n` successive calls of `Unwrap`. */
  function UnwrapN(e: Err, n: nat): Option<Err>
    decreases n
  {
    if n == 0 then Some(e)
    else match Unwrap(e)
      case None => None
      case Some(u) => UnwrapN(u, n - 1)
  }

  // ---------------------------------------------------------------------------
  // The errors.As walk through the closed set of types.

  /** Only a stacked error itself can be found as a stacked error: nothing else unwraps to one. */
  lemma AsStackedIsHead(e: Err)
    ensures AsStacked(e) == if e.Stacked? then Some(e) else None
  {
  }

  /** `errors.As` for an `Error` passes through stacked layers. */
  lemma {:induction false} AsThroughStacked(s: StackEntry, u: Err)
    ensures AsKind(Stacked(s, u)) == AsKind(u)
    ensures AsAnnotated(Stacked(s, u)) == AsAnnotated(u)
  {
    assert Chain(Stacked(s, u)) == [Stacked(s, u)] + Chain(u);
    assert (([Stacked(s, u)] + Chain(u))[1..]) == Chain(u);
  }

  /** A kind error is reachable exactly when the root is not a foreign error, and it is the root's kind error. */
  lemma {:induction false} AsKindFindsRoot(e: Err)
    ensures AsKind(e) == match Root(e)
      case Foreign(_) => None
      case Kind(k) => Some(k)
      case Annotated(_, k) => Some(k)
    ensures AsAnnotated(e) == match Root(e)
      case Annotated(a, k) => Some((a, k))
      case _ => None
  {
    match e
    case Stacked(s, u) =>
      AsThroughStacked(s, u);
      AsKindFindsRoot(u);
    case Annotated(a, k) =>
      assert Chain(e) == [e, Kind(k)] && [e, Kind(k)][1..] == [Kind(k)];
      assert FirstKind([e, Kind(k)]) == FirstKind([Kind(k)]) == Some(k);
      assert FirstAnnotated([e, Kind(k)]) == Some((a, k));
    case Kind(k) =>
      assert Chain(e) == [e];
      assert FirstAnnotated([e]) == FirstAnnotated([]) == None;
    case Foreign(_) =>
      assert Chain(e) == [e];
      assert FirstKind([e]) == FirstKind([]) == None;
      assert FirstAnnotated([e]) == FirstAnnotated([]) == None;
  }

  // ---------------------------------------------------------------------------
  // Properties of Error() and Unwrap() under masking.

  /** A kind error's message is `toStringCase(Kind)`: `Desc` and `Docs` play no part. */
  lemma KindMessageIgnoresDescDocs(k1: Error, k2: Error)
    requires k1.kind == k2.kind
    ensures Message(Kind(k1)) == Message(Kind(k2)) == StringCase.StringCaseOf(k1.kind)
  {
  }

  /** An annotated message is the kind error's message, followed by ": " and the annotation only when there is one. */
  lemma AnnotatedMessageJoin(a: string, k: Error)
    ensures Message(Kind(k)) <= Message(Annotated(a, k))
    ensures Message(Annotated(a, k)) == Message(Kind(k)) <==> a == ""
    ensures a != "" ==> Message(Annotated(a, k)) == Message(Kind(k)) + ": " + a
  {
  }

  /** Any number of stacked layers leave the message unchanged. */
  lemma {:induction false} MaskedMessage(e: Err, entries: seq<StackEntry>)
    ensures Message(MaskAll(e, entries)) == Message(e)
    decreases |entries|
  {
    if entries != [] {
      MaskedMessage(e, entries[..|entries| - 1]);
    }
  }

  /** Masking puts exactly one entry per layer on the stack, in masking order, the outermost last. */
  lemma {:induction false} MaskedStack(e: Err, entries: seq<StackEntry>)
    ensures Stack(MaskAll(e, entries)) == Stack(e) + entries
    ensures Root(MaskAll(e, entries)) == Root(e)
    decreases |entries|
  {
    if entries != [] {
      var n := |entries|;
      MaskedStack(e, entries[..n - 1]);
      assert entries[..n - 1] + [entries[n - 1]] == entries;
    }
  }

  /** Unwrapping through the stacked layers and the annotation reaches the original kind error. */
  lemma {:induction false} UnwrapReachesKind(a: string, k: Error, entries: seq<StackEntry>)
    ensures UnwrapN(MaskAll(Annotated(a, k), entries), |entries|) == Some(Annotated(a, k))
    ensures UnwrapN(MaskAll(Annotated(a, k), entries), |entries| + 1) == Some(Kind(k))
    ensures AsKind(MaskAll(Annotated(a, k), entries)) == Some(k)
    decreases |entries|
  {
    MaskedStack(Annotated(a, k), entries);
    AsKindFindsRoot(MaskAll(Annotated(a, k), entries));
    if entries != [] {
      UnwrapReachesKind(a, k, entries[..|entries| - 1]);
    }
  }

  /** The number of stacked layers above the root. */
  function Layers(e: Err): nat
  {
    if e.Stacked? then Layers(e.underlying) + 1 else 0
  }

  /** The stack holds one entry per stacked layer and the outermost layer's own entry last. */
  lemma {:induction false} StackShape(e: Err)
    ensures |Stack(e)| == Layers(e)
    ensures e.Stacked? ==> Stack(e)[|Stack(e)| - 1] == e.entry
    ensures e.Stacked? ==> Stack(e)[0] == Innermost(e).entry
  {
    if e.Stacked? {
      StackShape(e.underlying);
    }
  }

  /** The innermost stacked layer of `e`: the one on its chain that sits directly on the root. */
  function Innermost(e: Err): (r: Err)
    requires e.Stacked?
    ensures r.Stacked? && !r.underlying.Stacked?
    ensures r.underlying == Root(e) && r in Chain(e)
    ensures Stack(r) == [r.entry]
  {
    if e.underlying.Stacked? then Innermost(e.underlying) else e
  }

  // ---------------------------------------------------------------------------
  // JSON.

  /**
   * The `JSONError` each type marshals: a kind error its own fields, an
   * annotated error its kind error and annotation, a stacked error the
   * reconstructed stack with the kind error and annotation found on its
   * chain, or kind "unknown" annotated with the whole message when there is
   * no kind error to find.
   */
  function JSONView(e: Err): (r: JSONError)
    requires !e.Foreign?
    ensures r.stack == Stack(e)
    ensures AsKind(e).Some? ==> r.error == AsKind(e).value
    ensures AsKind(e).Some? ==> r.annotation == match AsAnnotated(e) case Some(p) => p.0 case None => ""
    ensures AsKind(e).None? ==> r.error == Error("", "", KindUnknown) && r.annotation == Message(e)
  {
    match e
    case Kind(k) => JSONError(k, "", [])
    case Annotated(a, k) => JSONError(k, a, [])
    case Stacked(_, _) =>
      match AsKind(e)
      case Some(k) =>
        JSONError(k, match AsAnnotated(e) case Some(p) => p.0 case None => "", Stack(e))
      case None => JSONError(Error("", "", KindUnknown), Message(e), Stack(e))
  }

  function StackEntryJson(s: StackEntry): JsonValue
  {
    JObject([Member("file", JString(s.file)), Member("line", JNumber(s.line))])
  }

  /** The `stack` array: one object per entry, in order. */
  function StackJson(stack: seq<StackEntry>): (r: seq<JsonValue>)
    ensures |r| == |stack| && forall i :: 0 <= i < |stack| ==> r[i] == StackEntryJson(stack[i])
  {
    seq(|stack|, i requires 0 <= i < |stack| => StackEntryJson(stack[i]))
  }

  /** The members after `desc` and `docs`: `kind`, then `annotation` and `stack` when not empty. */
  function TailMembers(j: JSONError): (r: seq<Member>)
    ensures forall m :: m in r ==> m.name in ["kind", "annotation", "stack"]
    ensures Get(r, "kind") == Some(JString(j.error.kind))
  {
    [Member("kind", JString(j.error.kind))]
      + (OmitEmpty("annotation", j.annotation)
      + (if j.stack == [] then [] else [Member("stack", JArray(StackJson(j.stack)))]))
  }

  /** The members of a `JSONError` in declaration order, each `omitempty` one only when not empty. */
  function ToJson(j: JSONError): (r: JsonValue)
    ensures r.JObject?
    ensures forall m :: m in r.members ==> m.name in ["desc", "docs", "kind", "annotation", "stack"]
  {
    JObject(OmitEmpty("desc", j.error.desc) + (OmitEmpty("docs", j.error.docs) + TailMembers(j)))
  }

  /** `kind` is always present. */
  lemma ToJsonKind(j: JSONError)
    ensures Get(ToJson(j).members, "kind") == Some(JString(j.error.kind))
  {
    var desc, docs, rest := OmitEmpty("desc", j.error.desc), OmitEmpty("docs", j.error.docs), TailMembers(j);
    GetSkip(docs, rest, "kind");
    GetSkip(desc, docs + rest, "kind");
  }

  /** `desc` and `docs` are present only when not empty. */
  lemma ToJsonDescDocs(j: JSONError)
    ensures Get(ToJson(j).members, "desc") == if j.error.desc == "" then None else Some(JString(j.error.desc))
    ensures Get(ToJson(j).members, "docs") == if j.error.docs == "" then None else Some(JString(j.error.docs))
  {
    var desc, docs, rest := OmitEmpty("desc", j.error.desc), OmitEmpty("docs", j.error.docs), TailMembers(j);
    GetFinds(rest, "desc");
    GetFinds(rest, "docs");
    GetSkip(docs, rest, "desc");
    GetAppend(desc, docs + rest, "desc");
    GetAppend(docs, rest, "docs");
    GetSkip(desc, docs + rest, "docs");
  }

  /** `annotation` and `stack` are present only when not empty. */
  lemma ToJsonAnnotationStack(j: JSONError)
    ensures Get(ToJson(j).members, "annotation") == if j.annotation == "" then None else Some(JString(j.annotation))
    ensures Get(ToJson(j).members, "stack") == if j.stack == [] then None else Some(JArray(StackJson(j.stack)))
  {
    var desc, docs := OmitEmpty("desc", j.error.desc), OmitEmpty("docs", j.error.docs);
    var kind := [Member("kind", JString(j.error.kind))];
    var annotation := OmitEmpty("annotation", j.annotation);
    var stack := if j.stack == [] then [] else [Member("stack", JArray(StackJson(j.stack)))];
    var tail := TailMembers(j);
    assert tail == kind + (annotation + stack);
    assert Get(tail, "annotation") == Get(annotation, "annotation") by {
      GetSkip(kind, annotation + stack, "annotation");
      GetAppend(annotation, stack, "annotation");
    }
    assert Get(tail, "stack") == Get(stack, "stack") by {
      GetSkip(kind, annotation + stack, "stack");
      GetSkip(annotation, stack, "stack");
    }
    GetSkip(docs, tail, "annotation");
    GetSkip(desc, docs + tail, "annotation");
    GetSkip(docs, tail, "stack");
    GetSkip(desc, docs + tail, "stack");
  }

  /** No name occurs twice in the object, as section 4 of RFC 8259 recommends. */
  lemma ToJsonUniqueNames(j: JSONError)
    ensures UniqueNames(ToJson(j).members)
  {
    var desc, docs := OmitEmpty("desc", j.error.desc), OmitEmpty("docs", j.error.docs);
    var kind := [Member("kind", JString(j.error.kind))];
    var annotation := OmitEmpty("annotation", j.annotation);
    var stack := if j.stack == [] then [] else [Member("stack", JArray(StackJson(j.stack)))];
    var tail := TailMembers(j);
    assert UniqueNames(tail) by {
      assert tail == kind + (annotation + stack);
      UniqueConcat(annotation, stack);
      UniqueConcat(kind, annotation + stack);
    }
    UniqueConcat(docs, tail);
    assert forall m: Member :: m in docs + tail ==> m.name != "desc";
    UniqueConcat(desc, docs + tail);
  }

  /** The annotated `MarshalJSON`: kind fields and the annotation, never a stack. */
  function AnnotatedMarshalJSON(annotation: string, k: Error): (r: JsonValue)
    ensures r.JObject? && Get(r.members, "stack") == None
    ensures Get(r.members, "annotation") == if annotation == "" then None else Some(JString(annotation))
    ensures Get(r.members, "kind") == Some(JString(k.kind))
    ensures Get(r.members, "desc") == if k.desc == "" then None else Some(JString(k.desc))
    ensures Get(r.members, "docs") == if k.docs == "" then None else Some(JString(k.docs))
  {
    var j := JSONView(Annotated(annotation, k));
    ToJsonKind(j);
    ToJsonDescDocs(j);
    ToJsonAnnotationStack(j);
    ToJson(j)
  }

  /**
   * The first block of the stacked `MarshalJSON`: the loop rebuilds the stack
   * by prepending the entry of each stacked error `errors.As` finds further
   * down.
   */
  method RebuildStack(e: Err) returns (stack: seq<StackEntry>)
    requires e.Stacked?
    ensures stack == Stack(e)
    ensures |stack| >= 1 && stack[|stack| - 1] == e.entry
  {
    stack := [e.entry];
    var underlying := e.underlying;
    var stacked := AsStacked(underlying);
    AsStackedIsHead(underlying);
    while stacked.Some?
      invariant stacked == AsStacked(underlying) && (stacked.Some? ==> stacked.value == underlying)
      invariant Stack(e) == Stack(underlying) + stack
      invariant |stack| >= 1 && stack[|stack| - 1] == e.entry
      decreases Rank(underlying)
    {
      stack := [stacked.value.entry] + stack;
      underlying := stacked.value.underlying;
      stacked := AsStacked(underlying);
      AsStackedIsHead(underlying);
    }
    assert Stack(underlying) == [];
  }

  /**
   * The stacked `MarshalJSON`: the rebuilt stack, then the kind error and the
   * annotation `errors.As` finds, or kind "unknown" and the whole message.
   */
  method StackedMarshalJSON(e: Err) returns (o: JSONError)
    requires e.Stacked?
    ensures o == JSONView(e)
    ensures |o.stack| >= 1 && o.stack[|o.stack| - 1] == e.entry
  {
    var stack := RebuildStack(e);
    var microErr: Error;
    var annotation: string;
    var kind := AsKind(e);
    if kind.Some? {
      microErr := kind.value;
      annotation := "";
      var annotated := AsAnnotated(e);
      if annotated.Some? {
        annotation := annotated.value.0;
      }
    } else {
      microErr := Error("", "", KindUnknown);
      annotation := Message(e);
    }
    o := JSONError(microErr, annotation, stack);
  }
}
