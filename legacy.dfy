/**
 * The legacy generation: heap objects wrapping Go error values, updated in
 * place (annotated_error.go, masked_error.go, deprecated_set_stack.go,
 * error_handler.go, meta_error.go).
 *
 * A Go `error` interface value is a `GoError`. The three pointer types whose
 * fields the source updates are classes; their links to other errors are set
 * only when they are allocated, so those are `const`. Each class carries a
 * ghost `depth` above the errors it holds, which makes the walks below
 * terminate on any heap `Valid` accepts.
 */
module Legacy {
  import opened Wrappers
  import opened JsonValues

  /** The `Desc`, `Docs` and `Kind` fields of the legacy `*Error`. */
  datatype ErrorFields = ErrorFields(desc: string, docs: string, kind: string)

  /** One entry of the legacy `*Error` stack: the call site and the annotation of that `Mask`/`Maskf`. */
  datatype Frame = Frame(file: string, line: int, message: string)

  /** One entry of a masked error's stack. */
  datatype MaskedFrame = MaskedFrame(file: string, line: int)

  datatype ErrorHandlerConfig = ErrorHandlerConfig(callDepth: int)

  /** A Go `error` value; `Meta` is a `*metaError`, which nothing updates. */
  datatype GoError =
    | Nil
    | Foreign(msg: string)
    | Micro(e: Error)
    | Annotated(a: AnnotatedError)
    | Masked(m: MaskedError)
    | Meta(cause: GoError, metadata: map<string, string>)

  /**
   * The rendering of a legacy `*Error`, whose `Error` method is defined
   * outside this model, from its fields, its cause's message (`None` when it
   * has no cause) and its stack.
   */
  const RenderError: (ErrorFields, Option<string>, seq<Frame>) -> string

  /** `defaultError`: the kind fields a masked error reports when it wraps no `*Error`. */
  const DefaultError: ErrorFields

  /** The fields and stack `newDefaultError` starts from. */
  const DefaultFields: ErrorFields
  const DefaultStack: seq<Frame>

  /** The legacy `*Error`; `Mask` and `Maskf` append to its stack in place. */
  class Error {
    const fields: ErrorFields
    const cause: GoError
    var stack: seq<Frame>
    ghost const depth: nat

    /** `newDefaultError()` followed by `e.Cause = cause`. */
    constructor NewDefault(cause: GoError)
      ensures fields == DefaultFields && this.cause == cause && stack == DefaultStack
      ensures depth == Depth(cause) + 1
    {
      fields := DefaultFields;
      this.cause := cause;
      stack := DefaultStack;
      depth := Depth(cause) + 1;
    }
  }

  /** The legacy `*annotatedError`; `withAnnotation` overwrites its annotation in place. */
  class AnnotatedError {
    const inner: GoError
    var annotation: string
    ghost const depth: nat

    constructor (inner: GoError, annotation: string)
      ensures this.inner == inner && this.annotation == annotation
      ensures depth == Depth(inner) + 1
    {
      this.inner := inner;
      this.annotation := annotation;
      depth := Depth(inner) + 1;
    }
  }

  /** `*maskedError`; `DeprecatedSetStack` overwrites its stack in place. */
  class MaskedError {
    const cause: AnnotatedError
    var stack: seq<MaskedFrame>
    ghost const depth: nat

    constructor (cause: AnnotatedError)
      ensures this.cause == cause && stack == [] && depth == cause.depth + 1
    {
      this.cause := cause;
      stack := [];
      depth := cause.depth + 1;
    }
  }

  ghost function Depth(g: GoError): nat
  {
    match g
    case Nil => 0
    case Foreign(_) => 0
    case Micro(e) => e.depth
    case Annotated(a) => a.depth
    case Masked(m) => m.depth
    case Meta(c, _) => Depth(c) + 1
  }

  /** Every error held by an object lies strictly below it. */
  ghost predicate Valid(g: GoError)
    decreases Depth(g)
  {
    match g
    case Nil => true
    case Foreign(_) => true
    case Micro(e) => e.depth > Depth(e.cause) && Valid(e.cause)
    case Annotated(a) => a.depth > Depth(a.inner) && Valid(a.inner)
    case Masked(m) => m.depth > m.cause.depth && Valid(Annotated(m.cause))
    case Meta(c, _) => Valid(c)
  }

  /**
   * `Error()` can be called on `g` and on every error it delegates to: none is
   * nil. An `*Error` delegates to its cause when it has one.
   */
  ghost predicate Renderable(g: GoError)
    requires Valid(g)
    decreases Depth(g)
  {
    match g
    case Nil => false
    case Foreign(_) => true
    case Micro(e) => e.cause == Nil || Renderable(e.cause)
    case Annotated(a) => Renderable(a.inner)
    case Masked(m) => Renderable(Annotated(m.cause))
    case Meta(c, _) => Renderable(c)
  }

  /** The annotated errors `Error()` reads, each at most as deep as `g`. */
  ghost function Annotations(g: GoError): (r: set<AnnotatedError>)
    requires Valid(g)
    ensures forall a :: a in r ==> a.depth <= Depth(g)
    decreases Depth(g)
  {
    match g
    case Nil => {}
    case Foreign(_) => {}
    case Micro(e) => Annotations(e.cause)
    case Annotated(a) => {a} + Annotations(a.inner)
    case Masked(m) => Annotations(Annotated(m.cause))
    case Meta(c, _) => Annotations(c)
  }

  /** The `*Error` objects `Error()` reads. */
  ghost function Errors(g: GoError): set<Error>
    requires Valid(g)
    decreases Depth(g)
  {
    match g
    case Nil => {}
    case Foreign(_) => {}
    case Micro(e) => {e} + Errors(e.cause)
    case Annotated(a) => Errors(a.inner)
    case Masked(m) => Errors(Annotated(m.cause))
    case Meta(c, _) => Errors(c)
  }

  /**
   * `Error()` of each legacy type. Annotating only ever extends a message:
   * an annotated error's message starts with the message of the error it
   * wraps.
   */
  function Message(g: GoError): (r: string)
    requires Valid(g) && Renderable(g)
    reads Annotations(g), Errors(g)
    ensures g.Annotated? ==> Message(g.a.inner) <= r
    decreases Depth(g)
  {
    match g
    case Foreign(msg) => msg
    case Micro(e) => RenderError(e.fields, if e.cause == Nil then None else Some(Message(e.cause)), e.stack)
    case Annotated(a) =>
      var s := Message(a.inner);
      if a.annotation != "" then s + ": " + a.annotation else s
    case Masked(m) => Message(Annotated(m.cause))
    case Meta(c, _) => Message(c)
  }

  // ---------------------------------------------------------------------------
  // annotated_error.go

  /**
   * `withAnnotation`: an annotated error has its annotation overwritten and is
   * returned itself; anything else gets a fresh wrapper.
   */
  method WithAnnotation(err: GoError, annotation: string) returns (r: AnnotatedError)
    requires Valid(err)
    modifies if err.Annotated? then {err.a} else {}
    ensures Valid(Annotated(r))
    ensures err.Annotated? ==> r == err.a && r.annotation == annotation
    ensures !err.Annotated? ==> fresh(r) && r.inner == err && r.annotation == annotation
    ensures Renderable(err) && !err.Annotated? && annotation == "" ==>
      Renderable(Annotated(r)) && Message(Annotated(r)) == Message(err)
  {
    if err.Annotated? {
      r := err.a;
      r.annotation := annotation;
      return;
    }
    r := new AnnotatedError(err, annotation);
  }

  /** The message of an annotated error: the inner message, then ": " and the annotation when there is one. */
  lemma AnnotatedMessage(a: AnnotatedError)
    requires Valid(Annotated(a)) && Renderable(Annotated(a))
    ensures Message(a.inner) <= Message(Annotated(a))
    ensures Message(Annotated(a)) == Message(a.inner) <==> a.annotation == ""
    ensures a.annotation != "" ==> Message(Annotated(a)) == Message(a.inner) + ": " + a.annotation
  {
  }

  /** The annotated `MarshalJSON`: one `message` member, `Error()` followed again by ": " and the annotation. */
  function AnnotatedMarshalJSON(a: AnnotatedError): (r: JsonValue)
    requires Valid(Annotated(a)) && Renderable(Annotated(a))
    reads Annotations(Annotated(a)), Errors(Annotated(a))
    ensures r.JObject? && |r.members| == 1 && r.members[0].name == "message"
    ensures a.annotation == "" ==> r.members[0].value == JString(Message(a.inner))
    ensures a.annotation != "" ==>
      r.members[0].value == JString(Message(a.inner) + ": " + a.annotation + ": " + a.annotation)
  {
    var m := Message(Annotated(a));
    JObject([Member("message", JString(if a.annotation != "" then m + ": " + a.annotation else m))])
  }

  // ---------------------------------------------------------------------------
  // masked_error.go

  /**
   * `newMaskedError`: a masked error is returned itself; anything else is
   * wrapped, through `withAnnotation(err, "")`, in a fresh masked error with an
   * empty stack.
   */
  method NewMaskedError(err: GoError) returns (r: MaskedError)
    requires Valid(err)
    modifies if err.Annotated? then {err.a} else {}
    ensures Valid(Masked(r))
    ensures err.Masked? ==> r == err.m && unchanged(r)
    ensures !err.Masked? ==> fresh(r) && r.stack == [] && r.cause.annotation == ""
    ensures err.Annotated? ==> r.cause == err.a
    ensures !err.Masked? && !err.Annotated? ==> fresh(r.cause) && r.cause.inner == err
    ensures Renderable(err) && !err.Masked? && !err.Annotated? ==>
      Renderable(Masked(r)) && Message(Masked(r)) == Message(err)
  {
    if err.Masked? {
      return err.m;
    }
    var cause := WithAnnotation(err, "");
    r := new MaskedError(cause);
  }

  /** A masked error's message is its cause's, so every holder of the cause sees its current annotation. */
  lemma MaskedMessageIsCauses(m: MaskedError)
    requires Valid(Masked(m)) && Renderable(Masked(m))
    ensures Message(Masked(m)) == Message(Annotated(m.cause))
    ensures m.cause.annotation == "" ==> Message(Masked(m)) == Message(m.cause.inner)
  {
  }

  /** The kind fields a masked error reports: the wrapped `*Error`'s, else `defaultError`'s. */
  function MaskedKindFields(m: MaskedError): (r: ErrorFields)
    ensures m.cause.inner.Micro? ==> r == m.cause.inner.e.fields
    ensures !m.cause.inner.Micro? ==> r == DefaultError
  {
    if m.cause.inner.Micro? then m.cause.inner.e.fields else DefaultError
  }

  /** One masked stack entry: `file` omitted when empty, `line` when 0. */
  function MaskedFrameJson(f: MaskedFrame): (r: JsonValue)
    ensures r.JObject?
    ensures Get(r.members, "file") == if f.file == "" then None else Some(JString(f.file))
    ensures Get(r.members, "line") == if f.line == 0 then None else Some(JNumber(f.line))
  {
    var line := if f.line == 0 then [] else [Member("line", JNumber(f.line))];
    GetSkip(OmitEmpty("file", f.file), line, "line");
    GetAppend(OmitEmpty("file", f.file), line, "file");
    JObject(OmitEmpty("file", f.file) + line)
  }

  /** The masked `stack` array: one object per entry, in order. */
  function MaskedStackJson(stack: seq<MaskedFrame>): (r: seq<JsonValue>)
    ensures |r| == |stack| && forall i :: 0 <= i < |stack| ==> r[i] == MaskedFrameJson(stack[i])
  {
    seq(|stack|, i requires 0 <= i < |stack| => MaskedFrameJson(stack[i]))
  }

  /** The members of the masked JSON object: `cause`, `stack` (omitted when empty), then the kind fields. */
  function MaskedMembers(cause: JsonValue, stack: seq<MaskedFrame>, k: ErrorFields): (r: seq<Member>)
    ensures forall m :: m in r ==> m.name in ["cause", "stack", "desc", "docs", "kind"]
  {
    [Member("cause", cause)]
      + ((if stack == [] then [] else [Member("stack", JArray(MaskedStackJson(stack)))])
      + (OmitEmpty("desc", k.desc) + (OmitEmpty("docs", k.docs) + [Member("kind", JString(k.kind))])))
  }

  /** Each of `cause`, `stack`, `kind` and `desc` is found where the masked members put it. */
  lemma MaskedMembersFields(cause: JsonValue, stack: seq<MaskedFrame>, k: ErrorFields)
    ensures Get(MaskedMembers(cause, stack, k), "cause") == Some(cause)
    ensures Get(MaskedMembers(cause, stack, k), "stack") ==
      if stack == [] then None else Some(JArray(MaskedStackJson(stack)))
    ensures Get(MaskedMembers(cause, stack, k), "kind") == Some(JString(k.kind))
    ensures Get(MaskedMembers(cause, stack, k), "desc") == if k.desc == "" then None else Some(JString(k.desc))
    ensures Get(MaskedMembers(cause, stack, k), "docs") == if k.docs == "" then None else Some(JString(k.docs))
  {
    var head := [Member("cause", cause)];
    var st := if stack == [] then [] else [Member("stack", JArray(MaskedStackJson(stack)))];
    var desc, docs, kind := OmitEmpty("desc", k.desc), OmitEmpty("docs", k.docs), [Member("kind", JString(k.kind))];
    var fields := desc + (docs + kind);
    assert MaskedMembers(cause, stack, k) == head + (st + fields);
    assert Get(fields, "stack") == None by {
      GetFinds(fields, "stack");
    }
    assert Get(fields, "kind") == Some(JString(k.kind)) by {
      GetSkip(docs, kind, "kind");
      GetSkip(desc, docs + kind, "kind");
    }
    assert Get(fields, "desc") == if k.desc == "" then None else Some(JString(k.desc)) by {
      GetFinds(docs + kind, "desc");
      GetAppend(desc, docs + kind, "desc");
    }
    assert Get(fields, "docs") == if k.docs == "" then None else Some(JString(k.docs)) by {
      GetSkip(desc, docs + kind, "docs");
      GetAppend(docs, kind, "docs");
    }
    GetSkip(head, st + fields, "stack");
    GetAppend(st, fields, "stack");
    GetSkip(head, st + fields, "kind");
    GetSkip(st, fields, "kind");
    GetSkip(head, st + fields, "desc");
    GetSkip(st, fields, "desc");
    GetSkip(head, st + fields, "docs");
    GetSkip(st, fields, "docs");
  }

  /** No name occurs twice among the masked members. */
  lemma MaskedMembersUnique(cause: JsonValue, stack: seq<MaskedFrame>, k: ErrorFields)
    ensures UniqueNames(MaskedMembers(cause, stack, k))
  {
    var head := [Member("cause", cause)];
    var st := if stack == [] then [] else [Member("stack", JArray(MaskedStackJson(stack)))];
    var desc, docs, kind := OmitEmpty("desc", k.desc), OmitEmpty("docs", k.docs), [Member("kind", JString(k.kind))];
    assert MaskedMembers(cause, stack, k) == head + (st + (desc + (docs + kind)));
    UniqueConcat(docs, kind);
    UniqueConcat(desc, docs + kind);
    UniqueConcat(st, desc + (docs + kind));
    UniqueConcat(head, st + (desc + (docs + kind)));
  }

  /** The masked `MarshalJSON`: the inlined members of the masked error and of the selected kind fields, none repeated. */
  function MaskedMarshalJSON(m: MaskedError): (r: JsonValue)
    requires Valid(Masked(m)) && Renderable(Masked(m))
    reads m, Annotations(Masked(m)), Errors(Masked(m))
    ensures r.JObject? && UniqueNames(r.members)
    ensures forall n :: n in r.members ==> n.name in ["cause", "stack", "desc", "docs", "kind"]
  {
    MaskedMembersUnique(AnnotatedMarshalJSON(m.cause), m.stack, MaskedKindFields(m));
    JObject(MaskedMembers(AnnotatedMarshalJSON(m.cause), m.stack, MaskedKindFields(m)))
  }

  /** The masked JSON carries the cause's rendering, the stack when there is one, and the kind fields it selects. */
  lemma MaskedJsonFields(m: MaskedError)
    requires Valid(Masked(m)) && Renderable(Masked(m))
    ensures Get(MaskedMarshalJSON(m).members, "cause") == Some(AnnotatedMarshalJSON(m.cause))
    ensures Get(MaskedMarshalJSON(m).members, "stack") ==
      if m.stack == [] then None else Some(JArray(MaskedStackJson(m.stack)))
    ensures Get(MaskedMarshalJSON(m).members, "kind") == Some(JString(MaskedKindFields(m).kind))
    ensures Get(MaskedMarshalJSON(m).members, "desc") ==
      if MaskedKindFields(m).desc == "" then None else Some(JString(MaskedKindFields(m).desc))
    ensures Get(MaskedMarshalJSON(m).members, "docs") ==
      if MaskedKindFields(m).docs == "" then None else Some(JString(MaskedKindFields(m).docs))
  {
    MaskedMembersFields(AnnotatedMarshalJSON(m.cause), m.stack, MaskedKindFields(m));
  }

  // ---------------------------------------------------------------------------
  // deprecated_set_stack.go

  /**
   * `DeprecatedSetStack`: when `src` is masked, `dst` is made a masked error
   * (itself if it already is one) and given `src`'s stack; otherwise `dst` is
   * returned as it is.
   */
  method DeprecatedSetStack(dst: GoError, src: GoError) returns (r: GoError)
    requires Valid(dst)
    modifies if src.Masked? && dst.Masked? then {dst.m} else {}
    modifies if src.Masked? && dst.Annotated? then {dst.a} else {}
    ensures Valid(r)
    ensures !src.Masked? ==> r == dst
    ensures src.Masked? ==> r.Masked? && r.m.stack == old(src.m.stack)
    ensures src.Masked? && dst.Masked? ==> r == dst
    ensures src.Masked? && dst.Annotated? ==> r.m.cause == dst.a && dst.a.annotation == ""
    ensures src.Masked? && !dst.Masked? ==> fresh(r.m)
    ensures src.Masked? && !dst.Masked? && !dst.Annotated? ==>
      fresh(r.m.cause) && r.m.cause.inner == dst && r.m.cause.annotation == ""
    ensures src.Masked? && Renderable(dst) && !dst.Masked? && !dst.Annotated? ==>
      Renderable(r) && Message(r) == Message(dst)
  {
    if !src.Masked? {
      return dst;
    }
    var dstMasked := NewMaskedError(dst);
    dstMasked.stack := src.m.stack;
    r := Masked(dstMasked);
  }

  // ---------------------------------------------------------------------------
  // error_handler.go

  class ErrorHandler {
    const callDepth: int

    /** `NewErrorHandler`: one more frame to skip, for the handler's own method. */
    constructor (config: ErrorHandlerConfig)
      ensures callDepth == config.callDepth + 1
    {
      callDepth := config.callDepth + 1;
    }

    /** `Cause`: the stored cause of an `*Error` that has one, anything else itself. */
    function Cause(err: GoError): (r: GoError)
      ensures !err.Micro? ==> r == err
      ensures err.Micro? && err.e.cause != Nil ==> r == err.e.cause
      ensures err.Micro? && err.e.cause == Nil ==> r == err
    {
      if !err.Micro? then err
      else if err.e.cause != Nil then err.e.cause
      else err
    }

    /**
     * `Mask`, with the call site `runtime.Caller` reports given as `file` and
     * `line`: nil stays nil; an `*Error` gets one more stack entry in place
     * and is returned itself; anything else becomes a fresh default error
     * caused by it, with one entry.
     */
    method Mask(err: GoError, file: string, line: int) returns (r: GoError)
      requires Valid(err)
      modifies if err.Micro? then {err.e} else {}
      ensures Valid(r)
      ensures err == Nil ==> r == Nil
      ensures err.Micro? ==> r == err && err.e.stack == old(err.e.stack) + [Frame(file, line, "")]
      ensures err != Nil && !err.Micro? ==>
        r.Micro? && fresh(r.e) && r.e.fields == DefaultFields && r.e.cause == Cause(err)
        && r.e.stack == DefaultStack + [Frame(file, line, "")]
      ensures err != Nil && !err.Micro? ==> Cause(r) == err
    {
      if err == Nil {
        return Nil;
      }
      var e: Error;
      if err.Micro? {
        e := err.e;
      } else {
        e := new Error.NewDefault(Cause(err));
      }
      e.stack := e.stack + [Frame(file, line, "")];
      r := Micro(e);
    }

    /** `Maskf`: `Mask` whose stack entry carries the formatted annotation `message`. */
    method Maskf(err: GoError, message: string, file: string, line: int) returns (r: GoError)
      requires Valid(err)
      modifies if err.Micro? then {err.e} else {}
      ensures Valid(r)
      ensures err == Nil ==> r == Nil
      ensures err.Micro? ==> r == err && err.e.stack == old(err.e.stack) + [Frame(file, line, message)]
      ensures err != Nil && !err.Micro? ==>
        r.Micro? && fresh(r.e) && r.e.fields == DefaultFields && r.e.cause == Cause(err)
        && r.e.stack == DefaultStack + [Frame(file, line, message)]
      ensures err != Nil && !err.Micro? ==> Cause(r) == err
    {
      if err == Nil {
        return Nil;
      }
      var e: Error;
      if err.Micro? {
        e := err.e;
      } else {
        e := new Error.NewDefault(Cause(err));
      }
      e.stack := e.stack + [Frame(file, line, message)];
      r := Micro(e);
    }
  }

  // ---------------------------------------------------------------------------
  // meta_error.go

  /** Why `NewMetaError` refuses its arguments. */
  datatype InvalidConfigReason = NilError | EmptyMessage | NilMeta

  /** The sentinel errors the meta-error functions report through `Maskf`. */
  datatype MetaFailure =
    | InvalidConfig(reason: InvalidConfigReason)
    | WrongType
    | MetadataNotFound(key: string)

  /** `NewMetaError`; a nil map is `None`. The checks run in the order nil error, empty message, nil map. */
  function NewMetaError(err: GoError, meta: Option<map<string, string>>): (r: Result<GoError, MetaFailure>)
    requires Valid(err) && (err == Nil || Renderable(err))
    reads Annotations(err), Errors(err)
    ensures err == Nil ==> r == Failure(InvalidConfig(NilError))
    ensures err != Nil && Message(err) == "" ==> r == Failure(InvalidConfig(EmptyMessage))
    ensures err != Nil && Message(err) != "" && meta.None? ==> r == Failure(InvalidConfig(NilMeta))
    ensures r.Success? <==> err != Nil && Message(err) != "" && meta.Some?
    ensures r.Success? ==> r.value == Meta(err, meta.value)
  {
    if err == Nil then Failure(InvalidConfig(NilError))
    else if Message(err) == "" then Failure(InvalidConfig(EmptyMessage))
    else if meta.None? then Failure(InvalidConfig(NilMeta))
    else Success(Meta(err, meta.value))
  }

  /** `FromMetaError`; `errgo.Cause`, from a package outside this model, is the parameter `errgoCause`. */
  function FromMetaError(err: GoError, key: string, errgoCause: GoError -> GoError): (r: Result<string, MetaFailure>)
    ensures !errgoCause(err).Meta? ==> r == Failure(WrongType)
    ensures errgoCause(err).Meta? && key in errgoCause(err).metadata ==>
      r == Success(errgoCause(err).metadata[key])
    ensures errgoCause(err).Meta? && key !in errgoCause(err).metadata ==> r == Failure(MetadataNotFound(key))
  {
    var c := errgoCause(err);
    if !c.Meta? then Failure(WrongType)
    else if key in c.metadata then Success(c.metadata[key])
    else Failure(MetadataNotFound(key))
  }

  /** `metaErrorCause`. */
  function MetaErrorCause(err: GoError): (r: GoError)
    ensures err.Meta? ==> r == err.cause
    ensures !err.Meta? ==> r == err
  {
    if err.Meta? then err.cause else err
  }

  /**
   * A meta error made by `NewMetaError` keeps its cause's message, gives back
   * its cause, and answers `FromMetaError` from its map whenever
   * `errgo.Cause` leaves it as it is.
   */
  lemma MetaRoundTrip(err: GoError, meta: map<string, string>, key: string, errgoCause: GoError -> GoError)
    requires Valid(err) && Renderable(err) && Message(err) != ""
    requires errgoCause(Meta(err, meta)) == Meta(err, meta)
    ensures NewMetaError(err, Some(meta)) == Success(Meta(err, meta))
    ensures Message(Meta(err, meta)) == Message(err)
    ensures MetaErrorCause(NewMetaError(err, Some(meta)).value) == err
    ensures FromMetaError(NewMetaError(err, Some(meta)).value, key, errgoCause) ==
      if key in meta then Success(meta[key]) else Failure(MetadataNotFound(key))
  {
  }
}
