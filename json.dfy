/**
 * json.go: the JSON rendering of any error. An error that reaches neither a
 * kind error nor a stacked layer is first rewrapped as an annotated error of
 * kind "unknown" whose annotation is its message.
 */
module Json {
  import opened Wrappers
  import opened JsonValues
  import opened Types

  /** The error `JSON` marshals: the rewrap of json.go, or the error itself. */
  function Classify(err: Err): (r: Err)
    ensures !r.Foreign?
  {
    if AsKind(err).None? && AsStacked(err).None?
    then Annotated(Message(err), Error("", "", KindUnknown))
    else (AsKindFindsRoot(err); err)
  }

  /** `JSON(err)`, as a JSON value rather than its bytes. */
  function JSON(err: Err): (r: JsonValue)
    ensures r.JObject? && UniqueNames(r.members)
    ensures forall m :: m in r.members ==> m.name in ["desc", "docs", "kind", "annotation", "stack"]
  {
    ToJsonUniqueNames(JSONView(Classify(err)));
    ToJson(JSONView(Classify(err)))
  }

  /** The kind fields the JSON carries: the reachable kind error's, or kind "unknown". */
  function KindFields(err: Err): Error
  {
    match AsKind(err)
    case Some(k) => k
    case None => Error("", "", KindUnknown)
  }

  /** The annotation the JSON carries: the annotated layer's beside a kind error, the whole message without one. */
  function AnnotationOf(err: Err): string
  {
    match AsKind(err)
    case Some(_) => (match AsAnnotated(err) case Some(p) => p.0 case None => "")
    case None => Message(err)
  }

  /** Only foreign errors are rewrapped; everything else is marshalled by its own rule. */
  lemma ClassifyRewrapsForeignOnly(err: Err)
    ensures Classify(err) == if err.Foreign? then Annotated(err.msg, Error("", "", KindUnknown)) else err
  {
    AsKindFindsRoot(err);
    AsStackedIsHead(err);
  }

  /** The record marshalled for any error, whichever rule applies. */
  lemma {:induction false} ClassifiedView(err: Err)
    ensures JSONView(Classify(err)) == JSONError(KindFields(err), AnnotationOf(err), Stack(err))
  {
    ClassifyRewrapsForeignOnly(err);
    AsKindFindsRoot(err);
    match err
    case Foreign(m) =>
    case Kind(k) =>
    case Annotated(a, k) =>
    case Stacked(_, _) =>
  }

  /** `kind` is always present: the reachable kind, else "unknown". */
  lemma JsonKind(err: Err)
    ensures Get(JSON(err).members, "kind") == Some(JString(KindFields(err).kind))
    ensures AsKind(err).None? ==> Get(JSON(err).members, "kind") == Some(JString(KindUnknown))
  {
    ClassifiedView(err);
    ToJsonKind(JSONView(Classify(err)));
  }

  /** `desc` and `docs` come from the reachable kind error and are omitted when empty. */
  lemma JsonDescDocs(err: Err)
    ensures Get(JSON(err).members, "desc") ==
      if KindFields(err).desc == "" then None else Some(JString(KindFields(err).desc))
    ensures Get(JSON(err).members, "docs") ==
      if KindFields(err).docs == "" then None else Some(JString(KindFields(err).docs))
    ensures AsKind(err).None? ==> Get(JSON(err).members, "desc") == None && Get(JSON(err).members, "docs") == None
  {
    ClassifiedView(err);
    ToJsonDescDocs(JSONView(Classify(err)));
  }

  /**
   * `annotation`: beside a reachable kind error, the annotated layer's
   * annotation (omitted when there is none or it is empty); with no kind error,
   * the error's whole message.
   */
  lemma JsonAnnotation(err: Err)
    ensures Get(JSON(err).members, "annotation") ==
      if AnnotationOf(err) == "" then None else Some(JString(AnnotationOf(err)))
    ensures AsKind(err).None? && Message(err) != "" ==>
      Get(JSON(err).members, "annotation") == Some(JString(Message(err)))
  {
    ClassifiedView(err);
    ToJsonAnnotationStack(JSONView(Classify(err)));
  }

  /** `stack`: one object per stacked layer, innermost first; omitted when there are no layers. */
  lemma JsonStack(err: Err)
    ensures Get(JSON(err).members, "stack") ==
      if !err.Stacked? then None else Some(JArray(StackJson(Stack(err))))
  {
    ClassifiedView(err);
    ToJsonAnnotationStack(JSONView(Classify(err)));
    StackShape(err);
    assert !err.Stacked? ==> Stack(err) == [];
  }

  /** No member name repeats (section 4 of RFC 8259 recommends unique names). */
  lemma JsonUniqueNames(err: Err)
    ensures UniqueNames(JSON(err).members)
  {
    ToJsonUniqueNames(JSONView(Classify(err)));
  }

  /** A bare kind error renders only its kind fields. */
  lemma JsonBareKind(k: Error)
    ensures forall m :: m in JSON(Kind(k)).members ==> m.name in ["desc", "docs", "kind"]
  {
    ClassifyRewrapsForeignOnly(Kind(k));
    var j := JSONView(Kind(k));
    assert TailMembers(j) == [Member("kind", JString(k.kind))];
  }

  /** `errors.New("test error")` renders as kind "unknown" with the message as annotation and nothing else. */
  lemma JsonForeign(msg: string)
    requires msg != ""
    ensures JSON(Foreign(msg)) == JObject([Member("kind", JString(KindUnknown)), Member("annotation", JString(msg))])
  {
    ClassifyRewrapsForeignOnly(Foreign(msg));
  }

  /** A masked foreign error such as `errors.New("disk full")`: kind "unknown", its message as annotation, one stack entry. */
  lemma JsonMaskedForeign(s: StackEntry, msg: string)
    requires msg != ""
    ensures Get(JSON(Stacked(s, Foreign(msg))).members, "kind") == Some(JString(KindUnknown))
    ensures Get(JSON(Stacked(s, Foreign(msg))).members, "annotation") == Some(JString(msg))
    ensures Get(JSON(Stacked(s, Foreign(msg))).members, "stack") == Some(JArray([StackEntryJson(s)]))
  {
    var e := Stacked(s, Foreign(msg));
    assert AsKind(e).None? && Message(e) == msg by {
      AsKindFindsRoot(e);
    }
    assert Stack(e) == [s] by {
      assert Stack(e) == Stack(Foreign(msg)) + [s];
      assert Stack(Foreign(msg)) == [];
    }
    JsonKind(e);
    JsonAnnotation(e);
    assert AnnotationOf(e) == msg;
    JsonStack(e);
    assert StackJson([s]) == [StackEntryJson(s)];
  }
}
