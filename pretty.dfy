/**
 * pretty.go: the human-readable rendering of an error, and the clean-up of
 * each message that goes into it.
 */
module Pretty {
  import opened Wrappers
  import opened Types
  import StringCase
  import StackTrace

  /** `kindNil`: a kind whose value is defined outside this model. */
  const KindNil: string

  const Prefix: string := "error: "
  const Delimiter: string := ": "
  const Suffix: string := " error"

  /** `strings.HasPrefix(strings.ToLower(m), prefix)`. */
  predicate HasPrefixFold(m: string)
  {
    |m| >= |Prefix| && StringCase.LowerAll(m[..|Prefix|]) == Prefix
  }

  predicate HasSuffix(m: string, suffix: string)
  {
    |m| >= |suffix| && m[|m| - |suffix|..] == suffix
  }

  /** `strings.TrimSuffix`: removes one copy of `suffix` from the end. */
  function TrimSuffix(m: string, suffix: string): string
  {
    if HasSuffix(m, suffix) then m[..|m| - |suffix|] else m
  }

  /** The message once the leading "error: " (any case) and one trailing " error" are removed. */
  function Stripped(m: string): string
  {
    TrimSuffix(if HasPrefixFold(m) then m[|Prefix|..] else m, Suffix)
  }

  /** The first rune upper-cased, the rest unchanged. */
  function Capitalise(s: string): (r: string)
    requires s != []
    ensures |r| == |s| && r[0] == StringCase.Upper(s[0]) && r[1..] == s[1..]
  {
    [StringCase.Upper(s[0])] + s[1..]
  }

  /**
   * `prettifyErrorMessage` as written: `None` when the stripped message is
   * empty, where writing its first rune indexes an empty slice and panics.
   */
  function PrettifyAsWritten(m: string): Option<string>
  {
    if |m| < 1 then Some(m)
    else if Stripped(m) == [] then None
    else Some(Capitalise(Stripped(m)))
  }

  /** `prettifyErrorMessage` with the emptiness guard repeated after stripping. */
  function Prettified(m: string): string
  {
    if |m| < 1 || Stripped(m) == [] then "" else Capitalise(Stripped(m))
  }

  /**
   * `prettifyErrorMessage`, reassigning the message step by step and writing
   * the first rune of a rune buffer; it returns "" where the source panics.
   */
  method PrettifyErrorMessage(input: string) returns (message: string)
    ensures message == Prettified(input)
  {
    message := input;
    if |message| < 1 {
      return;
    }
    if HasPrefixFold(message) {
      message := message[|Prefix|..];
    }
    message := TrimSuffix(message, Suffix);
    if |message| < 1 {
      return;
    }
    var runes := new char[|message|](i requires 0 <= i < |message| => message[i]);
    runes[0] := StringCase.Upper(runes[0]);
    message := runes[..];
  }

  // ---------------------------------------------------------------------------
  // The panic and its correction.

  /** The source panics on a message that stripping empties, such as "error: " or " error". */
  lemma PrettifyPanics()
    ensures PrettifyAsWritten("error: ") == None
    ensures PrettifyAsWritten(" error") == None
    ensures PrettifyAsWritten("Error:  error") == None
  {
    assert StringCase.LowerAll("error: ") == Prefix;
    assert StringCase.LowerAll("Error: ") == Prefix;
    assert "Error:  error"[..7] == "Error: " && "Error:  error"[7..] == Suffix;
    assert !HasPrefixFold(" error");
  }

  /**
   * The corrected rendering agrees with the source wherever the source does not
   * panic, gives "" exactly where it would, and is "" only for the empty
   * message or one that stripping empties.
   */
  lemma PrettifiedCorrectsPanic(m: string)
    ensures PrettifyAsWritten(m).Some? ==> Prettified(m) == PrettifyAsWritten(m).value
    ensures PrettifyAsWritten(m).None? <==> m != "" && Stripped(m) == ""
    ensures Prettified(m) == "" <==> m == "" || Stripped(m) == ""
  {
  }

  /** A message without the prefix and the suffix only has its first rune upper-cased. */
  lemma PrettifyOnlyCapitalises(m: string)
    requires m != [] && !HasPrefixFold(m) && !HasSuffix(m, Suffix)
    ensures Prettified(m) == [StringCase.Upper(m[0])] + m[1..]
  {
  }

  /** The prefix is removed once, in any case: a second "error: " behind it stays. */
  lemma {:induction false} PrefixRemovedOnce(p: string, m: string)
    requires |p| == |Prefix| && StringCase.LowerAll(p) == Prefix
    requires m != [] && !HasSuffix(m, Suffix)
    ensures Prettified(p + m) == Capitalise(m)
  {
    assert (p + m)[..|Prefix|] == p && (p + m)[|Prefix|..] == m;
  }

  /** One trailing " error" is removed. */
  lemma SuffixRemoved(m: string)
    requires m != [] && !HasPrefixFold(m + Suffix)
    ensures Prettified(m + Suffix) == Capitalise(m)
  {
    assert (m + Suffix)[|m + Suffix| - |Suffix|..] == Suffix;
    assert (m + Suffix)[..|m + Suffix| - |Suffix|] == m;
  }

  /** "error: error: disk full" loses the first prefix only. */
  lemma PrefixExample()
    ensures Prettified(Prefix + (Prefix + "disk full")) == "Error: disk full"
  {
    var m := Prefix + "disk full";
    PrefixFolds();
    PrefixedDiskFull();
    PrefixRemovedOnce(Prefix, m);
  }

  /** "error: " is its own lower case. */
  lemma PrefixFolds()
    ensures StringCase.LowerAll(Prefix) == Prefix
  {
  }

  /** "error: disk full" does not end in " error" and capitalises to "Error: disk full". */
  lemma PrefixedDiskFull()
    ensures !HasSuffix(Prefix + "disk full", Suffix)
    ensures Capitalise(Prefix + "disk full") == "Error: disk full"
  {
    var m := Prefix + "disk full";
    assert !HasSuffix(m, Suffix) by {
      assert m[|m| - |Suffix|..][0] == 'k';
    }
    assert Capitalise(m) == [StringCase.Upper('e')] + "rror: disk full" by {
      assert m[0] == 'e' && m[1..] == "rror: disk full";
    }
  }

  // ---------------------------------------------------------------------------
  // Pretty.

  /** An annotated error: the prettified kind message and the delimiter unless the kind is `KindNil` or "unknown", then the prettified annotation. */
  function AnnotatedPretty(annotation: string, k: Error): string
  {
    (if k.kind != KindNil && k.kind != KindUnknown
     then Prettified(Message(Kind(k))) + Delimiter else "")
    + Prettified(annotation)
  }

  /** The stack trace appended when asked for and the outermost error is stacked. */
  function Appendix(err: Err, stackTrace: bool): string
  {
    if stackTrace && err.Stacked? then "\n\n" + StackTrace.FormatTrace(Stack(err)) else ""
  }

  /** What `Pretty(err, stackTrace)` returns. */
  function PrettyOf(err: Err, stackTrace: bool): string
  {
    match AsAnnotated(err)
    case Some(p) => AnnotatedPretty(p.0, p.1) + Appendix(err, stackTrace)
    case None =>
      var pretty := Prettified(Message(err));
      if |pretty| < 1 then "" else pretty + Appendix(err, stackTrace)
  }

  /** The annotated branch of `PrettyOf`. */
  lemma PrettyOfAnnotated(err: Err, stackTrace: bool, annotation: string, k: Error)
    requires AsAnnotated(err) == Some((annotation, k))
    ensures PrettyOf(err, stackTrace) == AnnotatedPretty(annotation, k) + Appendix(err, stackTrace)
  {
  }

  /** The unannotated branch of `PrettyOf`. */
  lemma PrettyOfPlain(err: Err, stackTrace: bool)
    requires AsAnnotated(err).None?
    ensures |Prettified(Message(err))| < 1 ==> PrettyOf(err, stackTrace) == ""
    ensures |Prettified(Message(err))| >= 1 ==>
      PrettyOf(err, stackTrace) == Prettified(Message(err)) + Appendix(err, stackTrace)
  {
  }

  /** The tail of `Pretty`: a blank line and the formatted trace, when asked for and the error is stacked. */
  method WriteAppendix(err: Err, stackTrace: bool) returns (message: string)
    ensures message == Appendix(err, stackTrace)
  {
    message := "";
    if stackTrace && err.Stacked? {
      assert message + "\n\n" == "\n\n";
      message := message + "\n\n";
      var trace := StackTrace.CreateStackTrace(err);
      var formatted := StackTrace.FormatStackTrace(trace);
      message := message + formatted;
    }
  }

  /** The annotated branch of `Pretty`: the kind part unless the kind is `KindNil` or "unknown", then the annotation. */
  method WriteAnnotated(annotation: string, k: Error) returns (message: string)
    ensures message == AnnotatedPretty(annotation, k)
  {
    message := "";
    if k.kind != KindNil && k.kind != KindUnknown {
      var p := PrettifyErrorMessage(Message(Kind(k)));
      assert message + p == p;
      message := message + p;
      message := message + Delimiter;
    }
    var p := PrettifyErrorMessage(annotation);
    message := message + p;
  }

  /** `Pretty`: builds the result in a string builder. */
  method Pretty(err: Err, stackTrace: bool) returns (r: string)
    ensures r == PrettyOf(err, stackTrace)
  {
    var message := "";
    var annotated := AsAnnotated(err);
    if annotated.Some? {
      PrettyOfAnnotated(err, stackTrace, annotated.value.0, annotated.value.1);
      message := WriteAnnotated(annotated.value.0, annotated.value.1);
    } else {
      PrettyOfPlain(err, stackTrace);
      var pretty := PrettifyErrorMessage(Message(err));
      if |pretty| < 1 {
        return "";
      }
      pretty := PrettifyErrorMessage(Message(err));
      assert message + pretty == pretty;
      message := message + pretty;
    }
    var appendix := WriteAppendix(err, stackTrace);
    r := message + appendix;
  }

  // ---------------------------------------------------------------------------
  // Properties.

  /** Stacked layers never change the message part. */
  lemma {:induction false} PrettyIgnoresMasks(e: Err, entries: seq<StackEntry>)
    ensures PrettyOf(MaskAll(e, entries), false) == PrettyOf(e, false)
    decreases |entries|
  {
    if entries != [] {
      var inner := MaskAll(e, entries[..|entries| - 1]);
      AsThroughStacked(entries[|entries| - 1], inner);
      PrettyIgnoresMasks(e, entries[..|entries| - 1]);
    }
  }

  /** The flag only appends the appendix, except where the message part is "" and the result stays "". */
  lemma FlagAppendsAppendix(err: Err)
    ensures PrettyOf(err, true) ==
      if AsAnnotated(err).None? && Prettified(Message(err)) == "" then ""
      else PrettyOf(err, false) + Appendix(err, true)
  {
    assert Appendix(err, false) == "";
    match AsAnnotated(err) {
      case Some(p) =>
        var head := AnnotatedPretty(p.0, p.1);
        assert PrettyOf(err, false) == head by {
          assert head + "" == head;
        }
      case None =>
        var pretty := Prettified(Message(err));
        assert |pretty| >= 1 ==> PrettyOf(err, false) == pretty by {
          assert pretty + "" == pretty;
        }
    }
  }

  /** Masking a non-stacked error keeps what the message part depends on and makes the stack the entries. */
  lemma MaskedParts(e: Err, entries: seq<StackEntry>)
    requires !e.Stacked? && entries != []
    ensures AsAnnotated(MaskAll(e, entries)) == AsAnnotated(e)
    ensures Message(MaskAll(e, entries)) == Message(e)
    ensures PrettyOf(MaskAll(e, entries), false) == PrettyOf(e, false)
    ensures Appendix(MaskAll(e, entries), true) == "\n\n" + StackTrace.FormatTrace(entries)
  {
    var m := MaskAll(e, entries);
    MaskedStack(e, entries);
    MaskedMessage(e, entries);
    AsKindFindsRoot(m);
    AsKindFindsRoot(e);
    PrettyIgnoresMasks(e, entries);
    assert Stack(m) == entries by {
      assert Stack(e) == [];
      assert Stack(e) + entries == entries;
    }
  }

  /**
   * With the flag set, the masked error's rendering is the message part, a
   * blank line and the call sites in masking order; only a non-annotated
   * error whose message prettifies to "" renders as "" regardless.
   */
  lemma PrettyWithTrace(e: Err, entries: seq<StackEntry>)
    requires !e.Stacked? && entries != []
    ensures PrettyOf(MaskAll(e, entries), true) ==
      if AsAnnotated(e).None? && Prettified(Message(e)) == "" then ""
      else PrettyOf(e, false) + ("\n\n" + StackTrace.FormatTrace(entries))
  {
    MaskedParts(e, entries);
    FlagAppendsAppendix(MaskAll(e, entries));
  }

  /** An annotated kind other than `KindNil` and "unknown" shows as its prettified message, ": ", and the prettified annotation. */
  lemma PrettyAnnotated(a: string, k: Error, entries: seq<StackEntry>)
    requires k.kind != KindNil && k.kind != KindUnknown
    ensures PrettyOf(MaskAll(Annotated(a, k), entries), false) ==
      Prettified(StringCase.StringCaseOf(k.kind)) + ": " + Prettified(a)
  {
    PrettyIgnoresMasks(Annotated(a, k), entries);
    AsKindFindsRoot(Annotated(a, k));
  }

  /** A `KindNil` or "unknown" kind is left out: only the prettified annotation shows. */
  lemma PrettyKindSuppressed(a: string, k: Error, entries: seq<StackEntry>)
    requires k.kind == KindNil || k.kind == KindUnknown
    ensures PrettyOf(MaskAll(Annotated(a, k), entries), false) == Prettified(a)
  {
    PrettyIgnoresMasks(Annotated(a, k), entries);
    AsKindFindsRoot(Annotated(a, k));
  }

  /** Without an annotated layer the result is the prettified message, or "" when that is empty; without the flag nothing follows. */
  lemma PrettyUnannotated(e: Err, entries: seq<StackEntry>)
    requires !Root(e).Annotated?
    ensures PrettyOf(MaskAll(e, entries), false) == Prettified(Message(e))
  {
    PrettyIgnoresMasks(e, entries);
    AsKindFindsRoot(e);
  }

  /** A foreign error under stacked layers renders as its prettified message. */
  lemma PrettyMaskedForeign(m: string, entries: seq<StackEntry>)
    ensures PrettyOf(MaskAll(Foreign(m), entries), false) == Prettified(m)
  {
    PrettyUnannotated(Foreign(m), entries);
  }

  /** "disk full" only has its first rune upper-cased. */
  lemma PrettifyDiskFull()
    ensures Prettified("disk full") == "Disk full"
  {
    var m := "disk full";
    assert !HasPrefixFold(m) by {
      assert StringCase.LowerAll(m[..|Prefix|])[0] == 'd';
    }
    assert !HasSuffix(m, Suffix) by {
      assert m[|m| - |Suffix|..][0] == 'k';
    }
    PrettifyOnlyCapitalises(m);
    assert StringCase.Upper('d') == 'D';
  }

  /** A masked `errors.New("disk full")` renders as "Disk full". */
  lemma PrettyForeignExample(s: StackEntry)
    ensures PrettyOf(Stacked(s, Foreign("disk full")), false) == "Disk full"
  {
    assert MaskAll(Foreign("disk full"), [s]) == Stacked(s, Foreign("disk full")) by {
      assert [s][..0] == [];
    }
    PrettyMaskedForeign("disk full", [s]);
    PrettifyDiskFull();
  }
}
