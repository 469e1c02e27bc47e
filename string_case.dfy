/**
 * `toStringCase` (string_case.go): turns a camel-case kind such as
 * "authenticationError" into the lower-case phrase "authentication error".
 * Runes are modelled as `char`; the Unicode case tables are restricted to the
 * ASCII letters.
 */
module StringCase {

  predicate IsUpper(c: char)
  {
    'A' <= c <= 'Z'
  }

  predicate IsLower(c: char)
  {
    'a' <= c <= 'z'
  }

  /** `unicode.ToLower` on ASCII letters. */
  function Lower(c: char): (r: char)
    ensures !IsUpper(r)
    ensures !IsUpper(c) ==> r == c
  {
    if IsUpper(c) then (c as int + 32) as char else c
  }

  /** `unicode.ToUpper` on ASCII letters. */
  function Upper(c: char): (r: char)
    ensures !IsLower(r)
    ensures !IsLower(c) ==> r == c
  {
    if IsLower(c) then (c as int - 32) as char else c
  }

  /** `strings.ToLower` on ASCII text. */
  function LowerAll(s: string): (r: string)
    ensures |r| == |s| && forall i :: 0 <= i < |s| ==> r[i] == Lower(s[i])
  {
    seq(|s|, i requires 0 <= i < |s| => Lower(s[i]))
  }

  /** What the loop appends for one rune: a space before an upper-case rune that is not the first, then the rune in lower case. */
  function Chunk(c: char, first: bool): string
  {
    (if !first && IsUpper(c) then " " else "") + [Lower(c)]
  }

  /** The result of `toStringCase(s)`: the chunks of all runes, in order. */
  function StringCaseOf(s: string): string
    decreases |s|
  {
    if s == [] then "" else StringCaseOf(s[..|s| - 1]) + Chunk(s[|s| - 1], |s| == 1)
  }

  /** `strings.Join(chunks, "")`. */
  function Concat(chunks: seq<string>): string
  {
    if chunks == [] then "" else Concat(chunks[..|chunks| - 1]) + chunks[|chunks| - 1]
  }

  method ToStringCase(input: string) returns (output: string)
    ensures output == StringCaseOf(input)
  {
    var chunks: seq<string> := [];
    for i := 0 to |input|
      invariant Concat(chunks) == StringCaseOf(input[..i])
    {
      if i != 0 && IsUpper(input[i]) {
        chunks := chunks + [" "];
      }
      assert Concat(chunks + [[Lower(input[i])]]) == Concat(chunks) + [Lower(input[i])];
      chunks := chunks + [[Lower(input[i])]];
      assert input[..i + 1][..i] == input[..i];
    }
    assert input[..|input|] == input;
    output := Concat(chunks);
  }

  // ---------------------------------------------------------------------------
  // An independent reading: split into case-delimited words, lower-case each,
  // join them with single spaces.

  /**
   * The words of `s`: a new word starts at every upper-case rune that is not
   * the first rune; every other rune extends the current word.
   */
  function Words(s: string): (ws: seq<string>)
    ensures s == [] <==> ws == []
    decreases |s|
  {
    if s == [] then []
    else if |s| == 1 then [s]
    else
      var ws := Words(s[..|s| - 1]);
      var c := s[|s| - 1];
      if IsUpper(c) then ws + [[c]]
      else ws[..|ws| - 1] + [ws[|ws| - 1] + [c]]
  }

  /** Lower-case every word and join them with single spaces. */
  function JoinWords(ws: seq<string>): string
  {
    if ws == [] then ""
    else JoinWords(ws[..|ws| - 1]) + (if |ws| > 1 then " " else "") + LowerAll(ws[|ws| - 1])
  }

  lemma LowerAllAppend(a: string, b: string)
    ensures LowerAll(a + b) == LowerAll(a) + LowerAll(b)
  {
  }

  /** The conversion is the word-splitting reading: split, lower-case, join with spaces. */
  lemma {:induction false} StringCaseJoinsWords(s: string)
    ensures StringCaseOf(s) == JoinWords(Words(s))
    decreases |s|
  {
    if |s| > 1 {
      var p, c := s[..|s| - 1], s[|s| - 1];
      StringCaseJoinsWords(p);
      var ws := Words(p);
      if !IsUpper(c) {
        var init, last := ws[..|ws| - 1], ws[|ws| - 1];
        DropLast(ws);
        assert (init + [last + [c]])[..|init|] == init;
        LowerAllAppend(last, [c]);
      }
    }
  }

  /** Concatenating the words gives back the input: nothing is dropped or reordered. */
  lemma {:induction false} WordsPartition(s: string)
    ensures Concat(Words(s)) == s
    decreases |s|
  {
    if |s| > 1 {
      var p, c := s[..|s| - 1], s[|s| - 1];
      WordsPartition(p);
      var ws := Words(p);
      if IsUpper(c) {
        assert (ws + [[c]])[..|ws|] == ws;
      } else {
        var init, last := ws[..|ws| - 1], ws[|ws| - 1];
        DropLast(ws);
        assert (init + [last + [c]])[..|init|] == init;
      }
      assert p + [c] == s;
    } else if |s| == 1 {
      assert Concat([s]) == Concat([]) + s;
    }
  }

  /** Every word is non-empty, every word after the first starts with an upper-case rune, and no word holds an upper-case rune after its first. */
  lemma {:induction false} WordsAreCaseDelimited(s: string)
    ensures forall i :: 0 <= i < |Words(s)| ==> Words(s)[i] != []
    ensures forall i :: 0 < i < |Words(s)| ==> IsUpper(Words(s)[i][0])
    ensures forall i, j :: 0 <= i < |Words(s)| && 0 < j < |Words(s)[i]| ==> !IsUpper(Words(s)[i][j])
    decreases |s|
  {
    if |s| > 1 {
      WordsAreCaseDelimited(s[..|s| - 1]);
    }
  }

  // ---------------------------------------------------------------------------
  // Direct properties.

  /** The output holds no upper-case rune. */
  lemma {:induction false} NoUpperInOutput(s: string)
    ensures forall i :: 0 <= i < |StringCaseOf(s)| ==> !IsUpper(StringCaseOf(s)[i])
    decreases |s|
  {
    if s != [] {
      NoUpperInOutput(s[..|s| - 1]);
    }
  }

  /** The number of upper-case runes after the first rune. */
  function UpperAfterFirst(s: string): nat
    decreases |s|
  {
    if |s| <= 1 then 0
    else UpperAfterFirst(s[..|s| - 1]) + (if IsUpper(s[|s| - 1]) then 1 else 0)
  }

  /** Exactly one rune is added per upper-case rune after the first. */
  lemma {:induction false} OutputLength(s: string)
    ensures |StringCaseOf(s)| == |s| + UpperAfterFirst(s)
    decreases |s|
  {
    if s != [] {
      OutputLength(s[..|s| - 1]);
    }
  }

  /** The first rune is only lower-cased: a leading capital adds no space. */
  lemma {:induction false} FirstRuneNoSpace(c: char, rest: string)
    ensures StringCaseOf([c] + rest) == StringCaseOf([Lower(c)] + rest)
    decreases |rest|
  {
    if rest != [] {
      var n := |rest|;
      assert ([c] + rest)[..n] == [c] + rest[..n - 1];
      assert ([Lower(c)] + rest)[..n] == [Lower(c)] + rest[..n - 1];
      FirstRuneNoSpace(c, rest[..n - 1]);
    }
  }

  /** A word without upper-case runes after its first is only lower-cased. */
  lemma {:induction false} SingleWord(w: string)
    requires forall j :: 0 < j < |w| ==> !IsUpper(w[j])
    ensures StringCaseOf(w) == LowerAll(w)
    decreases |w|
  {
    if w != [] {
      SingleWord(w[..|w| - 1]);
    }
  }

  /** One more rune after the first appends its chunk. */
  lemma StringCaseSnoc(s: string, c: char)
    requires s != []
    ensures StringCaseOf(s + [c]) == StringCaseOf(s) + Chunk(c, false)
  {
    assert (s + [c])[..|s + [c]| - 1] == s;
  }

  /** Appending one upper-case rune adds a space and the rune in lower case. */
  lemma AppendCapital(a: string, c: char)
    requires a != [] && IsUpper(c)
    ensures StringCaseOf(a + [c]) == StringCaseOf(a) + (" " + LowerAll([c]))
  {
    StringCaseSnoc(a, c);
    assert Chunk(c, false) == " " + LowerAll([c]);
  }

  /** A non-empty sequence is its prefix followed by its last element. */
  lemma DropLast<T>(w: seq<T>)
    requires w != []
    ensures w[..|w| - 1] + [w[|w| - 1]] == w
  {
  }

  /** Concatenation is associative. */
  lemma ConcatAssoc(x: string, y: string, z: string)
    ensures (x + y) + z == x + (y + z)
  {
  }

  /** A lower-case rune after a word extends that word. */
  lemma ExtendWord(a: string, init: string, last: char)
    requires a != [] && !IsUpper(last)
    requires StringCaseOf(a + init) == StringCaseOf(a) + (" " + LowerAll(init))
    ensures StringCaseOf(a + (init + [last])) == StringCaseOf(a) + (" " + LowerAll(init + [last]))
  {
    var l := [Lower(last)];
    ConcatAssoc(a, init, [last]);
    StringCaseSnoc(a + init, last);
    assert Chunk(last, false) == l;
    LowerAllAppend(init, [last]);
    assert LowerAll([last]) == l;
    ConcatAssoc(" ", LowerAll(init), l);
    ConcatAssoc(StringCaseOf(a), " " + LowerAll(init), l);
  }

  /** Appending a capitalised word adds one space and the word in lower case. */
  lemma {:induction false} AppendWord(a: string, w: string)
    requires a != [] && w != [] && IsUpper(w[0])
    requires forall j :: 0 < j < |w| ==> !IsUpper(w[j])
    ensures StringCaseOf(a + w) == StringCaseOf(a) + (" " + LowerAll(w))
    decreases |w|
  {
    if |w| == 1 {
      assert w == [w[0]];
      AppendCapital(a, w[0]);
    } else {
      var init, last := w[..|w| - 1], w[|w| - 1];
      AppendWord(a, init);
      ExtendWord(a, init, last);
      DropLast(w);
    }
  }

  /** Two words, the second capitalised, come out lower-cased with one space between them. */
  lemma TwoWords(a: string, w: string)
    requires a != [] && forall j :: 0 < j < |a| ==> !IsUpper(a[j])
    requires w != [] && IsUpper(w[0]) && forall j :: 0 < j < |w| ==> !IsUpper(w[j])
    ensures StringCaseOf(a + w) == LowerAll(a) + (" " + LowerAll(w))
  {
    SingleWord(a);
    AppendWord(a, w);
  }

  lemma ExampleEmpty()
    ensures StringCaseOf("") == ""
  {
  }

  lemma ExampleLowerStart()
    ensures StringCaseOf("fooBar") == "foo bar"
  {
    var a, w := "foo", "Bar";
    assert a + w == "fooBar";
    TwoWords(a, w);
    assert LowerAll(a) == "foo" && LowerAll(w) == "bar";
  }

  lemma ExampleUpperStart()
    ensures StringCaseOf("FooBar") == "foo bar"
  {
    var a, w := "Foo", "Bar";
    assert a + w == "FooBar";
    TwoWords(a, w);
    assert LowerAll(a) == "foo" && LowerAll(w) == "bar";
  }

  lemma ExampleKind()
    ensures StringCaseOf("authenticationError") == "authentication error"
  {
    var a, w := "authentication", "Error";
    assert a + w == "authenticationError";
    TwoWords(a, w);
    assert LowerAll(a) == a && LowerAll(w) == "error";
  }
}
