/**
 * `clean_text` on text built from words, marks and tags, and the inputs of
 * the `clean_text` unit test (test_app.py, lines 48-72), each proved to
 * clean to an exact string, which implies what the test asserts.
 */
module CleanTextSamples {
  import opened Subsequences
  import opened Preprocessing

  predicate IsLetterOrSpace(c: char) {
    ('a' <= c <= 'z') || ('A' <= c <= 'Z') || c == ' '
  }

  predicate IsWord(u: string) {
    forall i :: 0 <= i < |u| ==> IsLetterOrSpace(u[i])
  }

  /** One piece of a text: a run of letters and spaces, a single character, or a tag `<inner>`. */
  datatype Piece = Word(w: string) | Mark(c: char) | Tag(inner: string)

  /** The text the pieces spell. */
  function Spell(ps: seq<Piece>): string {
    if ps == [] then ""
    else
      var head := match ps[0]
        case Word(w) => w
        case Mark(c) => [c]
        case Tag(inner) => "<" + inner + ">";
      head + Spell(ps[1..])
  }

  /** The words alone, in order. */
  function Words(ps: seq<Piece>): string {
    if ps == [] then ""
    else if ps[0].Word? then ps[0].w + Words(ps[1..])
    else Words(ps[1..])
  }

  lemma {:induction false} SpellAppend(ps: seq<Piece>, qs: seq<Piece>)
    ensures Spell(ps + qs) == Spell(ps) + Spell(qs)
  {
    if ps == [] {
      assert ps + qs == qs;
    } else {
      assert (ps + qs)[1..] == ps[1..] + qs;
      SpellAppend(ps[1..], qs);
    }
  }

  lemma {:induction false} WordsAppend(ps: seq<Piece>, qs: seq<Piece>)
    ensures Words(ps + qs) == Words(ps) + Words(qs)
  {
    if ps == [] {
      assert ps + qs == qs;
    } else {
      assert (ps + qs)[1..] == ps[1..] + qs;
      WordsAppend(ps[1..], qs);
    }
  }

  /** Words are letters and spaces, marks are digits or punctuation other than `<`, tags close on their line. */
  predicate WellFormed(p: Piece, isDigit: char -> bool) {
    match p
    case Word(w) => IsWord(w)
    case Mark(c) => (isDigit(c) || IsPunct(c)) && c != '<'
    case Tag(inner) => forall i :: 0 <= i < |inner| ==> inner[i] != '>' && inner[i] != '\n'
  }

  /** Letters and spaces are neither digits nor punctuation. */
  lemma WordIsKept(u: string, isDigit: char -> bool)
    requires IsDigitClass(isDigit)
    requires IsWord(u)
    ensures Avoids(u, isDigit) && Avoids(u, IsPunct)
  {
  }

  /** Tags and marks vanish; the words survive, lowercased and in order. */
  lemma {:induction false} CleanTextSpell(ps: seq<Piece>, isDigit: char -> bool)
    requires IsDigitClass(isDigit)
    requires forall k :: 0 <= k < |ps| ==> WellFormed(ps[k], isDigit)
    ensures CleanText(Spell(ps), isDigit) == Lower(Words(ps))
  {
    if ps == [] {
      CleanTextEmpty(isDigit);
    } else {
      var rest := Spell(ps[1..]);
      CleanTextSpell(ps[1..], isDigit);
      match ps[0]
      case Word(w) =>
        WordIsKept(w, isDigit);
        CleanTextPlainPrefix(w, rest, isDigit);
        LowerAppend(w, Words(ps[1..]));
      case Mark(c) =>
        CleanTextDropsSymbol(c, rest, isDigit);
      case Tag(inner) =>
        CleanTextDropsTag(inner, rest, isDigit);
    }
  }

  // ---------------------------------------------------------------- "THIS IS A TEST"

  lemma UppercaseSampleLowered()
    ensures Lower("THIS IS A TEST") == "this is a test"
  {
  }

  /** The one exact equality the unit test asserts. */
  lemma UppercaseSample(isDigit: char -> bool)
    requires IsDigitClass(isDigit)
    ensures CleanText("THIS IS A TEST", isDigit) == "this is a test"
  {
    var ps := [Word("THIS IS A TEST")];
    assert Spell(ps) == "THIS IS A TEST" && Words(ps) == "THIS IS A TEST";
    CleanTextSpell(ps, isDigit);
    UppercaseSampleLowered();
  }

  // ---------------------------------------------------------------- punctuation

  const PunctuationPieces: seq<Piece> :=
    [Word("Hello"), Mark(','), Word(" world"), Mark('!'), Word(" How are you"), Mark('?')]

  lemma PunctuationPiecesWellFormed(isDigit: char -> bool)
    requires IsDigitClass(isDigit)
    ensures forall k :: 0 <= k < |PunctuationPieces| ==> WellFormed(PunctuationPieces[k], isDigit)
  {
  }

  lemma PunctuationSampleSpelled()
    ensures Spell(PunctuationPieces) == "Hello, world! How are you?"
  {
  }

  lemma PunctuationSampleWords()
    ensures Words(PunctuationPieces) == "Hello world How are you"
  {
  }

  lemma PunctuationSampleLowered()
    ensures Lower("Hello world How are you") == "hello world how are you"
  {
  }

  /** The test asserts that `,`, `!` and `?` are gone; the words and spaces between them stay. */
  lemma PunctuationSample(isDigit: char -> bool)
    requires IsDigitClass(isDigit)
    ensures CleanText("Hello, world! How are you?", isDigit) == "hello world how are you"
  {
    PunctuationSampleSpelled();
    PunctuationSampleWords();
    PunctuationSampleLowered();
    PunctuationPiecesWellFormed(isDigit);
    CleanTextSpell(PunctuationPieces, isDigit);
  }

  // ---------------------------------------------------------------- HTML tags

  const HtmlFront: seq<Piece> := [Tag("p"), Word("This is a "), Tag("b")]
  const HtmlBack: seq<Piece> := [Word("test"), Tag("/b"), Word(" review"), Tag("/p")]
  const HtmlPieces: seq<Piece> := HtmlFront + HtmlBack

  lemma HtmlFrontSpelled()
    ensures Spell(HtmlFront) == "<p>This is a <b>"
  {
  }

  lemma HtmlBackSpelled()
    ensures Spell(HtmlBack) == "test</b> review</p>"
  {
  }

  lemma HtmlPiecesWellFormed(isDigit: char -> bool)
    requires IsDigitClass(isDigit)
    ensures forall k :: 0 <= k < |HtmlPieces| ==> WellFormed(HtmlPieces[k], isDigit)
  {
  }

  lemma HtmlSampleSpelled()
    ensures Spell(HtmlPieces) == "<p>This is a <b>test</b> review</p>"
  {
    HtmlFrontSpelled();
    HtmlBackSpelled();
    SpellAppend(HtmlFront, HtmlBack);
  }

  lemma HtmlSampleWords()
    ensures Words(HtmlPieces) == "This is a test review"
  {
    assert Words(HtmlFront) == "This is a ";
    assert Words(HtmlBack) == "test review";
    WordsAppend(HtmlFront, HtmlBack);
  }

  lemma HtmlSampleLowered()
    ensures Lower("This is a test review") == "this is a test review"
  {
  }

  /** The test asserts that no `<` and no `>` survive; the text between the tags does. */
  lemma HtmlSample(isDigit: char -> bool)
    requires IsDigitClass(isDigit)
    ensures CleanText("<p>This is a <b>test</b> review</p>", isDigit) == "this is a test review"
  {
    HtmlSampleSpelled();
    HtmlSampleWords();
    HtmlSampleLowered();
    HtmlPiecesWellFormed(isDigit);
    CleanTextSpell(HtmlPieces, isDigit);
  }

  // ---------------------------------------------------------------- numbers

  /** `10/10` loses its digits first and then its slash. */
  const NumberFront: seq<Piece> := [Word("This movie got "), Mark('5'), Word(" stars and ")]
  const NumberBack: seq<Piece> := [Mark('1'), Mark('0'), Mark('/'), Mark('1'), Mark('0'), Word(" rating")]
  const NumberPieces: seq<Piece> := NumberFront + NumberBack

  lemma NumberFrontSpelled()
    ensures Spell(NumberFront) == "This movie got 5 stars and "
  {
  }

  lemma NumberBackSpelled()
    ensures Spell(NumberBack) == "10/10 rating"
  {
  }

  lemma NumberPiecesWellFormed(isDigit: char -> bool)
    requires IsDigitClass(isDigit)
    ensures forall k :: 0 <= k < |NumberPieces| ==> WellFormed(NumberPieces[k], isDigit)
  {
  }

  lemma NumberSampleSpelled()
    ensures Spell(NumberPieces) == "This movie got 5 stars and 10/10 rating"
  {
    NumberFrontSpelled();
    NumberBackSpelled();
    SpellAppend(NumberFront, NumberBack);
  }

  lemma NumberSampleWords()
    ensures Words(NumberPieces) == "This movie got  stars and  rating"
  {
    assert Words(NumberFront) == "This movie got  stars and ";
    assert Words(NumberBack) == " rating";
    WordsAppend(NumberFront, NumberBack);
  }

  lemma NumberSampleLowered()
    ensures Lower("This movie got  stars and  rating") == "this movie got  stars and  rating"
  {
  }

  /** The test asserts that `5` and `10` are gone; the spaces around them stay. */
  lemma NumberSample(isDigit: char -> bool)
    requires IsDigitClass(isDigit)
    ensures CleanText("This movie got 5 stars and 10/10 rating", isDigit) == "this movie got  stars and  rating"
  {
    NumberSampleSpelled();
    NumberSampleWords();
    NumberSampleLowered();
    NumberPiecesWellFormed(isDigit);
    CleanTextSpell(NumberPieces, isDigit);
  }
}
