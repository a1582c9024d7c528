/**
 * The text cleaner `clean_text` of app.py: lowercase, delete HTML-like tags
 * `<.*?>`, delete digit runs `\d+`, delete `string.punctuation`.
 */
module Preprocessing {
  import opened Wrappers
  import opened Subsequences

  // ---------------------------------------------------------------- lowercase

  predicate IsUpper(c: char) {
    'A' <= c <= 'Z'
  }

  /** ASCII lowercasing of one character. */
  function LowerChar(c: char): (r: char)
    ensures !IsUpper(r)
    ensures !IsUpper(c) ==> r == c
    ensures IsUpper(c) ==> 'a' <= r <= 'z' && r as int - 'a' as int == c as int - 'A' as int
  {
    if IsUpper(c) then (c as int + 32) as char else c
  }

  /** `text.lower()`: every character lowercased, length kept. */
  function Lower(s: string): (r: string)
    ensures |r| == |s|
    ensures forall i :: 0 <= i < |s| ==> r[i] == LowerChar(s[i])
    ensures Avoids(r, IsUpper)
    ensures Avoids(s, IsUpper) ==> r == s
  {
    seq(|s|, i requires 0 <= i < |s| => LowerChar(s[i]))
  }

  lemma LowerKeepsChar(c: char, v: string)
    requires !IsUpper(c)
    ensures Lower([c] + v) == [c] + Lower(v)
  {
  }

  lemma LowerAppend(u: string, v: string)
    ensures Lower(u + v) == Lower(u) + Lower(v)
  {
  }

  // ---------------------------------------------------------------- tags

  /**
   * Where the non-greedy `.*?>` that follows a `<` ends: the index in `t`
   * of the first `>`, provided no `\n` comes before it (`.` does not match
   * a newline). None when no `>` can be reached on the same line.
   */
  function CloseAt(t: string): (r: Option<nat>)
    ensures r.Some? ==> r.value < |t| && t[r.value] == '>'
    ensures r.Some? ==> forall k :: 0 <= k < r.value ==> t[k] != '>' && t[k] != '\n'
    ensures r.None? ==> forall j :: 0 <= j < |t| && t[j] == '>' ==> '\n' in t[..j]
  {
    if t == [] then None
    else if t[0] == '>' then Some(0)
    else if t[0] == '\n' then None
    else
      match CloseAt(t[1..])
      case Some(j) => Some(j + 1)
      case None =>
        assert forall j :: 1 <= j < |t| ==> t[1..][..j - 1] == t[1..j];
        None
  }

  /**
   * `re.sub(r"<.*?>", "", s)`: scanning left to right, a `<` whose tag
   * closes on the same line is deleted together with everything up to and
   * including the closing `>`; any other character is kept.
   */
  function StripTags(s: string): (r: string)
    ensures IsSubseq(r, s)
    ensures (forall i :: 0 <= i < |s| ==> s[i] != '<') ==> r == s
    decreases |s|
  {
    if s == [] then []
    else if s[0] == '<' && CloseAt(s[1..]).Some? then
      var rest := s[CloseAt(s[1..]).value + 2..];
      var r := StripTags(rest);
      SubseqOfSuffix(r, s, CloseAt(s[1..]).value + 2);
      r
    else
      var r := StripTags(s[1..]);
      assert ([s[0]] + r)[1..] == r;
      [s[0]] + r
  }

  lemma StripTagsKeepsChar(c: char, t: string)
    requires c != '<'
    ensures StripTags([c] + t) == [c] + StripTags(t)
  {
    assert ([c] + t)[1..] == t;
  }

  lemma {:induction false} StripTagsPlainPrefix(u: string, v: string)
    requires forall i :: 0 <= i < |u| ==> u[i] != '<'
    ensures StripTags(u + v) == u + StripTags(v)
    decreases |u|
  {
    if u == [] {
      assert u + v == v;
    } else {
      var x := StripTags(v);
      assert StripTags(u + v) == [u[0]] + StripTags(u[1..] + v) by {
        assert u + v == [u[0]] + (u[1..] + v);
        StripTagsKeepsChar(u[0], u[1..] + v);
      }
      assert StripTags(u[1..] + v) == u[1..] + x by {
        StripTagsPlainPrefix(u[1..], v);
      }
      assert [u[0]] + (u[1..] + x) == ([u[0]] + u[1..]) + x;
      assert u == [u[0]] + u[1..];
    }
  }

  lemma StripTagsDropsTag(inner: string, v: string)
    requires forall i :: 0 <= i < |inner| ==> inner[i] != '>' && inner[i] != '\n'
    ensures StripTags("<" + inner + ">" + v) == StripTags(v)
  {
    var s := "<" + inner + ">" + v;
    var t := s[1..];
    assert t == inner + ">" + v;
    assert t[|inner|] == '>';
    assert t[..|inner|] == inner;
    assert s[|inner| + 2..] == v;
  }

  /** A `<` whose tag does not close on its line is kept, and the scan goes on right after it. */
  lemma StripTagsKeepsUnclosed(t: string)
    requires CloseAt(t).None?
    ensures StripTags("<" + t) == "<" + StripTags(t)
  {
    assert ("<" + t)[1..] == t;
  }

  /** Lowercasing moves no `>` and no newline, so the tag ends where it did. */
  lemma {:induction false} CloseAtLower(t: string)
    ensures CloseAt(Lower(t)) == CloseAt(t)
    decreases |t|
  {
    if t != [] {
      assert Lower(t)[1..] == Lower(t[1..]);
      CloseAtLower(t[1..]);
    }
  }

  lemma {:induction false} StripTagsClosedTagsGone(s: string)
    requires forall i :: 0 <= i < |s| && s[i] == '<' ==> CloseAt(s[i + 1..]).Some?
    ensures forall i :: 0 <= i < |StripTags(s)| ==> StripTags(s)[i] != '<'
    decreases |s|
  {
    if s != [] {
      if s[0] == '<' {
        assert s[0 + 1..] == s[1..];
        var k := CloseAt(s[1..]).value + 2;
        var rest := s[k..];
        forall i | 0 <= i < |rest| && rest[i] == '<' ensures CloseAt(rest[i + 1..]).Some? {
          assert rest[i + 1..] == s[k + i + 1..];
        }
        StripTagsClosedTagsGone(rest);
      } else {
        var rest := s[1..];
        forall i | 0 <= i < |rest| && rest[i] == '<' ensures CloseAt(rest[i + 1..]).Some? {
          assert rest[i + 1..] == s[1 + i + 1..];
        }
        StripTagsClosedTagsGone(rest);
      }
    }
  }

  // ---------------------------------------------------------------- deletion

  /** `s` with every character satisfying `drop` deleted. */
  function Remove(s: string, drop: char -> bool): (r: string)
    ensures IsSubseq(r, s)
    ensures Avoids(r, drop)
    ensures Avoids(s, drop) ==> r == s
  {
    if s == [] then []
    else
      var r := Remove(s[1..], drop);
      if drop(s[0]) then r
      else
        assert ([s[0]] + r)[1..] == r;
        [s[0]] + r
  }

  /** Every character that is not dropped is kept as often as it occurs. */
  lemma {:induction false} RemoveKeepsOthers(s: string, drop: char -> bool, c: char)
    requires !drop(c)
    ensures multiset(Remove(s, drop))[c] == multiset(s)[c]
    decreases |s|
  {
    if s != [] {
      RemoveKeepsOthers(s[1..], drop, c);
      assert s == [s[0]] + s[1..];
      if !drop(s[0]) {
        assert Remove(s, drop) == [s[0]] + Remove(s[1..], drop);
      }
    }
  }

  lemma RemoveCons(c: char, t: string, drop: char -> bool)
    ensures Remove([c] + t, drop) == if drop(c) then Remove(t, drop) else [c] + Remove(t, drop)
  {
    assert ([c] + t)[1..] == t;
  }

  lemma {:induction false} RemoveAppend(u: string, v: string, drop: char -> bool)
    ensures Remove(u + v, drop) == Remove(u, drop) + Remove(v, drop)
    decreases |u|
  {
    if u != [] {
      var w := u + v;
      assert w[0] == u[0] && w[1..] == u[1..] + v;
      RemoveAppend(u[1..], v, drop);
      if drop(u[0]) {
        assert Remove(w, drop) == Remove(w[1..], drop);
      } else {
        assert Remove(w, drop) == [u[0]] + Remove(w[1..], drop);
        assert Remove(u, drop) == [u[0]] + Remove(u[1..], drop);
      }
    } else {
      assert u + v == v;
    }
  }

  /** Python's `\d` on the ASCII range: exactly `0`-`9`. */
  ghost predicate IsDigitClass(isDigit: char -> bool) {
    forall c :: c < 128 as char ==> (isDigit(c) <==> '0' <= c <= '9')
  }

  /** `re.sub(r"\d+", "", s)`: deleting every maximal digit run deletes every digit. */
  function StripDigits(s: string, isDigit: char -> bool): (r: string)
    ensures IsSubseq(r, s)
    ensures IsDigitClass(isDigit) ==> forall i :: 0 <= i < |r| ==> !('0' <= r[i] <= '9')
    ensures Avoids(s, isDigit) ==> r == s
  {
    Remove(s, isDigit)
  }

  /** Python's `string.punctuation`. */
  const Punctuation: string := "!\"#$%&'()*+,-./:;<=>?@[\\]^_`{|}~"

  /** The printable ASCII characters that are not letters, digits or space. */
  predicate IsPunct(c: char) {
    ('!' <= c <= '/') || (':' <= c <= '@') || ('[' <= c <= '`') || ('{' <= c <= '~')
  }

  /** Every character of `string.punctuation` is `IsPunct`. */
  lemma PunctuationIsPunct()
    ensures |Punctuation| == 32
    ensures forall i :: 0 <= i < |Punctuation| ==> IsPunct(Punctuation[i])
  {
  }

  /** ... and every `IsPunct` character is in `string.punctuation`: its block starts at a known offset. */
  lemma PunctIsInPunctuation(c: char)
    requires IsPunct(c)
    ensures c in Punctuation
  {
    if c <= '/' {
      assert Punctuation[..15] == "!\"#$%&'()*+,-./";
      assert Punctuation[c as int - '!' as int] == c;
    } else if c <= '@' {
      assert Punctuation[15..22] == ":;<=>?@";
      assert Punctuation[c as int - ':' as int + 15] == c;
    } else if c <= '`' {
      assert Punctuation[22..28] == "[\\]^_`";
      assert Punctuation[c as int - '[' as int + 22] == c;
    } else {
      assert Punctuation[28..] == "{|}~";
      assert Punctuation[c as int - '{' as int + 28] == c;
    }
  }

  /** `IsPunct` holds exactly of the 32 characters of `string.punctuation`. */
  lemma PunctuationIsAsciiSymbols(c: char)
    ensures |Punctuation| == 32
    ensures c in Punctuation <==> IsPunct(c)
  {
    PunctuationIsPunct();
    if IsPunct(c) {
      PunctIsInPunctuation(c);
    }
  }

  /** `s.translate(str.maketrans("", "", string.punctuation))`. */
  function StripPunct(s: string): (r: string)
    ensures IsSubseq(r, s)
    ensures Avoids(r, IsPunct)
    ensures Avoids(s, IsPunct) ==> r == s
  {
    Remove(s, IsPunct)
  }

  /** No character of `string.punctuation` survives `StripPunct`. */
  lemma StripPunctRemovesPunctuation(s: string)
    ensures forall i :: 0 <= i < |StripPunct(s)| ==> StripPunct(s)[i] !in Punctuation
  {
    var r := StripPunct(s);
    forall i | 0 <= i < |r|
      ensures r[i] !in Punctuation
    {
      PunctuationIsAsciiSymbols(r[i]);
    }
  }

  // ---------------------------------------------------------------- clean_text

  /**
   * `clean_text`: the output has no ASCII uppercase letter, no digit and no
   * punctuation, and is the lowercased input with characters deleted.
   */
  function CleanText(text: string, isDigit: char -> bool): (r: string)
    ensures Avoids(r, IsUpper) && Avoids(r, isDigit) && Avoids(r, IsPunct)
    ensures IsSubseq(r, Lower(text))
  {
    var lowered := Lower(text);
    var untagged := StripTags(lowered);
    var undigited := StripDigits(untagged, isDigit);
    var r := StripPunct(undigited);
    SubseqTrans(undigited, untagged, lowered);
    SubseqTrans(r, undigited, lowered);
    SubseqAvoids(r, lowered, IsUpper);
    SubseqAvoids(r, undigited, isDigit);
    r
  }

  /** In the characters' own terms: no `A`-`Z`, no `0`-`9` and nothing of `string.punctuation` is left. */
  lemma CleanTextOutputCharacters(s: string, isDigit: char -> bool)
    requires IsDigitClass(isDigit)
    ensures forall i :: 0 <= i < |CleanText(s, isDigit)| ==>
      var c := CleanText(s, isDigit)[i];
      !('A' <= c <= 'Z') && !('0' <= c <= '9') && c !in Punctuation
  {
    var r := CleanText(s, isDigit);
    forall i | 0 <= i < |r|
      ensures !('A' <= r[i] <= 'Z') && !('0' <= r[i] <= '9') && r[i] !in Punctuation
    {
      PunctuationIsAsciiSymbols(r[i]);
    }
  }

  /** The strings `clean_text` leaves unchanged are exactly those with nothing for it to remove. */
  lemma CleanTextFixedPoints(s: string, isDigit: char -> bool)
    ensures CleanText(s, isDigit) == s <==>
      Avoids(s, IsUpper) && Avoids(s, isDigit) && Avoids(s, IsPunct)
  {
    if Avoids(s, IsUpper) && Avoids(s, isDigit) && Avoids(s, IsPunct) {
      assert IsPunct('<');
      assert Lower(s) == s;
      assert StripTags(s) == s;
    }
  }

  lemma CleanTextIdempotent(s: string, isDigit: char -> bool)
    ensures CleanText(CleanText(s, isDigit), isDigit) == CleanText(s, isDigit)
  {
    CleanTextFixedPoints(CleanText(s, isDigit), isDigit);
  }

  /**
   * Text outside tags with no digit or punctuation survives, lowercased and
   * in order: `clean_text(u + v)` is `u` lowercased followed by `clean_text(v)`.
   */
  lemma CleanTextPlainPrefix(u: string, v: string, isDigit: char -> bool)
    requires IsDigitClass(isDigit)
    requires Avoids(u, isDigit) && Avoids(u, IsPunct)
    ensures CleanText(u + v, isDigit) == Lower(u) + CleanText(v, isDigit)
  {
    var lu := Lower(u);
    forall i | 0 <= i < |lu| ensures lu[i] != '<' && !isDigit(lu[i]) && !IsPunct(lu[i]) {
      }
    LowerAppend(u, v);
    StripTagsPlainPrefix(lu, Lower(v));
    RemoveAppend(lu, StripTags(Lower(v)), isDigit);
    RemoveAppend(lu, StripDigits(StripTags(Lower(v)), isDigit), IsPunct);
  }

  lemma CleanTextEmpty(isDigit: char -> bool)
    ensures CleanText("", isDigit) == ""
  {
  }

  /**
   * An unclosed `<` is left by the tag stage but is punctuation, so the
   * cleaner drops it and nothing else: `clean_text("5 < 6\nok")` keeps the
   * text after the `<`.
   */
  lemma CleanTextDropsUnclosed(t: string, isDigit: char -> bool)
    requires IsDigitClass(isDigit)
    requires CloseAt(t).None?
    ensures CleanText("<" + t, isDigit) == CleanText(t, isDigit)
  {
    var lt := Lower(t);
    LowerKeepsChar('<', t);
    CloseAtLower(t);
    StripTagsKeepsUnclosed(lt);
    var st := StripTags(lt);
    RemoveCons('<', st, isDigit);
    RemoveCons('<', StripDigits(st, isDigit), IsPunct);
  }

  /** A digit or a punctuation character other than `<` is deleted wherever it stands outside a tag. */
  lemma CleanTextDropsSymbol(c: char, v: string, isDigit: char -> bool)
    requires IsDigitClass(isDigit)
    requires isDigit(c) || IsPunct(c)
    requires c != '<'
    ensures CleanText([c] + v, isDigit) == CleanText(v, isDigit)
  {
    var t := StripTags(Lower(v));
    var d := StripDigits(t, isDigit);
    LowerKeepsChar(c, v);
    StripTagsKeepsChar(c, Lower(v));
    RemoveCons(c, t, isDigit);
    if !isDigit(c) {
      RemoveCons(c, d, IsPunct);
    }
  }

  /** A tag that closes on its line is deleted whatever it holds. */
  lemma CleanTextDropsTag(inner: string, v: string, isDigit: char -> bool)
    requires forall i :: 0 <= i < |inner| ==> inner[i] != '>' && inner[i] != '\n'
    ensures CleanText("<" + inner + ">" + v, isDigit) == CleanText(v, isDigit)
  {
    LowerAppend("<" + inner + ">", v);
    LowerAppend("<" + inner, ">");
    LowerAppend("<", inner);
    assert Lower("<") == "<" && Lower(">") == ">";
    StripTagsDropsTag(Lower(inner), Lower(v));
  }
}
