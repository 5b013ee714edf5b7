/**
 * The pieces of Python's `str` and `re` that the encoding tools use:
 * `split('\n')`, `'\n'.join`, `startswith`, `strip()` emptiness, substring
 * tests, and a search for the pattern `coding[:=]\s*utf-?8` under
 * `re.IGNORECASE`.
 */
module PyText {

  const Newline: char := '\n'

  /** Python's `str.isspace()` for one character; `\s` and `strip()` use the same set. */
  predicate IsSpace(c: char) {
    var n := c as int;
    (0x09 <= n <= 0x0D) || (0x1C <= n <= 0x20) || n == 0x85 || n == 0xA0 || n == 0x1680
    || (0x2000 <= n <= 0x200A) || n == 0x2028 || n == 0x2029 || n == 0x202F || n == 0x205F
    || n == 0x3000
  }

  /** `s.strip()` is non-empty: some character is not whitespace. */
  predicate HasNonSpace(s: string) {
    exists i :: 0 <= i < |s| && !IsSpace(s[i])
  }

  /** `s.startswith(p)`. */
  predicate StartsWith(s: string, p: string) {
    |p| <= |s| && s[..|p|] == p
  }

  /** `s.endswith(p)`. */
  predicate EndsWith(s: string, p: string) {
    |p| <= |s| && s[|s| - |p|..] == p
  }

  /** `needle in hay` for strings. */
  predicate Contains(hay: string, needle: string)
    decreases |hay|
  {
    StartsWith(hay, needle) || (|hay| > 0 && Contains(hay[1..], needle))
  }

  /** The empty string is a substring of every string. */
  lemma EmptyContained(hay: string)
    ensures Contains(hay, "")
  {
  }

  /** A string has no line break. */
  predicate OneLine(s: string) {
    Newline !in s
  }

  /** `s.split('\n')`: never empty, and no piece holds a line break. */
  function Split(s: string): (lines: seq<string>)
    ensures |lines| >= 1
    ensures forall k :: 0 <= k < |lines| ==> OneLine(lines[k])
  {
    if |s| == 0 then [""]
    else
      var rest := Split(s[1..]);
      if s[0] == Newline then [""] + rest
      else [[s[0]] + rest[0]] + rest[1..]
  }

  /** `'\n'.join(lines)`. */
  function Join(lines: seq<string>): string {
    if |lines| == 0 then ""
    else if |lines| == 1 then lines[0]
    else lines[0] + [Newline] + Join(lines[1..])
  }

  /** A line with no break, then a break, then `s`, splits into that line and the pieces of `s`. */
  lemma {:induction false} SplitLeadingLine(line: string, s: string)
    requires OneLine(line)
    ensures Split(line + [Newline] + s) == [line] + Split(s)
  {
    if |line| == 0 {
      assert line + [Newline] + s == [Newline] + s;
      assert ([Newline] + s)[1..] == s;
    } else {
      var t := line + [Newline] + s;
      assert t[1..] == line[1..] + [Newline] + s;
      SplitLeadingLine(line[1..], s);
      assert [line[0]] + line[1..] == line;
    }
  }

  /** Splitting a line without breaks gives that line alone. */
  lemma {:induction false} SplitOneLine(line: string)
    requires OneLine(line)
    ensures Split(line) == [line]
  {
    if |line| > 0 {
      SplitOneLine(line[1..]);
      assert [line[0]] + line[1..] == line;
    }
  }

  /** Splitting undoes joining lines that hold no break. */
  lemma {:induction false} SplitJoin(lines: seq<string>)
    requires |lines| >= 1
    requires forall k :: 0 <= k < |lines| ==> OneLine(lines[k])
    ensures Split(Join(lines)) == lines
  {
    if |lines| == 1 {
      SplitOneLine(lines[0]);
    } else {
      SplitJoin(lines[1..]);
      SplitLeadingLine(lines[0], Join(lines[1..]));
      assert [lines[0]] + lines[1..] == lines;
    }
  }

  /** Joining undoes splitting. */
  lemma {:induction false} JoinSplit(s: string)
    ensures Join(Split(s)) == s
  {
    if |s| > 0 {
      JoinSplit(s[1..]);
      var rest := Split(s[1..]);
      if s[0] == Newline {
        assert Join([""] + rest) == "" + [Newline] + Join(rest);
      } else {
        var lines := [[s[0]] + rest[0]] + rest[1..];
        if |rest| == 1 {
          assert Join(lines) == [s[0]] + rest[0];
        } else {
          assert lines[1..] == rest[1..];
          assert Join(lines) == [s[0]] + rest[0] + [Newline] + Join(rest[1..]);
          assert Join(rest) == rest[0] + [Newline] + Join(rest[1..]);
        }
      }
      assert [s[0]] + s[1..] == s;
    }
  }

  /**
   * One character against one lower-case letter of the pattern under
   * `re.IGNORECASE`: the letter, its upper case, and for `i` also U+0130
   * (whose lower case is `i`) and the dotless U+0131 that `re` treats as equal.
   */
  predicate FoldsTo(c: char, lower: char) {
    c == lower
    || ('a' <= lower <= 'z' && c as int == lower as int - 32)
    || (lower == 'i' && (c as int == 0x130 || c as int == 0x131))
  }

  /** The first `|word|` characters of `s` match the lower-case `word` ignoring case. */
  predicate FoldedPrefix(s: string, word: string) {
    |word| <= |s| && forall k :: 0 <= k < |word| ==> FoldsTo(s[k], word[k])
  }

  /** `utf-8` or `utf8`, ignoring case, at the start of `s`. */
  predicate Utf8Here(s: string) {
    FoldedPrefix(s, "utf")
    && ((|s| >= 5 && s[3] == '-' && s[4] == '8') || (|s| >= 4 && s[3] == '8'))
  }

  /** `\s*` followed by `utf-?8` at the start of `s`. */
  predicate SpacesThenUtf8(s: string)
    decreases |s|
  {
    Utf8Here(s) || (|s| > 0 && IsSpace(s[0]) && SpacesThenUtf8(s[1..]))
  }

  /** The whole pattern `coding[:=]\s*utf-?8` matches at the start of `s`. */
  predicate DeclarationHere(s: string) {
    FoldedPrefix(s, "coding") && |s| > 6 && (s[6] == ':' || s[6] == '=') && SpacesThenUtf8(s[7..])
  }

  /**
   * `re.search` of the two patterns `coding[:=]\s*utf-8` and
   * `coding[:=]\s*utf8` (IGNORECASE) somewhere in `line`.
   */
  predicate DeclaresUtf8(line: string)
    decreases |line|
  {
    DeclarationHere(line) || (|line| > 0 && DeclaresUtf8(line[1..]))
  }

  /** The line that both tools insert. */
  const Utf8Declaration: string := "# -*- coding: utf-8 -*-"

  /** An exact lower-case prefix matches ignoring case. */
  lemma ExactPrefixFolds(s: string, word: string)
    requires StartsWith(s, word)
    ensures FoldedPrefix(s, word)
  {
    forall k | 0 <= k < |word|
      ensures FoldsTo(s[k], word[k])
    {
      assert s[..|word|][k] == s[k];
    }
  }

  /** A match found at offset `i` is a match of the search over the whole line. */
  lemma {:induction false} SearchFindsSuffix(line: string, i: nat)
    requires i <= |line| && DeclaresUtf8(line[i..])
    ensures DeclaresUtf8(line)
  {
    if i > 0 {
      assert line[1..][i - 1..] == line[i..];
      SearchFindsSuffix(line[1..], i - 1);
    } else {
      assert line[0..] == line;
    }
  }

  /** `utf-8` spelled out at the start of `s` is a match of `utf-?8`. */
  lemma Utf8Spelled(s: string)
    requires StartsWith(s, "utf-8")
    ensures Utf8Here(s)
  {
    assert s[..3] == s[..5][..3] == "utf";
    ExactPrefixFolds(s, "utf");
    assert s[3] == s[..5][3] && s[4] == s[..5][4];
  }

  /** `coding: utf-8` spelled out at the start of `s` is a match of the whole pattern. */
  lemma DeclarationSpelled(s: string)
    requires StartsWith(s, "coding: utf-8")
    ensures DeclarationHere(s)
  {
    var p := s[..13];
    assert s[..6] == p[..6] == "coding";
    ExactPrefixFolds(s, "coding");
    assert s[6] == p[6] == ':';
    var rest := s[7..];
    assert rest[0] == p[7] == ' ';
    assert rest[1..][..5] == p[8..13] == "utf-8";
    Utf8Spelled(rest[1..]);
  }

  /** The inserted line is itself a declaration the search finds, and holds no break. */
  lemma DeclarationDeclares()
    ensures DeclaresUtf8(Utf8Declaration)
    ensures OneLine(Utf8Declaration)
  {
    var d := Utf8Declaration;
    assert DeclaresUtf8(d) by {
      assert d[6..][..13] == "coding: utf-8";
      DeclarationSpelled(d[6..]);
      SearchFindsSuffix(d, 6);
    }
  }
}
