/**
 * The line splitting step of `Buffer::from_file`: the text read from the file
 * is cut into lines with Rust's `str::lines`, and each line becomes an owned
 * `String`. Opening and reading the file are left to the caller; this module
 * starts from the text.
 *
 * `str::lines` splits at every '\n'; a single '\r' right before a '\n' is
 * part of that line ending and is dropped too; the last line needs no ending,
 * and an ending after it does not open a further, empty line. A '\r' that is
 * not followed by '\n' is ordinary text.
 */
module Buffer {
  import opened Strings

  /** `s` ends with the character `c`. */
  predicate EndsWith(s: string, c: char) {
    |s| > 0 && s[|s| - 1] == c
  }

  /** The text of a line whose ending was "\r\n": the '\r' goes. */
  function StripCr(s: string): (r: string)
    ensures EndsWith(s, '\r') ==> s == r + ['\r']
    ensures !EndsWith(s, '\r') ==> r == s
  {
    if EndsWith(s, '\r') then s[..|s| - 1] else s
  }

  /** `text.lines().map(|s| s.to_string()).collect()` (src/buffer.rs). */
  function Lines(text: string): (r: seq<string>)
    ensures text == [] <==> r == []
    decreases |text|
  {
    if text == [] then []
    else
      var i := IndexOf(text, '\n');
      if i == |text| then [text]
      else [StripCr(text[..i])] + Lines(text[i + 1..])
  }

  /** Each line followed by a '\n': the text a list of lines is written back as. */
  function Unlines(ls: seq<string>): (text: string)
    ensures ls == [] ==> text == []
    ensures ls != [] ==> EndsWith(text, '\n')
  {
    if ls == [] then [] else ls[0] + "\n" + Unlines(ls[1..])
  }

  lemma UnlinesCons(a: string, ls: seq<string>)
    ensures Unlines([a] + ls) == a + "\n" + Unlines(ls)
  {
    assert ([a] + ls)[1..] == ls;
  }

  /** The first line is everything up to the first '\n', less a '\r' right before it. */
  lemma LinesFirst(a: string, rest: string)
    requires '\n' !in a
    ensures Lines(a + "\n" + rest) == [StripCr(a)] + Lines(rest)
  {
    var text := a + "\n" + rest;
    IndexOfAfterPrefix(a, '\n', rest);
    assert text[..|a|] == a;
    assert text[|a| + 1..] == rest;
  }

  /** Lines ending in "\r\n" lose the '\r' as well as the '\n'. */
  lemma {:induction false} CrLfIsOneEnding(a: string, rest: string)
    requires '\n' !in a
    ensures Lines(a + "\r\n" + rest) == [a] + Lines(rest)
  {
    assert a + "\r\n" + rest == (a + "\r") + "\n" + rest;
    LinesFirst(a + "\r", rest);
    assert (a + "\r")[..|a|] == a;
  }

  /** Text without '\n' is one line, kept whole: a '\r' it ends with stays. */
  lemma {:induction false} LastLineVerbatim(a: string)
    requires a != [] && '\n' !in a
    ensures Lines(a) == [a]
  {
    IndexOfAbsent(a, '\n');
  }

  /** Text holding a '\n' is its first line, that '\n', and the rest. */
  lemma FirstLineBreak(text: string) returns (a: string, rest: string)
    requires '\n' in text
    ensures text == a + "\n" + rest && '\n' !in a
  {
    var i := IndexOf(text, '\n');
    a, rest := text[..i], text[i + 1..];
    assert text == a + "\n" + rest;
    assert '\n' !in a by {
      forall j | 0 <= j < i ensures a[j] != '\n' { }
    }
  }

  /** No line of the result holds a '\n'. */
  lemma {:induction false} NoNewlineInLines(text: string)
    ensures forall k :: 0 <= k < |Lines(text)| ==> '\n' !in Lines(text)[k]
    decreases |text|
  {
    if text == [] {
    } else if '\n' !in text {
      LastLineVerbatim(text);
    } else {
      var a, rest := FirstLineBreak(text);
      LinesFirst(a, rest);
      NoNewlineInLines(rest);
    }
  }

  lemma CountAcrossBreak(a: string, rest: string)
    requires '\n' !in a
    ensures Count(a + "\n" + rest, '\n') == Count(rest, '\n') + 1
  {
    CountAbsent(a, '\n');
    CountConcat(a, "\n" + rest, '\n');
    CountConcat("\n", rest, '\n');
    assert a + ("\n" + rest) == a + "\n" + rest;
  }

  /** Line count: one per '\n', plus one for a last line that has no ending. */
  lemma {:induction false} LineCount(text: string)
    ensures |Lines(text)| == Count(text, '\n') + (if text != [] && !EndsWith(text, '\n') then 1 else 0)
    decreases |text|
  {
    if text == [] {
    } else if '\n' !in text {
      LastLineVerbatim(text);
      CountAbsent(text, '\n');
      assert text[|text| - 1] in text;
    } else {
      var a, rest := FirstLineBreak(text);
      LinesFirst(a, rest);
      CountAcrossBreak(a, rest);
      LineCount(rest);
      if rest != [] {
        assert text[|text| - 1] == rest[|rest| - 1];
      }
    }
  }

  /** A final '\n' adds no empty line: "a\n" splits like "a". */
  lemma {:induction false} FinalEndingAddsNoLine(text: string)
    requires text != [] && !EndsWith(text, '\n') && !EndsWith(text, '\r')
    ensures Lines(text + "\n") == Lines(text)
    decreases |text|
  {
    if '\n' !in text {
      assert text + "\n" == text + "\n" + [];
      LinesFirst(text, []);
      LastLineVerbatim(text);
    } else {
      var a, rest := FirstLineBreak(text);
      assert text + "\n" == a + "\n" + (rest + "\n");
      LinesFirst(a, rest);
      LinesFirst(a, rest + "\n");
      assert rest != [] && text[|text| - 1] == rest[|rest| - 1];
      FinalEndingAddsNoLine(rest);
    }
  }

  /** A final "\r\n" adds no empty line either: "a\r\n" splits like "a". */
  lemma {:induction false} FinalCrLfAddsNoLine(text: string)
    requires text != [] && !EndsWith(text, '\n')
    ensures Lines(text + "\r\n") == Lines(text)
    decreases |text|
  {
    if '\n' !in text {
      assert text + "\r\n" == text + "\r\n" + [];
      CrLfIsOneEnding(text, []);
      LastLineVerbatim(text);
    } else {
      var a, rest := FirstLineBreak(text);
      assert text + "\r\n" == a + "\n" + (rest + "\r\n");
      LinesFirst(a, rest);
      LinesFirst(a, rest + "\r\n");
      assert rest != [] && text[|text| - 1] == rest[|rest| - 1];
      FinalCrLfAddsNoLine(rest);
    }
  }

  /**
   * Round trip from lines to text and back: lines that hold no '\n' and do
   * not end in '\r', written out one per line, split into the same lines.
   */
  lemma {:induction false} LinesOfUnlines(ls: seq<string>)
    requires forall k :: 0 <= k < |ls| ==> '\n' !in ls[k] && !EndsWith(ls[k], '\r')
    ensures Lines(Unlines(ls)) == ls
    decreases |ls|
  {
    if ls != [] {
      LinesFirst(ls[0], Unlines(ls[1..]));
      LinesOfUnlines(ls[1..]);
    }
  }

  /**
   * Round trip from text to lines and back: for text without '\r', writing
   * the lines out one per line gives the text again, with a '\n' appended
   * exactly when the text was not empty and did not already end in one.
   */
  lemma {:induction false} UnlinesOfLines(text: string)
    requires '\r' !in text
    ensures Unlines(Lines(text)) == if text == [] || EndsWith(text, '\n') then text else text + "\n"
    decreases |text|
  {
    if text == [] {
    } else if '\n' !in text {
      LastLineVerbatim(text);
      assert text[|text| - 1] in text;
      UnlinesCons(text, []);
    } else {
      var a, rest := FirstLineBreak(text);
      LinesFirst(a, rest);
      assert !EndsWith(a, '\r') by {
        if a != [] {
          assert a[|a| - 1] in a;
        }
      }
      UnlinesOfLines(rest);
      UnlinesAcrossBreak(a, rest, Lines(rest));
    }
  }

  /** Writing out one more line in front of the lines of `rest`. */
  lemma UnlinesAcrossBreak(a: string, rest: string, ls: seq<string>)
    requires Unlines(ls) == if rest == [] || EndsWith(rest, '\n') then rest else rest + "\n"
    ensures Unlines([a] + ls) ==
      if EndsWith(a + "\n" + rest, '\n') then a + "\n" + rest else a + "\n" + rest + "\n"
  {
    var text := a + "\n" + rest;
    UnlinesCons(a, ls);
    if rest != [] {
      assert text[|text| - 1] == rest[|rest| - 1];
      if !EndsWith(rest, '\n') {
        assert a + "\n" + (rest + "\n") == text + "\n";
      }
    }
  }

  /** Two lines joined by a '\n', such as "hello\nworld", split back into those two lines, in order. */
  lemma {:induction false} TwoLines(a: string, b: string)
    requires '\n' !in a && !EndsWith(a, '\r')
    requires '\n' !in b && b != []
    ensures Lines(a + "\n" + b) == [a, b]
  {
    LinesFirst(a, b);
    LastLineVerbatim(b);
  }

}
