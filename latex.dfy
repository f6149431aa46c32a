/**
 The LaTeX document assembler of LaTeX.py: a template object that renders a
 preamble once, collects body lines and included paths, and serialises
 preamble and body lines into the text of one LaTeX file.

 The file itself is not modelled: `Write` returns the text that the source
 writes to the file it opens.
 */
module LaTeX {
  import opened Wrappers

  /** The sectioning commands, outermost first. */
  const LaTeXLevels: seq<string> := ["section", "subsection", "subsubsection", "paragraph"]

  /** Four levels, from `section` down to `paragraph`. */
  lemma LevelsTable()
    ensures |LaTeXLevels| == 4
    ensures LaTeXLevels[0] == "section" && LaTeXLevels[1] == "subsection"
    ensures LaTeXLevels[2] == "subsubsection" && LaTeXLevels[3] == "paragraph"
  {
  }

  // ---------------------------------------------------------------------
  // Preamble
  // ---------------------------------------------------------------------

  /** The four template slots. */
  const SlotNames: set<string> := {"title", "author", "date", "docClass"}

  /** The template arguments after `templateArgs.update(kwargs)`: the named
      parameters are entered first, and every keyword argument is then entered
      on top of them. */
  function TemplateArgs(title: string, author: string, date: string, docClass: string,
                        kwargs: map<string, string>): (args: map<string, string>)
    ensures args.Keys == SlotNames + kwargs.Keys
    ensures forall k :: k in kwargs ==> args[k] == kwargs[k]
    ensures "title" !in kwargs ==> args["title"] == title
    ensures "author" !in kwargs ==> args["author"] == author
    ensures "date" !in kwargs ==> args["date"] == date
    ensures "docClass" !in kwargs ==> args["docClass"] == docClass
  {
    map["title" := title, "author" := author, "date" := date, "docClass" := docClass] + kwargs
  }

  /** Lines of text, each followed by a newline. */
  function Terminated(ls: seq<string>): string
  {
    if ls == [] then "" else ls[0] + "\n" + Terminated(ls[1..])
  }

  /** The last line, with its newline, ends the text. */
  lemma {:induction false} TerminatedLast(ls: seq<string>)
    requires ls != []
    ensures Terminated(ls) == Terminated(ls[..|ls| - 1]) + ls[|ls| - 1] + "\n"
  {
    if |ls| > 1 {
      TerminatedLast(ls[1..]);
      assert ls[1..][..|ls| - 2] == ls[..|ls| - 1][1..];
    }
  }

  /** The lines of the fixed preamble with its four slots filled in. Each slot
      value is inserted verbatim; title, author and date are padded by one
      space inside their braces. */
  function PreambleLines(docClass: string, title: string, author: string, date: string): seq<string>
  {
    [ "\\documentclass[letterpaper,12pt]{" + docClass + "}",
      "\\usepackage[T1]{fontenc}",
      "\\usepackage[colorlinks]{hyperref}",
      "\\usepackage{color}",
      "\\usepackage{fancyhdr}",
      "",
      "\\title{ " + title + " }",
      "\\author{ " + author + " }",
      "\\date{ " + date + " }" ]
  }

  /** The preamble text: its nine lines, each ended by a newline. */
  function RenderPreamble(docClass: string, title: string, author: string, date: string): (p: string)
    ensures var head := "\\documentclass[letterpaper,12pt]{" + docClass + "}\n";
            |head| <= |p| && p[..|head|] == head
    ensures var tail := "\\date{ " + date + " }\n";
            |tail| <= |p| && p[|p| - |tail|..] == tail
  {
    var ls := PreambleLines(docClass, title, author, date);
    TerminatedLast(ls);
    Terminated(ls)
  }

  /** The value a slot takes: the keyword argument of that name if there is
      one, the named parameter otherwise. */
  function SlotValue(kwargs: map<string, string>, slot: string, named: string): string
  {
    if slot in kwargs then kwargs[slot] else named
  }

  /** `self._preamble.format(**templateArgs)`: a keyword argument named like a
      slot overrides that slot; only the four slot names are looked up, so any
      other keyword argument is ignored. */
  function Preamble(title: string, author: string, date: string, docClass: string,
                    kwargs: map<string, string>): (p: string)
    ensures p == RenderPreamble(SlotValue(kwargs, "docClass", docClass), SlotValue(kwargs, "title", title),
                                SlotValue(kwargs, "author", author), SlotValue(kwargs, "date", date))
  {
    var args := TemplateArgs(title, author, date, docClass, kwargs);
    RenderPreamble(args["docClass"], args["title"], args["author"], args["date"])
  }

  /** Keyword arguments that name none of the slots do not change the preamble. */
  lemma ExtraKeywordsIgnored(title: string, author: string, date: string, docClass: string,
                             kwargs: map<string, string>)
    requires kwargs.Keys !! SlotNames
    ensures Preamble(title, author, date, docClass, kwargs)
         == Preamble(title, author, date, docClass, map[])
         == RenderPreamble(docClass, title, author, date)
  {
  }

  // ---------------------------------------------------------------------
  // Line structure of the preamble
  // ---------------------------------------------------------------------

  /** The pieces of `s` between newline characters (as Python's `split('\n')`). */
  function SplitLines(s: string): (r: seq<string>)
    ensures |r| >= 1
  {
    if s == [] then [""]
    else
      var rest := SplitLines(s[1..]);
      if s[0] == '\n' then [""] + rest else [[s[0]] + rest[0]] + rest[1..]
  }

  lemma {:induction false} SplitAtNewline(a: string, b: string)
    requires '\n' !in a
    ensures SplitLines(a + "\n" + b) == [a] + SplitLines(b)
  {
    if a == [] {
      assert a + "\n" + b == "\n" + b;
      assert ("\n" + b)[1..] == b;
    } else {
      assert (a + "\n" + b)[0] == a[0];
      assert (a + "\n" + b)[1..] == a[1..] + "\n" + b;
      SplitAtNewline(a[1..], b);
      assert [a[0]] + a[1..] == a;
    }
  }

  /** Splitting newline-terminated lines that hold no newline gives the lines
      back, followed by the empty piece after the last newline. */
  lemma {:induction false} SplitTerminated(ls: seq<string>)
    requires forall i :: 0 <= i < |ls| ==> '\n' !in ls[i]
    ensures SplitLines(Terminated(ls)) == ls + [""]
  {
    if ls != [] {
      SplitAtNewline(ls[0], Terminated(ls[1..]));
      SplitTerminated(ls[1..]);
      assert [ls[0]] + (ls[1..] + [""]) == ls + [""];
    }
  }

  /** When no slot value contains a newline, the preamble is exactly nine
      newline-terminated lines: the document class, four packages, an empty
      line, then title, author and date. */
  lemma PreambleSplitsIntoLines(docClass: string, title: string, author: string, date: string)
    requires '\n' !in docClass && '\n' !in title && '\n' !in author && '\n' !in date
    ensures SplitLines(RenderPreamble(docClass, title, author, date))
         == ["\\documentclass[letterpaper,12pt]{" + docClass + "}",
             "\\usepackage[T1]{fontenc}",
             "\\usepackage[colorlinks]{hyperref}",
             "\\usepackage{color}",
             "\\usepackage{fancyhdr}",
             "",
             "\\title{ " + title + " }",
             "\\author{ " + author + " }",
             "\\date{ " + date + " }",
             ""]
  {
    var ls := PreambleLines(docClass, title, author, date);
    forall i | 0 <= i < |ls| ensures '\n' !in ls[i] {
    }
    SplitTerminated(ls);
  }

  // ---------------------------------------------------------------------
  // The written document
  // ---------------------------------------------------------------------

  const BeginDocument := "\\begin{document}\n"
  const MakeTitle := "\\maketitle"
  const EndDocument := "\n\\end{document}"

  /** `writelines`: the strings one after another, with nothing added between them. */
  function Concat(parts: seq<string>): string
  {
    if parts == [] then "" else Concat(parts[..|parts| - 1]) + parts[|parts| - 1]
  }

  lemma {:induction false} ConcatAppend(a: seq<string>, b: seq<string>)
    ensures Concat(a + b) == Concat(a) + Concat(b)
  {
    if b == [] {
      assert a + b == a;
    } else {
      var c := a + b;
      assert c[..|c| - 1] == a + b[..|b| - 1];
      ConcatAppend(a, b[..|b| - 1]);
    }
  }

  /** The text of the written file: it starts with the preamble, followed by
      the begin-document marker and the title command, and ends with the
      end-document marker. */
  function Document(preamble: string, lines: seq<string>): (text: string)
    ensures |text| >= |preamble| + |BeginDocument| + |MakeTitle| + |EndDocument|
    ensures text[..|preamble|] == preamble
    ensures text[|preamble|..|preamble| + |BeginDocument| + |MakeTitle|] == BeginDocument + MakeTitle
    ensures text[|text| - |EndDocument|..] == EndDocument
  {
    preamble + BeginDocument + MakeTitle + Concat(lines) + EndDocument
  }

  /** Where body line `i` starts in the written file. */
  function LineOffset(preamble: string, lines: seq<string>, i: nat): nat
    requires i <= |lines|
  {
    |preamble| + |BeginDocument| + |MakeTitle| + |Concat(lines[..i])|
  }

  /** Body line `i` appears verbatim at its offset. */
  lemma DocumentLineAt(preamble: string, lines: seq<string>, i: nat)
    requires i < |lines|
    ensures var text, o := Document(preamble, lines), LineOffset(preamble, lines, i);
            o + |lines[i]| <= |text| - |EndDocument| && text[o..o + |lines[i]|] == lines[i]
  {
    assert lines == lines[..i + 1] + lines[i + 1..];
    ConcatAppend(lines[..i + 1], lines[i + 1..]);
    assert lines[..i + 1][..i] == lines[..i];
  }

  /** The body lines appear in stored order with nothing between them: line
      `i + 1` starts where line `i` ends, and line `i` ends before line `j` starts. */
  lemma DocumentLinesInOrder(preamble: string, lines: seq<string>, i: nat, j: nat)
    requires i < j <= |lines|
    ensures LineOffset(preamble, lines, i) + |lines[i]| == LineOffset(preamble, lines, i + 1)
    ensures LineOffset(preamble, lines, i) + |lines[i]| <= LineOffset(preamble, lines, j)
  {
    assert lines[..j] == lines[..i + 1] + lines[i + 1..j];
    ConcatAppend(lines[..i + 1], lines[i + 1..j]);
    assert lines[..i + 1][..i] == lines[..i];
  }

  /** One more body line goes just before the end-document marker. */
  lemma DocumentAppendLine(preamble: string, lines: seq<string>, line: string)
    ensures Document(preamble, lines + [line])
         == Document(preamble, lines)[..|Document(preamble, lines)| - |EndDocument|] + line + EndDocument
  {
    assert (lines + [line])[..|lines|] == lines;
  }

  // ---------------------------------------------------------------------
  // The template object
  // ---------------------------------------------------------------------

  class LaTeXTemplate {
    var preamble: string
    /** Body lines, written verbatim in this order. */
    var lines: seq<string>
    /** Paths collected by `Append`. */
    var includes: seq<string>
    /** The file name given to the last `Write`; absent before the first one. */
    var filename: Option<string>

    constructor (title: string := "", author: string := "", date: string := "",
                 docClass: string := "article", kwargs: map<string, string> := map[])
      ensures preamble == Preamble(title, author, date, docClass, kwargs)
      ensures lines == [] && includes == [] && filename == None
    {
      var args := TemplateArgs(title, author, date, docClass, kwargs);
      preamble := RenderPreamble(args["docClass"], args["title"], args["author"], args["date"]);
      lines := [];
      includes := [];
      filename := None;
    }

    /** Adds a path to the list of included files. */
    method Append(path: string)
      modifies this`includes
      ensures includes == old(includes) + [path]
      ensures preamble == old(preamble) && lines == old(lines) && filename == old(filename)
    {
      includes := includes + [path];
    }

    /** Records `name` and returns the text written to that file: preamble,
        begin-document marker, title command, the body lines, end-document
        marker. The included paths play no part in it. */
    method Write(name: string) returns (text: string)
      modifies this`filename
      ensures filename == Some(name)
      ensures preamble == old(preamble) && lines == old(lines) && includes == old(includes)
      ensures text == Document(preamble, lines)
    {
      filename := Some(name);
      text := preamble;
      text := text + BeginDocument;
      text := text + MakeTitle;
      var i := 0;
      while i < |lines|
        invariant 0 <= i <= |lines|
        invariant text == preamble + BeginDocument + MakeTitle + Concat(lines[..i])
      {
        assert lines[..i + 1][..i] == lines[..i];
        text := text + lines[i];
        i := i + 1;
      }
      assert lines[..i] == lines;
      text := text + EndDocument;
    }
  }

  /** A path handed to `Append` never reaches the written file: a fresh
      default template with one appended path writes an empty body. */
  method AppendedPathIsNotWritten(path: string, name: string) returns (text: string)
    ensures text == Document(RenderPreamble("article", "", "", ""), [])
  {
    var t := new LaTeXTemplate();
    t.Append(path);
    text := t.Write(name);
  }

  /** A template built with no arguments renders class `article` and empty
      title, author and date. */
  method DefaultPreamble() returns (p: string)
    ensures p == RenderPreamble("article", "", "", "")
  {
    var t := new LaTeXTemplate();
    p := t.preamble;
  }
}
