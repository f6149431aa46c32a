# MacJournal2LaTeX core, modelled in Dafny

This project models two pieces of MacJournal2LaTeX, a converter from MacJournal
journal libraries to LaTeX:

* **Journal lookup** (`mj2tex.dfy`, module `Mj2Tex`): `findJournal` searches a
  tree of named journals for the first journal with a given name. A journal is
  the value `Journal(name, children)`. Its sub-journals are kept in the order in
  which the source's dictionary yields them. The lookup is the recursive
  function `FindJournal` together with `FindAmong`, which is the `for` loop over
  the children. Both are proved equal to reference definitions
  (`FindJournalIsFirstInPreOrder`, `FindAmongIsFirstInPreOrder`):
  `Descendants`/`PreOrder` list a tree in pre-order, and `FirstNamed` scans that
  listing for the first match. Names may repeat anywhere in the tree.
* **LaTeX document assembler** (`latex.dfy`, module `LaTeX`): the
  `LaTeXTemplate` class has the fields `preamble`, `lines`, `includes` and
  `filename`. The constructor renders the preamble from its four slots, after
  keyword arguments have been merged into the defaults. `Append` adds a path to
  `includes`. `Write` records the file name and returns the text the source
  writes to that file, built by a loop over `lines`. The specification function
  `Document` gives that text, and lemmas about `Document` state its shape. The
  constant `LaTeXLevels` is the table of sectioning commands, outermost first.

`wrappers.dfy` holds the `Option` type that stands for Python's `None`.

Points where the code behaves differently from what one might expect:

* `findJournal`'s docstring says it "searches from the top down"
  (mj2tex.py:19-20), but the code does not compare all top-level names first.
  A child with sub-journals is searched before its next sibling
  (mj2tex.py:27-35), so a deep match in an earlier sibling wins. This is what
  `EarlierSubtreeWins` and `DeepMatchBeatsLaterSibling` show.
* The constructor merges keyword arguments with `update`, so a keyword named
  like a slot would override it. The model keeps that behaviour (`Preamble`).
  Python's call binding, though, never puts `title`, `author`, `date` or
  `docClass` into `**kwargs`: passing one twice is a `TypeError`. So from Python
  only the `ExtraKeywordsIgnored` case can actually happen.
* Nothing in the two files adds to `lines`. Only `includes` grows, through
  `Append`, and `Write` emits only `lines`. So appended paths never reach the
  written file (`AppendedPathIsNotWritten`). Callers can assign the public
  `lines` field directly.

The lookup is made of pure functions over values. It therefore cannot change the
tree, and equal inputs give equal results even when names repeat.

## Model

| member | source | states |
|---|---|---|
| `Mj2Tex.FindJournal` | mj2tex.py:17-40 | A result carries the name searched for and is a proper descendant of the root. The result is `None` exactly when no proper descendant has that name. |
| `Mj2Tex.FindAmong` | mj2tex.py:27-40 | The loop over the children returns a journal of that name from the children's pre-order listing, or `None` exactly when that listing has no such journal. |
| `Mj2Tex.FindJournalIsFirstInPreOrder` | mj2tex.py:27-37 | The result is the first journal with that name in the pre-order listing of the root's proper descendants (each child, then its subtree, then the next sibling). |
| `Mj2Tex.FindAmongIsFirstInPreOrder` | mj2tex.py:27-37 | The loop over a list of children returns the first match in that list's pre-order listing. |
| `Mj2Tex.SkipUnmatchedSiblings` | mj2tex.py:27-37 | Children whose whole subtree lacks the name are passed over. The search then behaves as if it started at the first remaining child. |
| `Mj2Tex.MatchingChildWins` | mj2tex.py:27-29 | If no earlier subtree holds the name, a matching child is returned at once. No same-named descendant of it and no later sibling is returned. |
| `Mj2Tex.EarlierSubtreeWins` | mj2tex.py:32-35 | A match inside an earlier sibling's subtree is returned, not a later sibling with the same name. The result lies in the earlier sibling's descendants. |
| `Mj2Tex.MatchIsProperDescendant` | mj2tex.py:27-28 | The root is never compared, so it is never the result, even when it has the name searched for. |
| `Mj2Tex.DeepMatchBeatsLaterSibling` | mj2tex.py:27-37 | Example: `X` under `A` is found before a later top-level child named `X`. |
| `LaTeX.TemplateArgs` | LaTeX.py:37-39 | The merged arguments hold the four slots and every keyword. A keyword's value wins over a named parameter. A slot without a keyword keeps the named value. |
| `LaTeX.LevelsTable` | LaTeX.py:13 | `LaTeXLevels` has exactly four entries, in order: `section`, `subsection`, `subsubsection`, `paragraph`. |
| `LaTeX.RenderPreamble` | LaTeX.py:19-30 | The filled-in preamble starts with `\documentclass[letterpaper,12pt]{C}` and a newline, and ends with `\date{ D }` and a newline. |
| `LaTeX.Preamble` | LaTeX.py:37-41 | Each slot of the preamble takes the keyword argument of that name if one is given, and the named parameter otherwise. No other keyword is looked up. |
| `LaTeX.ExtraKeywordsIgnored` | LaTeX.py:37-41 | Keywords that name no slot leave the preamble unchanged. |
| `LaTeX.DefaultPreamble` | LaTeX.py:32-41 | A template built with no arguments has the preamble rendered with class `article` and empty title, author and date. |
| `LaTeX.PreambleSplitsIntoLines` | LaTeX.py:19-30 | When no slot value contains a newline, the preamble is exactly nine newline-terminated lines: `\documentclass[letterpaper,12pt]{C}`, four `\usepackage` lines, an empty line, then `\title{ T }`, `\author{ A }` and `\date{ D }`. |
| `LaTeX.LaTeXTemplate.constructor` | LaTeX.py:32-45 | The new template holds the rendered preamble, empty `lines` and `includes`, and no file name. |
| `LaTeX.LaTeXTemplate.Append` | LaTeX.py:47-52 | `includes` becomes the old `includes` followed by the path. `preamble`, `lines` and `filename` are unchanged. |
| `LaTeX.LaTeXTemplate.Write` | LaTeX.py:54-72 | The file name is recorded. The returned text is `Document(preamble, lines)`. `preamble`, `lines` and `includes` are unchanged. |
| `LaTeX.Document` | LaTeX.py:64-70 | The written text starts with the preamble, then `\begin{document}` and a newline, then `\maketitle`. It ends with a newline and `\end{document}`. |
| `LaTeX.DocumentLineAt` | LaTeX.py:68 | Body line `i` appears verbatim at its offset: after the header and the lines before it, and before the end marker. |
| `LaTeX.DocumentLinesInOrder` | LaTeX.py:68 | Body lines appear in stored order, with nothing added between them: line `i + 1` starts exactly where line `i` ends, and line `i` ends before line `j` starts when `i < j`. |
| `LaTeX.DocumentAppendLine` | LaTeX.py:64-70 | One more body line goes just before the end marker. The rest of the text stays the same. |
| `LaTeX.AppendedPathIsNotWritten` | LaTeX.py:47-70 | A default template with one appended path writes the preamble, the header and the end marker, with an empty body. |

## Left out

- `LaTeXTemplate.compile` (LaTeX.py:74-83): it changes the working directory and runs an external process. Its result is not observable in the model.
- File handling in `write`: opening, writing and closing the file, and the `file` attribute. `Write` returns the text that would be written instead.
- `MakeLaTeX` (mj2tex.py:50-76): directory checks, `mkdir`, and the hierarchy walk. The walk is in the journal parser, which is not part of this model. That includes choosing a sectioning level from `LaTeXLevels`. No code in the modelled files clamps a level, so no clamping is modelled.
- `print_journals`, `ConvertFile` and the command-line blocks: console output, a stub with no behaviour, and argument parsing.
- General `str.format` and `textwrap.dedent`: only the fixed four-slot preamble is modelled, as the text the template yields after dedenting. Slot values are strings, with no conversion of other Python types.
- Journal identity: journals are compared as values, so two structurally equal journals count as the same. Python object identity is not modelled. The truthiness test on a found journal is modelled as a test for `None`.
