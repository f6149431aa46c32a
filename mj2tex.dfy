/**
 Journal lookup of mj2tex.py: `findJournal` searches a finite tree of named
 journals for the first one carrying a given name.

 A journal's sub-journals (a dictionary in the source, walked through
 `.values()`) are modelled as a sequence in stored order. Names are not
 required to be unique anywhere in the tree.
 */
module Mj2Tex {
  import opened Wrappers

  datatype Journal = Journal(name: string, children: seq<Journal>)

  // ---------------------------------------------------------------------
  // Reference definitions: pre-order listing and a linear first-match scan
  // ---------------------------------------------------------------------

  /** The proper descendants of `j` in pre-order (`j` itself excluded). */
  function Descendants(j: Journal): seq<Journal>
    decreases j, 1
  {
    PreOrder(j.children)
  }

  /** Every journal of the forest `js` in pre-order: a journal, then its whole
      subtree, then the next sibling. */
  function PreOrder(js: seq<Journal>): seq<Journal>
    decreases js, 0
  {
    if js == [] then [] else [js[0]] + Descendants(js[0]) + PreOrder(js[1..])
  }

  /** A journal followed by its proper descendants. */
  function Subtree(j: Journal): seq<Journal>
  {
    [j] + Descendants(j)
  }

  /** No journal listed in `s` carries the name `name`. */
  predicate NoneNamed(name: string, s: seq<Journal>)
  {
    forall d :: d in s ==> d.name != name
  }

  /** Position of the first journal of `s` named `name`, or |s| if there is none. */
  function IndexOfFirst(name: string, s: seq<Journal>): (i: nat)
    ensures i <= |s|
    ensures i < |s| ==> s[i].name == name
    ensures forall k :: 0 <= k < i ==> s[k].name != name
  {
    if s == [] then 0
    else if s[0].name == name then 0
    else 1 + IndexOfFirst(name, s[1..])
  }

  /** The first journal of `s` named `name`, if any. */
  function FirstNamed(name: string, s: seq<Journal>): (r: Option<Journal>)
    ensures r.None? <==> NoneNamed(name, s)
    ensures r.Some? ==> r.value.name == name && r.value in s
  {
    var i := IndexOfFirst(name, s);
    if i < |s| then Some(s[i]) else None
  }

  // ---------------------------------------------------------------------
  // findJournal
  // ---------------------------------------------------------------------

  /** `findJournal(Name, Journal)`: only the children of `root` and their
      descendants are compared, never `root` itself. */
  function FindJournal(name: string, root: Journal): (r: Option<Journal>)
    decreases root, 1
    ensures r.Some? ==> r.value.name == name && r.value in Descendants(root)
    ensures r.None? <==> NoneNamed(name, Descendants(root))
  {
    FindAmong(name, root.children)
  }

  /** The `for` loop of `findJournal` over the children `js`, in stored order:
      a child whose name matches is returned at once; otherwise a child that
      has sub-journals is searched before the next sibling is looked at. */
  function FindAmong(name: string, js: seq<Journal>): (r: Option<Journal>)
    decreases js, 0
    ensures r.Some? ==> r.value.name == name && r.value in PreOrder(js)
    ensures r.None? <==> NoneNamed(name, PreOrder(js))
  {
    if js == [] then None
    else if js[0].name == name then Some(js[0])
    else if js[0].children != [] then
      var found := FindJournal(name, js[0]);
      if found.Some? then found else FindAmong(name, js[1..])
    else
      assert Descendants(js[0]) == [];
      FindAmong(name, js[1..])
  }

  // ---------------------------------------------------------------------
  // Properties
  // ---------------------------------------------------------------------

  lemma {:induction false} FirstNamedAppend(name: string, a: seq<Journal>, b: seq<Journal>)
    ensures FirstNamed(name, a + b)
         == if FirstNamed(name, a).Some? then FirstNamed(name, a) else FirstNamed(name, b)
  {
    if a == [] {
      assert a + b == b;
    } else if a[0].name == name {
      assert (a + b)[0] == a[0];
    } else {
      FirstNamedAppend(name, a[1..], b);
      assert (a + b)[1..] == a[1..] + b;
      assert IndexOfFirst(name, a + b) == 1 + IndexOfFirst(name, a[1..] + b);
      assert IndexOfFirst(name, a) == 1 + IndexOfFirst(name, a[1..]);
    }
  }

  /** The search returns exactly the first journal named `name` in the
      pre-order listing of the root's proper descendants. */
  lemma {:induction false} FindJournalIsFirstInPreOrder(name: string, root: Journal)
    decreases root, 1
    ensures FindJournal(name, root) == FirstNamed(name, Descendants(root))
  {
    FindAmongIsFirstInPreOrder(name, root.children);
  }

  lemma {:induction false} FindAmongIsFirstInPreOrder(name: string, js: seq<Journal>)
    decreases js, 0
    ensures FindAmong(name, js) == FirstNamed(name, PreOrder(js))
  {
    if js != [] {
      var head, tail := js[0], js[1..];
      assert PreOrder(js) == [head] + (Descendants(head) + PreOrder(tail));
      FirstNamedAppend(name, [head], Descendants(head) + PreOrder(tail));
      FirstNamedAppend(name, Descendants(head), PreOrder(tail));
      FindJournalIsFirstInPreOrder(name, head);
      FindAmongIsFirstInPreOrder(name, tail);
    }
  }

  /** Siblings whose whole subtree lacks the name are passed over: the search
      continues with the remaining children as if the skipped ones were absent. */
  lemma {:induction false} SkipUnmatchedSiblings(name: string, js: seq<Journal>, k: nat)
    requires k <= |js|
    requires forall i :: 0 <= i < k ==> NoneNamed(name, Subtree(js[i]))
    ensures FindAmong(name, js) == FindAmong(name, js[k..])
  {
    if k > 0 {
      assert js[0] in Subtree(js[0]);
      assert FindJournal(name, js[0]).None?;
      assert forall i :: 0 <= i < k - 1 ==> js[1..][i] == js[i + 1];
      SkipUnmatchedSiblings(name, js[1..], k - 1);
      assert js[1..][k - 1..] == js[k..];
    }
  }

  /** A matching child is returned at once: no same-named descendant of it,
      and no later same-named sibling, is ever the result, provided no earlier
      child's subtree holds the name. */
  lemma {:induction false} MatchingChildWins(name: string, root: Journal, k: nat)
    requires k < |root.children|
    requires root.children[k].name == name
    requires forall i :: 0 <= i < k ==> NoneNamed(name, Subtree(root.children[i]))
    ensures FindJournal(name, root) == Some(root.children[k])
  {
    SkipUnmatchedSiblings(name, root.children, k);
  }

  /** A match deep inside an earlier sibling beats a later sibling of the same
      name: top-level names are not all checked first. */
  lemma {:induction false} EarlierSubtreeWins(name: string, root: Journal, i: nat, j: nat)
    requires i < j < |root.children|
    requires root.children[j].name == name
    requires root.children[i].name != name
    requires !NoneNamed(name, Descendants(root.children[i]))
    requires forall k :: 0 <= k < i ==> NoneNamed(name, Subtree(root.children[k]))
    ensures FindJournal(name, root) == FindJournal(name, root.children[i])
    ensures FindJournal(name, root).Some?
    ensures FindJournal(name, root).value in Descendants(root.children[i])
  {
    SkipUnmatchedSiblings(name, root.children, i);
    var c := root.children[i];
    assert root.children[i..][0] == c;
  }

  lemma {:induction false} PreOrderShrinks(js: seq<Journal>, d: Journal)
    requires d in PreOrder(js)
    decreases js
    ensures |Descendants(d)| < |PreOrder(js)|
  {
    var head, tail := js[0], js[1..];
    if d == head {
    } else if d in Descendants(head) {
      PreOrderShrinks(head.children, d);
    } else {
      PreOrderShrinks(tail, d);
    }
  }

  /** The root is never the result: a match is always a proper descendant,
      even if the root itself carries the name searched for. */
  lemma MatchIsProperDescendant(name: string, root: Journal)
    ensures FindJournal(name, root).Some? ==> FindJournal(name, root).value != root
  {
    var r := FindJournal(name, root);
    if r.Some? {
      PreOrderShrinks(root.children, r.value);
    }
  }

  /** The case that shows the quirk: `X` nested under `A` is found although a
      later top-level child is also called `X`. */
  lemma DeepMatchBeatsLaterSibling()
    ensures var deep := Journal("X", []);
            var later := Journal("X", [Journal("Y", [])]);
            var root := Journal("Root", [Journal("A", [deep]), later]);
            FindJournal("X", root) == Some(deep)
  {
    var deep := Journal("X", []);
    var a := Journal("A", [deep]);
    var later := Journal("X", [Journal("Y", [])]);
    assert FindAmong("X", [deep]) == Some(deep);
    assert FindJournal("X", a) == Some(deep);
    assert FindAmong("X", [a, later]) == Some(deep);
  }
}
