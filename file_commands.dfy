/** The terminal's file commands (src/components/apps/Terminal/commands/fileCommands.ts):
    `cat` answers for the fixed set of portfolio files, `tree` lists the
    file system two levels deep and `find` searches it by lowercased substring. */
module FileCommands {
  import opened Util
  import opened Strings
  import opened TerminalUtils

  // -------------------------------------------------------------------- cat

  const CatUsage: string := "Usage: cat <filename>"
  const NotConnected: string := "Error: Command handler needs to be connected to personal commands"
  const BinaryFile: string := "Error: cannot display binary file. Use \"resume\" command instead."

  /** The nine text sections cat recognises. */
  const PersonalFiles: seq<string> := [
    "about.txt", "skills.txt", "experience.txt", "projects.txt", "education.txt",
    "certifications.txt", "awards.txt", "leadership.txt", "contact.txt"]

  function NoSuchFile(file: string): string
  {
    "cat: " + file + ": No such file or directory"
  }

  /** cat: usage for a missing or empty first argument, then the switch on the file name. */
  function Cat(args: seq<string>): (r: seq<string>)
    ensures |r| == 1
    ensures |args| == 0 || args[0] == "" ==> r == [CatUsage]
    ensures |args| > 0 && args[0] in PersonalFiles ==> r == [NotConnected]
    ensures |args| > 0 && args[0] == "resume.pdf" ==> r == [BinaryFile]
  {
    if |args| == 0 || args[0] == "" then [CatUsage]
    else
      var file := args[0];
      if file in PersonalFiles then [NotConnected]
      else if file == "resume.pdf" then [BinaryFile]
      else [NoSuchFile(file)]
  }

  /** A name is a file at the top level of the portfolio file system. */
  ghost predicate IsTopLevelFile(name: string)
  {
    exists i :: 0 <= i < |FileSystem| && FileSystem[i].0 == name && FileSystem[i].1.File?
  }

  /** The top-level files are the nine text sections and the resume. */
  lemma {:induction false} TopLevelFiles(name: string)
    ensures IsTopLevelFile(name) <==> name in PersonalFiles || name == "resume.pdf"
  {
    var known := PersonalFiles + ["resume.pdf"];
    assert forall i :: 0 <= i < 10 ==> FileSystem[i].0 == known[i] && FileSystem[i].1.File?;
    assert FileSystem[10].1.Directory? && FileSystem[11].1.Directory?;
    if name in known {
      var i :| 0 <= i < |known| && known[i] == name;
      assert FileSystem[i].0 == name;
    }
  }

  /** cat knows exactly the top-level files: any other non-empty name, a
      directory included, gets the no-such-file line; the text files get the
      not-connected line and the resume the binary-file line. */
  lemma {:induction false} CatKnowsTopLevelFiles(file: string, rest: seq<string>)
    requires file != ""
    ensures Cat([file] + rest) == [NoSuchFile(file)] <==> !IsTopLevelFile(file)
    ensures file == "resume.pdf" ==> Cat([file] + rest) == [BinaryFile]
    ensures IsTopLevelFile(file) && file != "resume.pdf" ==> Cat([file] + rest) == [NotConnected]
  {
    TopLevelFiles(file);
    assert NoSuchFile(file)[0] == 'c';
  }

  // ------------------------------------------------------------------- tree

  const FolderIcon: string := "\U{1F4C1}"
  const PageIcon: string := "\U{1F4C4}"

  function TreeHeader(): seq<string>
  {
    [FolderIcon + " Portfolio Structure:", ""]
  }

  function DirLine(name: string): (r: string)
    ensures |r| >= 1 && r[|r| - 1] == '/'
  {
    FolderIcon + " " + name + "/"
  }

  function FileLine(name: string): string
  {
    PageIcon + " " + name
  }

  function ChildLine(name: string): string
  {
    "  " + PageIcon + " " + name
  }

  function ChildLineOf(child: (string, Node)): seq<string>
  {
    [ChildLine(child.0)]
  }

  /** One key's lines: its own line and, for a directory, one indented line per child. */
  function EntryLinesOf(entry: (string, Node)): seq<string>
  {
    if entry.1.Directory? then [DirLine(entry.0)] + FlatMap(entry.1.children, ChildLineOf)
    else [FileLine(entry.0)]
  }

  /** The number of children over all directories. */
  function ChildCount(entries: seq<(string, Node)>): nat
  {
    if entries == [] then 0
    else
      var node := entries[|entries| - 1].1;
      ChildCount(entries[..|entries| - 1]) + (if node.Directory? then |node.children| else 0)
  }

  /** tree: the header, then each key's lines in key order. */
  method Tree(entries: seq<(string, Node)>) returns (lines: seq<string>)
    ensures lines == TreeHeader() + FlatMap(entries, EntryLinesOf)
  {
    lines := TreeHeader();
    var i := 0;
    while i < |entries|
      invariant 0 <= i <= |entries|
      invariant lines == TreeHeader() + FlatMap(entries[..i], EntryLinesOf)
    {
      var name := entries[i].0;
      var node := entries[i].1;
      var before := lines;
      if node.Directory? {
        lines := lines + [DirLine(name)];
        var mid := lines;
        var j := 0;
        while j < |node.children|
          invariant 0 <= j <= |node.children|
          invariant lines == mid + FlatMap(node.children[..j], ChildLineOf)
        {
          FlatMapExtend(mid, lines, node.children, j, ChildLineOf);
          lines := lines + [ChildLine(node.children[j].0)];
          j := j + 1;
        }
        assert node.children[..j] == node.children;
        assert (before + [DirLine(name)]) + FlatMap(node.children, ChildLineOf) == before + ([DirLine(name)] + FlatMap(node.children, ChildLineOf));
      } else {
        lines := lines + [FileLine(name)];
      }
      assert lines == before + EntryLinesOf(entries[i]);
      FlatMapExtend(TreeHeader(), before, entries, i, EntryLinesOf);
      i := i + 1;
    }
    assert entries[..i] == entries;
  }

  lemma {:induction false} ChildLinesCount(children: seq<(string, Node)>)
    ensures |FlatMap(children, ChildLineOf)| == |children|
  {
    if children != [] {
      ChildLinesCount(children[..|children| - 1]);
    }
  }

  /** The listing has one line per key plus one per child of a directory. */
  lemma {:induction false} TreeLineCount(entries: seq<(string, Node)>)
    ensures |FlatMap(entries, EntryLinesOf)| == |entries| + ChildCount(entries)
  {
    if entries != [] {
      var last := entries[|entries| - 1];
      TreeLineCount(entries[..|entries| - 1]);
      if last.1.Directory? {
        ChildLinesCount(last.1.children);
      }
    }
  }

  /** Every key is listed, grouped in key order: a file by its page line, a
      directory by a line ending in '/' followed by its children's lines. */
  lemma {:induction false} TreeListsEntry(entries: seq<(string, Node)>, i: int)
    requires 0 <= i < |entries|
    ensures FlatMap(entries, EntryLinesOf) ==
      FlatMap(entries[..i], EntryLinesOf) + EntryLinesOf(entries[i]) + FlatMap(entries[i + 1..], EntryLinesOf)
    ensures entries[i].1.File? ==> FileLine(entries[i].0) in FlatMap(entries, EntryLinesOf)
    ensures entries[i].1.Directory? ==> DirLine(entries[i].0) in FlatMap(entries, EntryLinesOf)
  {
    FlatMapAt(entries, i, EntryLinesOf);
    var pre := FlatMap(entries[..i], EntryLinesOf);
    assert FlatMap(entries, EntryLinesOf)[|pre|] == EntryLinesOf(entries[i])[0];
  }

  // ------------------------------------------------------------------- find

  const FindUsage: string := "Usage: find <filename>"

  function NoMatch(term: string): string
  {
    "No files found matching '" + term + "'"
  }

  function Matches(name: string, term: string): bool
  {
    Contains(Lower(name), term)
  }

  /** The dir/child paths of the matching children, in key order. */
  function ChildHits(dir: string, children: seq<(string, Node)>, term: string): seq<string>
  {
    if children == [] then []
    else
      var c := children[|children| - 1].0;
      ChildHits(dir, children[..|children| - 1], term) + (if Matches(c, term) then [dir + "/" + c] else [])
  }

  lemma {:induction false} ChildHitsSnoc(dir: string, children: seq<(string, Node)>, j: int, term: string)
    requires 0 <= j < |children|
    ensures ChildHits(dir, children[..j + 1], term) ==
      ChildHits(dir, children[..j], term) + (if Matches(children[j].0, term) then [dir + "/" + children[j].0] else [])
  {
    assert children[..j + 1][..j] == children[..j];
  }

  /** One key's hits: the key itself if it matches, then its matching children. */
  function EntryHits(name: string, node: Node, term: string): seq<string>
  {
    (if Matches(name, term) then [name] else [])
    + (if node.Directory? then ChildHits(name, node.children, term) else [])
  }

  /** All hits, key by key in key order. */
  function FindHits(entries: seq<(string, Node)>, term: string): seq<string>
  {
    if entries == [] then []
    else
      var e := entries[|entries| - 1];
      FindHits(entries[..|entries| - 1], term) + EntryHits(e.0, e.1, term)
  }

  lemma {:induction false} FindHitsSnoc(entries: seq<(string, Node)>, i: int, term: string)
    requires 0 <= i < |entries|
    ensures FindHits(entries[..i + 1], term) == FindHits(entries[..i], term) + EntryHits(entries[i].0, entries[i].1, term)
  {
    assert entries[..i + 1][..i] == entries[..i];
  }

  /** find: usage without arguments; otherwise the hits for the lowercased first
      argument, or one no-match line. */
  method Find(args: seq<string>, entries: seq<(string, Node)>) returns (out: seq<string>)
    ensures |args| == 0 ==> out == [FindUsage]
    ensures |args| > 0 ==>
      var hits := FindHits(entries, Lower(args[0]));
      out == if hits == [] then [NoMatch(Lower(args[0]))] else hits
  {
    if |args| == 0 {
      return [FindUsage];
    }
    var term := Lower(args[0]);
    var found: seq<string> := [];
    var i := 0;
    while i < |entries|
      invariant 0 <= i <= |entries|
      invariant found == FindHits(entries[..i], term)
    {
      var name := entries[i].0;
      var node := entries[i].1;
      var before := found;
      if Matches(name, term) {
        found := found + [name];
      }
      var mid := found;
      if node.Directory? {
        var j := 0;
        while j < |node.children|
          invariant 0 <= j <= |node.children|
          invariant found == mid + ChildHits(name, node.children[..j], term)
        {
          var child := node.children[j].0;
          ChildHitsSnoc(name, node.children, j, term);
          if Matches(child, term) {
            var hits := ChildHits(name, node.children[..j], term);
            assert (mid + hits) + [name + "/" + child] == mid + (hits + [name + "/" + child]);
            found := found + [name + "/" + child];
          }
          j := j + 1;
        }
        assert node.children[..j] == node.children;
        var own := if Matches(name, term) then [name] else [];
        assert (before + own) + ChildHits(name, node.children, term) == before + (own + ChildHits(name, node.children, term));
      }
      assert found == before + EntryHits(name, node, term);
      FindHitsSnoc(entries, i, term);
      i := i + 1;
    }
    assert entries[..i] == entries;
    out := if |found| > 0 then found else [NoMatch(term)];
  }

  lemma {:induction false} FindHitsAppend(a: seq<(string, Node)>, b: seq<(string, Node)>, term: string)
    ensures FindHits(a + b, term) == FindHits(a, term) + FindHits(b, term)
    decreases |b|
  {
    if b != [] {
      var b' := b[..|b| - 1];
      assert (a + b)[..|a + b| - 1] == a + b';
      FindHitsAppend(a, b', term);
    } else {
      assert a + b == a;
    }
  }

  /** Hits come grouped by key in key order, and a matching directory is
      reported before any of its children. */
  lemma {:induction false} DirectoryHitPrecedesChildren(entries: seq<(string, Node)>, i: int, term: string)
    requires 0 <= i < |entries| && entries[i].1.Directory? && Matches(entries[i].0, term)
    ensures FindHits(entries, term) ==
      FindHits(entries[..i], term) + [entries[i].0] + ChildHits(entries[i].0, entries[i].1.children, term)
      + FindHits(entries[i + 1..], term)
  {
    assert entries == entries[..i + 1] + entries[i + 1..];
    FindHitsAppend(entries[..i + 1], entries[i + 1..], term);
    assert entries[..i + 1][..i] == entries[..i];
  }

  /** A child hit is the directory's key, a slash and a matching child key. */
  ghost predicate ChildHitOf(dir: string, children: seq<(string, Node)>, term: string, x: string)
  {
    exists j :: 0 <= j < |children| && x == dir + "/" + children[j].0 && Matches(children[j].0, term)
  }

  lemma {:induction false} ChildHitsMembership(dir: string, children: seq<(string, Node)>, term: string, x: string)
    ensures x in ChildHits(dir, children, term) <==> ChildHitOf(dir, children, term, x)
  {
    if children != [] {
      var init := children[..|children| - 1];
      ChildHitsMembership(dir, init, term, x);
      if ChildHitOf(dir, init, term, x) {
        var j :| 0 <= j < |init| && x == dir + "/" + init[j].0 && Matches(init[j].0, term);
        assert children[j] == init[j];
      }
      if ChildHitOf(dir, children, term, x) {
        var j :| 0 <= j < |children| && x == dir + "/" + children[j].0 && Matches(children[j].0, term);
        if j < |init| {
          assert init[j] == children[j];
        }
      }
    }
  }

  /** One key's hit: the key itself when it matches, or dir/child for a matching child of a directory. */
  ghost predicate EntryHitOf(e: (string, Node), term: string, x: string)
  {
    (x == e.0 && Matches(e.0, term)) || (e.1.Directory? && ChildHitOf(e.0, e.1.children, term, x))
  }

  lemma {:induction false} EntryHitsMembership(name: string, node: Node, term: string, x: string)
    ensures x in EntryHits(name, node, term) <==> EntryHitOf((name, node), term, x)
  {
    if node.Directory? {
      ChildHitsMembership(name, node.children, term, x);
    }
  }

  /** A hit is a hit of one of the keys. */
  ghost predicate FindHitOf(entries: seq<(string, Node)>, term: string, x: string)
  {
    exists i :: 0 <= i < |entries| && EntryHitOf(entries[i], term, x)
  }

  /** Every hit is of one of the two kinds, and every name of either kind is a hit. */
  lemma {:induction false} FindHitsMembership(entries: seq<(string, Node)>, term: string, x: string)
    ensures x in FindHits(entries, term) <==> FindHitOf(entries, term, x)
  {
    if entries != [] {
      var init := entries[..|entries| - 1];
      var e := entries[|entries| - 1];
      FindHitsMembership(init, term, x);
      EntryHitsMembership(e.0, e.1, term, x);
      assert FindHits(entries, term) == FindHits(init, term) + EntryHits(e.0, e.1, term);
      if FindHitOf(init, term, x) {
        var i :| 0 <= i < |init| && EntryHitOf(init[i], term, x);
        assert entries[i] == init[i];
      }
      if FindHitOf(entries, term, x) {
        var i :| 0 <= i < |entries| && EntryHitOf(entries[i], term, x);
        if i < |init| {
          assert init[i] == entries[i];
        }
      }
    }
  }
}
