/** The terminal's pure helpers (src/utils/terminalUtils.ts): the fixed
    portfolio file system, command validation and fuzzy suggestions, the
    text progress bar and the marker-prefixed output line. */
module TerminalUtils {
  import opened Util
  import opened Strings

  // ------------------------------------------------------------ file system

  /** A node of the portfolio file system; a directory lists its children in key order. */
  datatype Node = File(content: string) | Directory(children: seq<(string, Node)>)

  /** The fixed two-level portfolio tree, top-level keys in insertion order. */
  const FileSystem: seq<(string, Node)> := [
    ("about.txt", File("Personal information about Krishant Timilsina")),
    ("skills.txt", File("Technical skills and expertise")),
    ("experience.txt", File("Professional work experience")),
    ("projects.txt", File("Featured projects and repositories")),
    ("education.txt", File("Educational background and qualifications")),
    ("certifications.txt", File("Certifications and professional courses")),
    ("awards.txt", File("Awards and achievements")),
    ("leadership.txt", File("Leadership experience and roles")),
    ("contact.txt", File("Contact information and social links")),
    ("resume.pdf", File("Resume document (binary file)")),
    ("blog", Directory([
      ("chaos-engineering.md", File("Blog post about chaos engineering")),
      ("intro-to-go.md", File("Introduction to Go programming language"))])),
    ("certificates", Directory([
      ("azure-ai-fundamentals.pdf", File("Microsoft Azure AI Fundamentals certificate")),
      ("ai-ml-microdegree.pdf", File("Fusemachines AI & Machine Learning Microdegree"))]))
  ]

  /** Object keys are distinct. */
  predicate DistinctKeys(entries: seq<(string, Node)>)
  {
    forall i, j :: 0 <= i < j < |entries| ==> entries[i].0 != entries[j].0
  }

  /** The top-level keys are distinct, ten of the entries are files and two are
      directories with two files each. */
  lemma {:induction false} FileSystemShape()
    ensures |FileSystem| == 12 && DistinctKeys(FileSystem)
    ensures forall i :: 0 <= i < 10 ==> FileSystem[i].1.File?
    ensures FileSystem[10].1.Directory? && FileSystem[11].1.Directory?
    ensures |FileSystem[10].1.children| == 2 && |FileSystem[11].1.children| == 2
  {
  }

  // --------------------------------------------------- validation and fuzzy

  /** validateCommand: the lowercased command is one of the available names.
      So a command validates exactly when the table lists an all-lowercase name
      equal to it up to case; a name with an upper-case letter never matches. */
  function ValidateCommand(command: string, available: seq<string>): (valid: bool)
    ensures valid <==> exists name :: name in available && Lower(name) == name && Lower(name) == Lower(command)
  {
    LowerIdempotent(command);
    Lower(command) in available
  }

  /** One command is a fuzzy match for the input when either lowercased text contains the other. */
  predicate FuzzyRelated(input: string, command: string)
  {
    Contains(Lower(command), Lower(input)) || Contains(Lower(input), Lower(command))
  }

  /** fuzzyMatch: the commands related to the input, in their original order. */
  function FuzzyMatch(input: string, commands: seq<string>): (r: seq<string>)
    ensures |r| <= |commands|
    ensures forall c :: c in r <==> c in commands && FuzzyRelated(input, c)
  {
    Filter(commands, (c: string) => FuzzyRelated(input, c))
  }

  /** The suggestions keep the commands' order. */
  lemma {:induction false} FuzzyMatchKeepsOrder(input: string, commands: seq<string>)
    ensures SubsequenceOf(FuzzyMatch(input, commands), commands)
  {
    FilterSubsequence(commands, (c: string) => FuzzyRelated(input, c));
  }

  /** The empty input is contained in every command, so it suggests them all, in order. */
  lemma {:induction false} FuzzyEmptyInputAll(commands: seq<string>)
    ensures FuzzyMatch("", commands) == commands
  {
    forall c | c in commands
      ensures FuzzyRelated("", c)
    {
      assert IsPrefix("", Lower(c));
    }
    FilterAll(commands, (c: string) => FuzzyRelated("", c));
  }

  /** A valid command is always among its own fuzzy suggestions. */
  lemma {:induction false} ValidCommandIsSuggested(command: string, commands: seq<string>)
    requires ValidateCommand(command, commands)
    ensures Lower(command) in FuzzyMatch(command, commands)
  {
    LowerIdempotent(command);
    assert Lower(command)[..|Lower(command)|] == Lower(command);
    assert FuzzyRelated(command, Lower(command));
  }

  // ----------------------------------------------------------- progress bar

  const FullBlock: char := '\U{2588}'

  function Repeat(c: char, n: nat): (r: string)
    ensures |r| == n && forall k :: 0 <= k < n ==> r[k] == c
  {
    seq(n, _ => c)
  }

  /** The bar's cells: the filled ones first, then the empty ones. */
  function Cells(filled: nat, empty: nat): (b: string)
    ensures |b| == filled + empty
    ensures forall k :: 0 <= k < |b| ==> (b[k] == FullBlock <==> k < filled) && (b[k] == ' ' <==> k >= filled)
  {
    Repeat(FullBlock, filled) + Repeat(' ', empty)
  }

  /** The number of filled cells: the floor of progress percent of width. */
  function Filled(progress: int, width: int): (f: int)
    ensures f * 100 <= progress * width < (f + 1) * 100
  {
    (progress * width) / 100
  }

  /** createProgressBar. `repeat` with a negative count throws a RangeError,
      which is None here. */
  function ProgressBar(progress: int, width: int): (r: Option<string>)
    ensures r.None? <==> Filled(progress, width) < 0 || Filled(progress, width) > width
    ensures r.Some? ==>
      var s := r.value;
      && |s| == width + 4 + |IntToString(progress)|
      && s[0] == '[' && s[width + 1] == ']' && s[width + 2] == ' ' && s[|s| - 1] == '%'
      && s[width + 3..|s| - 1] == IntToString(progress)
      && (forall k :: 1 <= k <= width ==> (s[k] == FullBlock <==> k <= Filled(progress, width)))
      && (forall k :: 1 <= k <= width ==> (s[k] == ' ' <==> k > Filled(progress, width)))
  {
    var filled := Filled(progress, width);
    var empty := width - filled;
    if filled < 0 || empty < 0 then None
    else
      var cells := Cells(filled, empty);
      var s := "[" + cells + "] " + IntToString(progress) + "%";
      assert forall k :: 1 <= k <= width ==> s[k] == cells[k - 1];
      Some(s)
  }

  /** The default width of createProgressBar. */
  const DefaultBarWidth: int := 20

  /** For a percentage in [0, 100] and a non-negative width the bar always renders,
      and the filled and empty cells add up to the width. */
  lemma {:induction false} ProgressBarInRange(progress: int, width: int)
    requires 0 <= progress <= 100 && width >= 0
    ensures 0 <= Filled(progress, width) <= width
    ensures ProgressBar(progress, width).Some?
  {
    assert 0 <= progress * width <= 100 * width by {
      assert (100 - progress) * width >= 0;
    }
  }

  /** More progress never fills fewer cells. */
  lemma {:induction false} ProgressBarMonotone(p: int, q: int, width: int)
    requires p <= q && width >= 0
    ensures Filled(p, width) <= Filled(q, width)
  {
    assert p * width <= q * width by {
      assert (q - p) * width >= 0;
    }
  }

  // ------------------------------------------------------------ output line

  datatype OutputKind = Success | Error | Warning | Info

  /** formatOutput's default type. */
  const DefaultKind: OutputKind := Info

  function Marker(kind: OutputKind): (m: string)
    ensures |m| >= 1
  {
    match kind
    case Success => "\U{2705}"
    case Error => "\U{274C}"
    case Warning => "\U{26A0}\U{FE0F}"
    case Info => "\U{2139}\U{FE0F}"
  }

  /** formatOutput: the kind's marker, a space, then the text. */
  function FormatOutput(text: string, kind: OutputKind): (r: string)
    ensures |r| == |Marker(kind)| + 1 + |text|
    ensures IsPrefix(Marker(kind), r) && r[|Marker(kind)|] == ' '
    ensures r[|r| - |text|..] == text
  {
    Marker(kind) + " " + text
  }

  /** Distinct kinds or texts never format to the same line. */
  lemma {:induction false} FormatOutputInjective(t1: string, k1: OutputKind, t2: string, k2: OutputKind)
    requires FormatOutput(t1, k1) == FormatOutput(t2, k2)
    ensures k1 == k2 && t1 == t2
  {
    var r := FormatOutput(t1, k1);
    assert r[0] == Marker(k1)[0] && r[0] == Marker(k2)[0];
    assert |Marker(k1)| == |Marker(k2)|;
    assert t1 == r[|r| - |t1|..] == t2;
  }
}
