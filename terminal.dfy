/** The terminal's line editor (src/components/apps/Terminal/utils.ts): tab
    completion, command dispatch with the special blank and `clear` inputs,
    the command history and its up/down navigation. The command table is a
    parameter: its key list in key order and what running a command yields. */
module Terminal {
  import opened Util
  import opened Strings
  import opened TerminalUtils

  /** Running a command returns its output lines or throws; the thrown value's text is kept. */
  datatype CommandResult = Output(lines: seq<string>) | Thrown(message: string)

  /** The command table: Object.keys order, and each command's behaviour on its arguments. */
  datatype Registry = Registry(names: seq<string>, run: (string, seq<string>) -> CommandResult)

  datatype ItemKind = CommandItem | OutputItem | ErrorItem

  datatype HistoryItem = HistoryItem(command: string, output: seq<string>, kind: ItemKind)

  /** The words of the trimmed input, as trim().split(" ") gives them. */
  function Words(input: string): (w: seq<string>)
    ensures |w| >= 1
  {
    Split(Trim(input), ' ')
  }

  /** The file names offered after `cat`. */
  const CatFiles: seq<string> := ["system.cfg", "README.md", "terminal", "ai-chat", "pdf-viewer"]

  /** The command names starting with the lowercased word, in key order. */
  function CommandCompletions(word: string, names: seq<string>): (r: seq<string>)
    ensures forall c :: c in r <==> c in names && IsPrefix(Lower(word), c)
  {
    Filter(names, (c: string) => IsPrefix(Lower(word), c))
  }

  /** The offered files starting with the lowercased argument, in list order. */
  function FileCompletions(arg: string): (r: seq<string>)
    ensures forall f :: f in r <==> f in CatFiles && IsPrefix(Lower(arg), f)
  {
    Filter(CatFiles, (f: string) => IsPrefix(Lower(arg), f))
  }

  /** A single word is completed by the command names it starts, in key order. */
  lemma {:induction false} CommandCompletionsKeepOrder(input: string, names: seq<string>)
    requires |Words(input)| == 1
    ensures GetTabCompletions(input, names) == CommandCompletions(Words(input)[0], names)
    ensures SubsequenceOf(GetTabCompletions(input, names), names)
  {
    var word := Words(input)[0];
    FilterSubsequence(names, (c: string) => IsPrefix(Lower(word), c));
  }

  /** getTabCompletions: for one word, the command names it starts; after
      exactly `cat`, the files the last argument starts; otherwise nothing. */
  function GetTabCompletions(input: string, names: seq<string>): seq<string>
  {
    var words := Words(input);
    if |words| == 1 then CommandCompletions(words[0], names)
    else if words[0] == "cat" then FileCompletions(words[|words| - 1])
    else []
  }

  /** What getTabCompletions offers: for one word, the command names it starts;
      after `cat`, the listed files the last argument starts; otherwise nothing. */
  lemma {:induction false} TabCompletionsSpec(input: string, names: seq<string>)
    ensures var w := Words(input); var r := GetTabCompletions(input, names);
      |w| == 1 ==> forall c :: c in r <==> c in names && IsPrefix(Lower(w[0]), c)
    ensures var w := Words(input); var r := GetTabCompletions(input, names);
      |w| > 1 && w[0] == "cat" ==> forall f :: f in r <==> f in CatFiles && IsPrefix(Lower(w[|w| - 1]), f)
    ensures var w := Words(input);
      |w| > 1 && w[0] != "cat" ==> GetTabCompletions(input, names) == []
  {
    var w := Words(input);
    if |w| == 1 {
      assert GetTabCompletions(input, names) == CommandCompletions(w[0], names);
    } else if w[0] == "cat" {
      assert GetTabCompletions(input, names) == FileCompletions(w[|w| - 1]);
    }
  }

  /** The trimmed text of a `cat` input ends in a non-space, so its last argument is
      non-empty; lowercased it cannot start with 'R', so README.md is never offered. */
  lemma {:induction false} CatNeverCompletesReadme(input: string, names: seq<string>)
    requires |Words(input)| > 1 && Words(input)[0] == "cat"
    ensures "README.md" !in GetTabCompletions(input, names)
  {
    var t := Trim(input);
    var w := Words(input);
    TrimSpec(input);
    assert t != [];
    SplitLastNonEmpty(t, ' ');
    var last := w[|w| - 1];
    assert Lower(last)[0] == LowerChar(last[0]) != 'R';
  }

  /** getCompletedCommand: a single word becomes the completion and a space;
      otherwise the last argument is replaced and the words are re-joined. */
  function CompletedCommand(input: string, completion: string): (r: string)
    ensures |Words(input)| == 1 ==> r == completion + " "
  {
    var words := Words(input);
    if |words| == 1 then completion + " "
    else Join(words[..|words| - 1] + [completion], ' ')
  }

  /** Completing an argument keeps the command and the earlier arguments word for word. */
  lemma {:induction false} CompletedCommandKeepsEarlierWords(input: string, completion: string)
    requires |Words(input)| > 1 && ' ' !in completion
    ensures Split(CompletedCommand(input, completion), ' ') == Words(input)[..|Words(input)| - 1] + [completion]
  {
    var w := Words(input);
    SplitPiecesFree(Trim(input), ' ');
    var parts := w[..|w| - 1] + [completion];
    assert forall k :: 0 <= k < |parts| ==> ' ' !in parts[k] by {
      forall k | 0 <= k < |parts|
        ensures ' ' !in parts[k]
      {
        if k < |w| - 1 {
          assert parts[k] == w[k];
        }
      }
    }
    SplitJoin(parts, ' ');
  }

  /** The next cycle position: (index + 1) % n. index + 1 is non-negative, so
      the source's truncating % agrees with Dafny's. */
  function NextIndex(index: int, n: int): (j: int)
    requires index >= -1 && n > 0
    ensures 0 <= j < n
    ensures index + 1 < n ==> j == index + 1
    ensures index + 1 == n ==> j == 0
  {
    (index + 1) % n
  }

  /** One Tab press, given the completions of the current text and the stored
      completion state: the completed text, the completions to store and the
      index to store. */
  function TabStep(current: string, completions: seq<string>, stored: seq<string>, index: int): (r: (string, seq<string>, int))
    requires index >= -1
    ensures completions == [] ==> r == (current, stored, index)
    ensures completions != [] && stored == [] ==> r == (CompletedCommand(current, completions[0]), completions, 0)
    ensures completions != [] && stored != [] ==>
      r.1 == stored && 0 <= r.2 < |completions| && r.0 == CompletedCommand(current, completions[r.2])
    ensures completions != [] && stored != [] ==> r.2 == NextIndex(index, |completions|)
  {
    if completions == [] then (current, stored, index)
    else if stored == [] then (CompletedCommand(current, completions[0]), completions, 0)
    else
      var newIndex := NextIndex(index, |completions|);
      (CompletedCommand(current, completions[newIndex]), stored, newIndex)
  }

  // --------------------------------------------------------------- dispatch

  datatype Execution = Ignored | Recorded(item: HistoryItem)

  const HelpHint: string := "Type 'help' for a list of available commands."

  /** At most the first three suggestions are shown. */
  function Shown(suggestions: seq<string>): (r: seq<string>)
    ensures |r| <= 3 && |r| == Min(3, |suggestions|) && r == suggestions[..|r|]
  {
    if |suggestions| > 3 then suggestions[..3] else suggestions
  }

  /** The lines answering an unknown command: its name, the suggestions when
      there are any, and the help hint, separated by blank lines. */
  function NotFoundLines(command: string, suggestions: seq<string>): (r: seq<string>)
    ensures |r| >= 3 && r[0] == "Command '" + command + "' not found." && r[|r| - 1] == HelpHint
    ensures |r| == 5 <==> suggestions != []
    ensures |r| == 3 <==> suggestions == []
    ensures suggestions != [] ==> r[2] == "Did you mean: " + JoinWith(Shown(suggestions), ", ") + "?"
    ensures forall k :: 0 < k < |r| - 1 && k != 2 ==> r[k] == ""
  {
    var head := "Command '" + command + "' not found.";
    if |suggestions| > 0 then [head, "", "Did you mean: " + JoinWith(Shown(suggestions), ", ") + "?", "", HelpHint]
    else [head, "", HelpHint]
  }

  /** What executeCommand does with one input line: nothing for a blank line
      or `clear` in any case; otherwise one history item for the trimmed line,
      an error item exactly when the lowercased command is not in the table. */
  function Dispatch(input: string, reg: Registry): (e: Execution)
    ensures e == Ignored <==> Trim(input) == [] || Lower(Words(input)[0]) == "clear"
    ensures e.Recorded? ==> e.item.command == Trim(input) && e.item.command != []
    ensures e.Recorded? ==> (e.item.kind == ErrorItem <==> !ValidateCommand(Words(input)[0], reg.names))
    ensures e.Recorded? ==> e.item.kind != OutputItem
    ensures e.Recorded? && ValidateCommand(Words(input)[0], reg.names) ==>
      e.item.output == match reg.run(Lower(Words(input)[0]), Words(input)[1..])
                       case Output(lines) => lines
                       case Thrown(message) => ["Error executing command: " + message]
  {
    var trimmed := Trim(input);
    if trimmed == [] then Ignored
    else
      var words := Split(trimmed, ' ');
      var command := words[0];
      var key := Lower(command);
      if key == "clear" then Ignored
      else if key in reg.names then
        var output := match reg.run(key, words[1..])
          case Output(lines) => lines
          case Thrown(message) => ["Error executing command: " + message];
        Recorded(HistoryItem(trimmed, output, CommandItem))
      else
        Recorded(HistoryItem(trimmed, NotFoundLines(command, FuzzyMatch(key, reg.names)), ErrorItem))
  }

  /** An unknown command names itself, lists at most three fuzzy suggestions
      taken in order from the table, and ends with the help hint. */
  lemma {:induction false} NotFoundSuggestsAtMostThree(input: string, reg: Registry)
    requires Trim(input) != [] && Lower(Words(input)[0]) != "clear"
    requires !ValidateCommand(Words(input)[0], reg.names)
    ensures var command := Words(input)[0];
      var out := Dispatch(input, reg).item.output;
      var suggestions := FuzzyMatch(Lower(command), reg.names);
      && out[0] == "Command '" + command + "' not found."
      && out[|out| - 1] == HelpHint
      && (|out| == 5 <==> suggestions != [])
      && (|out| == 3 <==> suggestions == [])
      && (suggestions != [] ==>
            var shown := suggestions[..Min(3, |suggestions|)];
            && out[2] == "Did you mean: " + JoinWith(shown, ", ") + "?"
            && 1 <= |shown| <= 3
            && forall s :: s in shown ==> s in reg.names && FuzzyRelated(command, s))
  {
    var command := Words(input)[0];
    var suggestions := FuzzyMatch(Lower(command), reg.names);
    LowerIdempotent(command);
    if suggestions != [] {
      var shown := suggestions[..Min(3, |suggestions|)];
      forall s | s in shown
        ensures s in reg.names && FuzzyRelated(command, s)
      {
        assert s in suggestions;
      }
    }
  }

  // ------------------------------------------------------ history navigation

  /** ArrowUp on a non-empty history: from -1 to the newest entry, else one older, stopping at 0. */
  function HistoryUp(index: int, len: int): (r: int)
    requires len > 0 && -1 <= index < len
    ensures 0 <= r < len
    ensures index == -1 ==> r == len - 1
    ensures index >= 0 ==> r <= index && index - r <= 1
  {
    if index == -1 then len - 1 else Max(0, index - 1)
  }

  /** ArrowDown while browsing: one newer, or back to the -1 sentinel past the newest. */
  function HistoryDown(index: int, len: int): (r: int)
    requires 0 <= index < len
    ensures -1 <= r < len
    ensures r == -1 <==> index == len - 1
    ensures r != -1 ==> r == index + 1
  {
    if index + 1 >= len then -1 else index + 1
  }

  /** Down undoes Up, except at the oldest entry where Up stays put. */
  lemma {:induction false} HistoryDownUndoesUp(index: int, len: int)
    requires len > 0 && -1 <= index < len && index != 0
    ensures HistoryDown(HistoryUp(index, len), len) == index
  {
  }

  // ------------------------------------------------------------ the session

  /** The terminal's state cells and the handlers that update them. */
  class TerminalSession {
    var history: seq<HistoryItem>
    var currentCommand: string
    var commandHistory: seq<string>
    var historyIndex: int
    var tabCompletions: seq<string>
    var tabIndex: int

    /** The history index is -1 or a valid position; the tab index is -1 or a
        position, and -1 only while no completions are stored. */
    ghost predicate Valid()
      reads this
    {
      -1 <= historyIndex < |commandHistory| && tabIndex >= -1
      && (tabCompletions != [] ==> tabIndex >= 0)
    }

    constructor ()
      ensures Valid()
      ensures history == [] && currentCommand == "" && commandHistory == []
      ensures historyIndex == -1 && tabCompletions == [] && tabIndex == -1
    {
      history, currentCommand, commandHistory := [], "", [];
      historyIndex, tabCompletions, tabIndex := -1, [], -1;
    }

    /** The input field's change handler. */
    method SetCurrentCommand(text: string)
      modifies this`currentCommand
      ensures currentCommand == text
    {
      currentCommand := text;
    }

    /** executeCommand: record the dispatched item in both histories, or change nothing. */
    method ExecuteCommand(input: string, reg: Registry) returns (output: seq<string>)
      requires Valid()
      modifies this`commandHistory, this`history
      ensures Valid()
      ensures Dispatch(input, reg) == Ignored ==>
        output == [] && commandHistory == old(commandHistory) && history == old(history)
      ensures Dispatch(input, reg).Recorded? ==>
        var item := Dispatch(input, reg).item;
        output == item.output && commandHistory == old(commandHistory) + [Trim(input)]
        && history == old(history) + [item]
    {
      var e := Dispatch(input, reg);
      if e.Ignored? {
        return [];
      }
      commandHistory := commandHistory + [e.item.command];
      history := history + [e.item];
      output := e.item.output;
    }

    /** handleTabCompletion: the completed text, updating the stored completion state. */
    method HandleTabCompletion(reg: Registry) returns (completed: string)
      requires Valid()
      modifies this`tabCompletions, this`tabIndex
      ensures Valid()
      ensures (completed, tabCompletions, tabIndex) == TabStep(currentCommand, GetTabCompletions(currentCommand, reg.names), old(tabCompletions), old(tabIndex))
    {
      var completions := GetTabCompletions(currentCommand, reg.names);
      if |completions| == 0 {
        return currentCommand;
      }
      if |tabCompletions| == 0 {
        tabCompletions := completions;
        tabIndex := 0;
        return CompletedCommand(currentCommand, completions[0]);
      }
      var newIndex := (tabIndex + 1) % |completions|;
      assert newIndex == NextIndex(tabIndex, |completions|);
      tabIndex := newIndex;
      completed := CompletedCommand(currentCommand, completions[newIndex]);
    }

    /** handleKeyDown: Enter runs the line and resets the editor, the arrows
        browse the history, Tab completes, any other key drops the tab state. */
    method HandleKeyDown(key: string, reg: Registry)
      requires Valid()
      modifies this
      ensures Valid()
      ensures key == "Enter" ==>
        var e := Dispatch(old(currentCommand), reg);
        && (e == Ignored ==> commandHistory == old(commandHistory) && history == old(history))
        && (e.Recorded? ==> commandHistory == old(commandHistory) + [e.item.command] && history == old(history) + [e.item])
        && currentCommand == "" && historyIndex == -1 && tabCompletions == [] && tabIndex == -1
      ensures key != "Enter" ==> commandHistory == old(commandHistory) && history == old(history)
      ensures key == "ArrowUp" && old(commandHistory) != [] ==>
        historyIndex == HistoryUp(old(historyIndex), |commandHistory|)
        && currentCommand == commandHistory[historyIndex]
        && tabCompletions == old(tabCompletions) && tabIndex == old(tabIndex)
      ensures (key == "ArrowUp" && old(commandHistory) == []) || (key == "ArrowDown" && old(historyIndex) == -1) ==>
        historyIndex == old(historyIndex) && currentCommand == old(currentCommand)
        && tabCompletions == old(tabCompletions) && tabIndex == old(tabIndex)
      ensures key == "ArrowDown" && old(historyIndex) != -1 ==>
        historyIndex == HistoryDown(old(historyIndex), |commandHistory|)
        && currentCommand == (if historyIndex == -1 then "" else commandHistory[historyIndex])
        && tabCompletions == old(tabCompletions) && tabIndex == old(tabIndex)
      ensures key == "Tab" ==>
        (currentCommand, tabCompletions, tabIndex) == TabStep(old(currentCommand), GetTabCompletions(old(currentCommand), reg.names), old(tabCompletions), old(tabIndex))
        && historyIndex == old(historyIndex)
      ensures key !in {"Enter", "ArrowUp", "ArrowDown", "Tab"} ==>
        tabCompletions == [] && tabIndex == -1
        && currentCommand == old(currentCommand) && historyIndex == old(historyIndex)
    {
      if key == "Enter" {
        var _ := ExecuteCommand(currentCommand, reg);
        currentCommand := "";
        historyIndex := -1;
        tabCompletions := [];
        tabIndex := -1;
      } else if key == "ArrowUp" {
        if |commandHistory| > 0 {
          var newIndex := HistoryUp(historyIndex, |commandHistory|);
          historyIndex := newIndex;
          currentCommand := commandHistory[newIndex];
        }
      } else if key == "ArrowDown" {
        if historyIndex != -1 {
          var newIndex := historyIndex + 1;
          if newIndex >= |commandHistory| {
            historyIndex := -1;
            currentCommand := "";
          } else {
            historyIndex := newIndex;
            currentCommand := commandHistory[newIndex];
          }
        }
      } else if key == "Tab" {
        var completed := HandleTabCompletion(reg);
        currentCommand := completed;
      } else {
        tabCompletions := [];
        tabIndex := -1;
      }
    }
  }
}
