# Browser desktop: window manager, window component and terminal

A Dafny model of the core of a browser-hosted desktop environment written in
React and TypeScript. The model covers five parts:

- **Window manager** (`useWindowManager`). This is a single state record
  holding the app instances, the focused id and the next z-index. Each action
  (open, two-phase close, minimize, maximize, restore, move, resize, bring to
  front) rewrites the record through an updater that touches only the
  instance with the given id.
- **Window component** (`Window.tsx`). It holds drag and resize sessions in
  component state, clamps a dragged window into the viewport, computes a
  resize frame edge by edge with minimum and maximum sizes, decides whether
  closing needs a confirmation dialog, and handles the Cmd/Ctrl keyboard
  shortcuts.
- **Terminal**:
  - the line editor (`Terminal/utils.ts`): tab completion, command dispatch
    with fuzzy "did you mean" suggestions, and the command history with
    up/down browsing;
  - the helpers it relies on (`terminalUtils.ts`): the fixed portfolio file
    system, command validation, fuzzy matching, the text progress bar and the
    marker-prefixed output line;
  - the `cat`, `tree` and `find` file commands.
- **Responsive helpers** (`useResponsive.ts`): viewport classification into
  mobile, tablet and desktop, the width breakpoints, the mobile feature flags,
  and adaptive window placement.
- **Bundle chunking** (`manualChunks` in `vite.config.ts`): module ids are
  assigned to chunks by the first substring test that matches.

Stateful parts are Dafny classes whose methods have `modifies` clauses. Each
method is proved against a pure function of the old state:

- `WindowManager.WindowManager` is the hook's state cell.
- `WindowComponent.WindowSession` holds the component's drag, resize and
  dialog cells.
- `Terminal.TerminalSession` holds the terminal's history, input and
  tab-completion cells.

`tree` and `find` are methods with nested loops, proved against recursive
specification functions. The rest is pure functions and lemmas.

JavaScript's string operations are modelled explicitly in module `Strings`:
`toLowerCase` on ASCII, `startsWith`, `includes`, `trim`, `split(" ")`,
`join` and the decimal text of an integer. Object key order is the order of a
sequence of key/value pairs.

## Model

| member | source | states |
|---|---|---|
| Util.Filter | src/hooks/useWindowManager.ts:232-241 | the kept elements are exactly those of the input satisfying the predicate, and there are no more of them than inputs (Array.prototype.filter) |
| Util.FilterSubsequence | src/hooks/useWindowManager.ts:232-241 | filter keeps the survivors in their original order |
| Util.FilterAppend | src/hooks/useWindowManager.ts:40-43 | filtering a concatenation is the concatenation of the filtered parts |
| Util.FlatMapAt | src/components/apps/Terminal/commands/fileCommands.ts:76-88 | each element's items sit between those of the elements before and after it |
| Util.FlatMapMembership | src/components/apps/Terminal/commands/fileCommands.ts:76-88 | an item is in the concatenation exactly when some element contributes it |
| Strings.LowerIdempotent | src/utils/terminalUtils.ts:175 | lowercasing twice is lowercasing once |
| Strings.ContainsPrefixOf | vite.config.ts:23-28 | a string containing t contains every prefix of t |
| Strings.TrimStartSpec | src/components/apps/Terminal/utils.ts:76 | trimStart removes exactly the leading white space |
| Strings.TrimEndSpec | src/components/apps/Terminal/utils.ts:76 | trimEnd removes exactly the trailing white space |
| Strings.TrimSpec | src/components/apps/Terminal/utils.ts:76-78 | trim is empty exactly for all-white-space input; otherwise it starts and ends with a non-space |
| Strings.SplitPiecesFree | src/components/apps/Terminal/utils.ts:9 | no piece of split(" ") contains a space |
| Strings.JoinSplit | src/components/apps/Terminal/utils.ts:58-65 | joining the pieces of a split gives back the string |
| Strings.SplitJoin | src/components/apps/Terminal/utils.ts:63-65 | splitting a join of space-free pieces gives back the pieces |
| Strings.SplitLastNonEmpty | src/components/apps/Terminal/utils.ts:25 | a string ending in a non-space has a non-empty last piece |
| Strings.ParseNatToString | src/hooks/useWindowManager.ts:44-45 | the decimal text of n reads back as n |
| Strings.NatToStringInjective | src/hooks/useWindowManager.ts:44-45 | distinct numbers have distinct decimal texts |
| WindowManager.MapById | src/hooks/useWindowManager.ts:92-100 | the per-id map changes only the apps with that id, each by the given updater, and keeps length, ids and names |
| WindowManager.InstanceId | src/hooks/useWindowManager.ts:43-45 | the instance id starts with the base id and equals it exactly for the first instance |
| WindowManager.InstanceName | src/hooks/useWindowManager.ts:57 | the display name starts with the app name and equals it only for the first instance |
| WindowManager.InitialPosition | src/hooks/useWindowManager.ts:48-71 | each coordinate is the anchor plus 50 px per earlier instance or the cap that leaves 400 by 300 px of the viewport, whichever is smaller; below the cap it is the staggered value |
| WindowManager.InitialPositionCapped | src/hooks/useWindowManager.ts:66-67 | a staggered coordinate past the cap lands exactly on innerWidth - 400 or innerHeight - 300 |
| WindowManager.Open | src/hooks/useWindowManager.ts:24-87 | one instance is appended with the computed id, name, position and size, and the next z-index; it gets the focus and the counter goes up by one |
| WindowManager.BeginClose | src/hooks/useWindowManager.ts:90-101 | the first phase of close sets isClosing on that id only |
| WindowManager.FinishClose | src/hooks/useWindowManager.ts:104-118 | the second phase sets closed and not closing, and removes the focus if it was on this id |
| WindowManager.ToggleMinimize | src/hooks/useWindowManager.ts:122-136 | flips isMinimized on that id and removes the focus if it was on it |
| WindowManager.ToggleMaximize | src/hooks/useWindowManager.ts:139-155 | flips isMaximized, clears isMinimized and leaves the focus alone |
| WindowManager.Restore | src/hooks/useWindowManager.ts:158-179 | un-minimizes, un-closes, raises to the next z-index and focuses the id, spending a z-index even when no app has the id |
| WindowManager.SetPosition | src/hooks/useWindowManager.ts:182-194 | replaces the position of that id and nothing else |
| WindowManager.SetSize | src/hooks/useWindowManager.ts:197-209 | replaces the size of that id and nothing else |
| WindowManager.Raise | src/hooks/useWindowManager.ts:212-229 | gives that id the next z-index and the focus, always spending one z-index |
| WindowManager.WindowApps | src/hooks/useWindowManager.ts:239-241 | the windows to render are exactly the instances not closed, in order |
| WindowManager.DesktopApps | src/hooks/useWindowManager.ts:232-236 | the desktop icons are exactly the closed or minimized instances, in order |
| WindowManager.ShouldShowDesktop | src/hooks/useWindowManager.ts:244-248 | the desktop shows exactly when no window is left to render |
| WindowManager.ApplyKeepsZOrdered | src/hooks/useWindowManager.ts:24-229 | every action keeps all z-indices below the counter, and the counter never goes down |
| WindowManager.ApplyAllKeepsZOrdered | src/hooks/useWindowManager.ts:24-229 | any sequence of actions keeps z-indices below the counter |
| WindowManager.NonOpenKeepsIds | src/hooks/useWindowManager.ts:90-229 | only open changes the number or the order of the instances |
| WindowManager.ApplyAllKeepsIds | src/hooks/useWindowManager.ts:24-229 | instances are never removed or reordered; ids and names stay fixed |
| WindowManager.RaisedIsTopmost | src/hooks/useWindowManager.ts:158-229 | after bringToFront or restore the window is above every window with another id |
| WindowManager.OpenedIsTopmost | src/hooks/useWindowManager.ts:76-83 | a newly opened window is above every earlier one |
| WindowManager.MinimizeTwice | src/hooks/useWindowManager.ts:122-136 | minimizing twice gives back the apps; the focus stays dropped |
| WindowManager.MaximizeTwice | src/hooks/useWindowManager.ts:139-155 | maximizing twice restores isMaximized and leaves the window un-minimized |
| WindowManager.RestoreReopensClosed | src/hooks/useWindowManager.ts:90-179 | a closed instance that is restored renders as a window again |
| WindowManager.ClosedIsDesktopIcon | src/hooks/useWindowManager.ts:90-241 | after both close phases an instance is not a window but is a desktop icon |
| WindowManager.InstanceIdInjective | src/hooks/useWindowManager.ts:43-45 | distinct instance numbers give distinct ids for one base id |
| WindowManager.OpenCountsItself | src/hooks/useWindowManager.ts:40-43 | after an open, one more instance of the base id is counted |
| WindowManager.OpenTwiceDistinctIds | src/hooks/useWindowManager.ts:40-45 | two opens of one base id in a row get different ids |
| WindowManager.ThreeOpens | src/hooks/useWindowManager.ts:17-87 | three opens from an empty desktop give `b`, `b-2` and `b-3`, named `N`, `N (2)` and `N (3)`, at z-indices 1000, 1001 and 1002 |
| WindowManager.PrefixCollision | src/hooks/useWindowManager.ts:40-45 | the startsWith count is not unique: opening "a-2" and then "a" yields two instances with id "a-2" |
| WindowManager.WindowManager.OpenApp | src/hooks/useWindowManager.ts:24-87 | the state cell becomes Open of the old state, keeps the z-order invariant and focuses the new last instance |
| WindowManager.WindowManager.CloseApp | src/hooks/useWindowManager.ts:90-101 | the state cell becomes BeginClose of the old state |
| WindowManager.WindowManager.FinishCloseApp | src/hooks/useWindowManager.ts:104-118 | the state cell becomes FinishClose of the old state, and the id is not focused |
| WindowManager.WindowManager.MinimizeApp | src/hooks/useWindowManager.ts:122-136 | the state cell becomes ToggleMinimize of the old state, and the id is not focused |
| WindowManager.WindowManager.MaximizeApp | src/hooks/useWindowManager.ts:139-155 | the state cell becomes ToggleMaximize of the old state, with the focus unchanged |
| WindowManager.WindowManager.RestoreApp | src/hooks/useWindowManager.ts:158-179 | the state cell becomes Restore of the old state, focused and with the counter one higher |
| WindowManager.WindowManager.UpdateAppPosition | src/hooks/useWindowManager.ts:182-194 | the state cell becomes SetPosition of the old state |
| WindowManager.WindowManager.UpdateAppSize | src/hooks/useWindowManager.ts:197-209 | the state cell becomes SetSize of the old state |
| WindowManager.WindowManager.BringToFront | src/hooks/useWindowManager.ts:212-229 | the state cell becomes Raise of the old state, focused and with the counter one higher |
| WindowComponent.DragClamp | src/components/ui/Window/Window.tsx:62-92 | the dragged position stays at least 100 px reachable horizontally and keeps the title bar between the top and 40 px above the bottom; positions already inside are unchanged |
| WindowComponent.DragClampAtBounds | src/components/ui/Window/Window.tsx:76-83 | a candidate beyond a bound lands exactly on that bound |
| WindowComponent.DragClampExample | src/components/ui/Window/Window.tsx:62-92 | on a 1024 by 768 viewport, a 400 px window dragged to (-1000, -500) stops at (-300, 0) |
| WindowComponent.DragFollowsPointer | src/components/ui/Window/Window.tsx:46-70 | with the origin taken at mouse-down, the window moves by exactly the pointer's displacement |
| WindowComponent.ResizeAxis | src/components/ui/Window/Window.tsx:127-166 | the far edge follows the pointer but not below the minimum; the near edge keeps the opposite edge fixed and also respects the minimum |
| WindowComponent.Cap | src/components/ui/Window/Window.tsx:165-166 | the optional maximum, when non-zero, caps the length; otherwise the length is unchanged |
| WindowComponent.NearEdgeKeepsMinimum | src/components/ui/Window/Window.tsx:145-166 | a near-edge resize never shrinks below the minimum, and only grows when the pointer moves outward |
| WindowComponent.WestEdgeExample | src/components/ui/Window/Window.tsx:145-150 | at x = 100 with width 300 and minimum 200, a 150 px move to the right gives width 200 at x = 200 |
| WindowComponent.ResizeFrame | src/components/ui/Window/Window.tsx:127-166 | an edge outside the direction leaves its axis at the start; a dragged edge keeps the minimum; a near edge keeps the opposite edge fixed; a set maximum bounds the size |
| WindowComponent.CloseNeedsConfirm | src/components/ui/Window/Window.tsx:229-235 | the dialog is used only when confirmation is requested, never when it is skipped, and always when requested and not skipped |
| WindowComponent.CapsKeepPosition | src/components/ui/Window/Window.tsx:165-166 | the maxima change only the size, never the position |
| WindowComponent.KeyShortcut | src/components/ui/Window/Window.tsx:318-338 | Cmd/Ctrl+W closes, Cmd/Ctrl+M minimizes and Cmd/Ctrl+Shift+Enter maximizes, each exactly under those keys, and nothing happens while the window is closed or minimized |
| WindowComponent.WindowSession.constructor | src/components/ui/Window/Window.tsx:23-40 | the initial drag, resize and dialog cells |
| WindowComponent.WindowSession.MouseDown | src/components/ui/Window/Window.tsx:46-60 | the primary button on a non-maximized window starts a drag whose origin is the pointer minus the position; otherwise nothing changes |
| WindowComponent.WindowSession.MouseMove | src/components/ui/Window/Window.tsx:62-92 | a position is reported exactly when dragging, not maximized, the element is still mounted and a callback exists, and it is the clamp of pointer minus origin for the element's width |
| WindowComponent.WindowSession.MouseUp | src/components/ui/Window/Window.tsx:94-96 | the drag ends |
| WindowComponent.WindowSession.ResizeStart | src/components/ui/Window/Window.tsx:99-124 | captures the edge, the pointer, the size (from state if present, else the rectangle) and the rectangle's position; nothing changes when maximized, for another button, or without an element |
| WindowComponent.WindowSession.MoveAxis | src/components/ui/Window/Window.tsx:141-162 | one axis of the resize loop computes exactly ResizeAxis |
| WindowComponent.WindowSession.ResizeMove | src/components/ui/Window/Window.tsx:127-180 | a frame is written only while resizing with the element mounted and both dimensions positive, and it is ResizeFrame of the session and the pointer |
| WindowComponent.WindowSession.ResizeEnd | src/components/ui/Window/Window.tsx:183-215 | an active session commits the rectangle's size, and its position only when there is a callback, then resets the session |
| WindowComponent.WindowSession.HandleClose | src/components/ui/Window/Window.tsx:229-235 | onClose is called exactly when confirmation is not requested or is skipped; otherwise the dialog opens |
| WindowComponent.WindowSession.ConfirmClose | src/components/ui/Window/Window.tsx:237-240 | the dialog closes and onClose is called |
| WindowComponent.WindowSession.CancelClose | src/components/ui/Window/Window.tsx:446 | the dialog closes |
| WindowComponent.WindowSession.KeyPress | src/components/ui/Window/Window.tsx:318-338 | each shortcut calls its control; Cmd/Ctrl+W goes through handleClose and so may open the dialog instead |
| TerminalUtils.FileSystemShape | src/utils/terminalUtils.ts:16-83 | twelve distinct top-level keys: ten files and two directories of two files each |
| TerminalUtils.ValidateCommand | src/utils/terminalUtils.ts:171-176 | a command validates exactly when the table lists an all-lowercase name equal to it up to case |
| TerminalUtils.FuzzyMatch | src/utils/terminalUtils.ts:178-184 | a command is suggested exactly when either lowercased text contains the other |
| TerminalUtils.FuzzyMatchKeepsOrder | src/utils/terminalUtils.ts:178-184 | suggestions keep the command table's order |
| TerminalUtils.FuzzyEmptyInputAll | src/utils/terminalUtils.ts:178-184 | the empty input suggests every command, in order |
| TerminalUtils.ValidCommandIsSuggested | src/utils/terminalUtils.ts:171-184 | a valid command is among its own fuzzy suggestions |
| TerminalUtils.Cells | src/utils/terminalUtils.ts:104 | the filled cells come first and the empty cells after |
| TerminalUtils.Filled | src/utils/terminalUtils.ts:102 | the filled count is the floor of progress percent of the width |
| TerminalUtils.ProgressBar | src/utils/terminalUtils.ts:98-105 | the bar fails exactly when the filled or empty count is negative; otherwise it has the width, the brackets, the percentage, and exactly the first Filled cells full |
| TerminalUtils.ProgressBarInRange | src/utils/terminalUtils.ts:98-105 | for progress from 0 to 100 and a non-negative width the bar always renders |
| TerminalUtils.ProgressBarMonotone | src/utils/terminalUtils.ts:102 | more progress never fills fewer cells |
| TerminalUtils.FormatOutput | src/utils/terminalUtils.ts:85-96 | the line is the kind's marker, a space and the text |
| TerminalUtils.FormatOutputInjective | src/utils/terminalUtils.ts:85-96 | different kinds or texts never format to the same line |
| Terminal.Words | src/components/apps/Terminal/utils.ts:9 | trim().split(" ") always has a first word |
| Terminal.CommandCompletions | src/components/apps/Terminal/utils.ts:13-15 | the completions of a word are exactly the command names starting with the lowercased word |
| Terminal.FileCompletions | src/components/apps/Terminal/utils.ts:18-26 | the completions of a cat argument are exactly the listed files starting with the lowercased argument |
| Terminal.TabCompletionsSpec | src/components/apps/Terminal/utils.ts:4-30 | one word offers exactly the command names it starts; after `cat`, exactly the listed files the last argument starts; any other input offers nothing |
| Terminal.CommandCompletionsKeepOrder | src/components/apps/Terminal/utils.ts:4-15 | a single word is completed from the command names, in table order |
| Terminal.CatNeverCompletesReadme | src/components/apps/Terminal/utils.ts:16-26 | after `cat`, README.md is never offered, since the lowercased argument can never start with "R" |
| Terminal.CompletedCommand | src/components/apps/Terminal/utils.ts:57-67 | a single word becomes the completion followed by a space |
| Terminal.CompletedCommandKeepsEarlierWords | src/components/apps/Terminal/utils.ts:57-67 | completing an argument keeps the command and the earlier arguments word for word and replaces only the last |
| Terminal.NextIndex | src/components/apps/Terminal/utils.ts:52 | the next cycle position is in range and wraps from the last back to 0 |
| Terminal.TabStep | src/components/apps/Terminal/utils.ts:32-55 | without completions nothing changes; the first Tab stores the completions and takes the first; later Tabs keep the stored list and take the next position modulo the fresh completions |
| Terminal.Shown | src/components/apps/Terminal/utils.ts:110 | at most the first three suggestions are shown |
| Terminal.Dispatch | src/components/apps/Terminal/utils.ts:69-136 | blank input and `clear` in any case are ignored; anything else records the trimmed line, as an error exactly when the lowercased command is unknown, with the command's output or the thrown error's text |
| Terminal.NotFoundLines | src/components/apps/Terminal/utils.ts:99-121 | the command's not-found line first and the help hint last, five lines with the did-you-mean line when there are suggestions and three without, the rest blank |
| Terminal.NotFoundSuggestsAtMostThree | src/components/apps/Terminal/utils.ts:99-121 | an unknown command names itself, lists up to three fuzzy suggestions from the table, and ends with the help hint |
| Terminal.HistoryUp | src/components/apps/Terminal/utils.ts:159-168 | ArrowUp goes from the sentinel to the newest entry, otherwise one entry older, stopping at the oldest |
| Terminal.HistoryDown | src/components/apps/Terminal/utils.ts:169-180 | ArrowDown goes one entry newer, or back to the sentinel past the newest |
| Terminal.HistoryDownUndoesUp | src/components/apps/Terminal/utils.ts:159-180 | Down undoes Up everywhere except at the oldest entry |
| Terminal.TerminalSession.constructor | src/components/apps/Terminal/utils.ts:138-199 | empty histories and input, both indices at the -1 sentinel |
| Terminal.TerminalSession.SetCurrentCommand | src/components/apps/Terminal/utils.ts:146 | the input holds the typed text |
| Terminal.TerminalSession.ExecuteCommand | src/components/apps/Terminal/utils.ts:69-136 | both histories grow by the dispatched item exactly when it is recorded, and the output is its output |
| Terminal.TerminalSession.HandleTabCompletion | src/components/apps/Terminal/utils.ts:32-55 | the completed text and the new tab cells are TabStep of the input and the old tab cells |
| Terminal.TerminalSession.HandleKeyDown | src/components/apps/Terminal/utils.ts:138-199 | Enter executes and resets the editor; the arrows browse the history; Tab completes; any other key drops the tab state; only Enter changes the histories |
| FileCommands.Cat | src/components/apps/Terminal/commands/fileCommands.ts:21-72 | always one line: the usage line when the first argument is missing or empty, the not-connected line for the nine text sections, the binary-file line for the resume |
| FileCommands.TopLevelFiles | src/utils/terminalUtils.ts:16-83 | the top-level files are the nine text sections and the resume |
| FileCommands.CatKnowsTopLevelFiles | src/components/apps/Terminal/commands/fileCommands.ts:27-71 | a non-empty name gets the no-such-file line exactly when it is not a top-level file, so directories get it too; the other top-level files get the not-connected line and the resume the binary-file line |
| FileCommands.DirLine | src/components/apps/Terminal/commands/fileCommands.ts:79 | a directory's line ends in a slash |
| FileCommands.Tree | src/components/apps/Terminal/commands/fileCommands.ts:74-90 | the listing is the header followed by each key's lines in key order |
| FileCommands.ChildLinesCount | src/components/apps/Terminal/commands/fileCommands.ts:81-83 | one line per child |
| FileCommands.TreeLineCount | src/components/apps/Terminal/commands/fileCommands.ts:74-90 | one line per key plus one per child of a directory |
| FileCommands.TreeListsEntry | src/components/apps/Terminal/commands/fileCommands.ts:76-88 | every key is listed in its place: a file by its page line, a directory by its slash line followed by its children |
| FileCommands.Find | src/components/apps/Terminal/commands/fileCommands.ts:92-117 | usage without arguments; otherwise the hits for the lowercased term, or one no-match line when there are none |
| FileCommands.FindHitsAppend | src/components/apps/Terminal/commands/fileCommands.ts:100-112 | the hits of a concatenation are the concatenation of the hits |
| FileCommands.DirectoryHitPrecedesChildren | src/components/apps/Terminal/commands/fileCommands.ts:100-112 | hits come grouped by key in key order, and a matching directory comes before its matching children |
| FileCommands.ChildHitsMembership | src/components/apps/Terminal/commands/fileCommands.ts:105-111 | a child hit is exactly dir/child for a matching child |
| FileCommands.EntryHitsMembership | src/components/apps/Terminal/commands/fileCommands.ts:100-111 | a key's hits are exactly the key when it matches, plus its child hits |
| FileCommands.FindHitsMembership | src/components/apps/Terminal/commands/fileCommands.ts:100-112 | a name is found exactly when it is a matching key or dir/child of a matching child |
| Responsive.Measure | src/hooks/useResponsive.ts:30-42 | exactly one of mobile (below 768), tablet and desktop (from 1024) holds; portrait exactly when taller than wide |
| Responsive.InitialState | src/hooks/useResponsive.ts:14-27 | without a window object the first state is a 1024 by 768 non-touch desktop in landscape |
| Responsive.SquareIsLandscape | src/hooks/useResponsive.ts:24-40 | a square viewport is landscape |
| Responsive.ThresholdsAscend | src/hooks/useResponsive.ts:67-73 | the breakpoint thresholds increase from sm to xxl |
| Responsive.UseBreakpoint | src/hooks/useResponsive.ts:64-76 | no breakpoint is reached below 640 px, every one from 1536 px, and sm and xxl exactly at their thresholds |
| Responsive.BreakpointMonotone | src/hooks/useResponsive.ts:64-76 | reaching a breakpoint means reaching every smaller one |
| Responsive.BreakpointsMatchClasses | src/hooks/useResponsive.ts:35-75 | md is reached exactly off mobile and lg exactly on desktop |
| Responsive.MobileFeaturesOf | src/hooks/useResponsive.ts:79-94 | fullscreen and hidden handles on mobile; pinch zoom exactly with touch and hover exactly without; the preferred size leaves 20 by 60 px on mobile, else 800 by 600 |
| Responsive.MobileSplitsInTwo | src/hooks/useResponsive.ts:84-85 | small (below 480) and large phones are disjoint and together are exactly the mobile widths |
| Responsive.PreferredSizeFitsPhone | src/hooks/useResponsive.ts:88-90 | on a phone the preferred window leaves 20 px across and 60 px down |
| Responsive.LastDigit | src/hooks/useResponsive.ts:112 | the id's last digit, or 0 when the id is empty or ends in a non-digit |
| Responsive.CascadeOffset | src/hooks/useResponsive.ts:113-114 | 50 px plus a multiple of 30, at most 320 |
| Responsive.OptimalPosition | src/hooks/useResponsive.ts:100-120 | on a phone x is the larger of 10 px and the centring offset, and y is a tenth of the height up to 600 px and 60 px above it; elsewhere each coordinate is the smaller of the cascade offset and the value ending the window 50 px before the right or bottom edge |
| Responsive.PhoneWindowCentred | src/hooks/useResponsive.ts:103-108 | on a phone with room to spare the window is centred horizontally |
| Responsive.DesktopCascade | src/hooks/useResponsive.ts:111-119 | on a large screen the window sits at its cascade offset, and consecutive id digits are 30 px apart |
| Responsive.ConstrainedPosition | src/hooks/useResponsive.ts:122-132 | coordinates are never negative, a window that fits stays inside the screen, and a position already inside is unchanged |
| Responsive.ConstrainIdempotent | src/hooks/useResponsive.ts:122-132 | constraining twice is constraining once |
| Responsive.OversizedPinnedToCorner | src/hooks/useResponsive.ts:128-131 | a window larger than the screen is pinned to the top-left corner |
| Chunks.ManualChunks | vite.config.ts:10-32 | the result is one of the six chunk names or no chunk |
| Chunks.PdfFirst | vite.config.ts:11-13 | PDF modules go to pdf-viewer whatever else the id contains |
| Chunks.FirstMatchWins | vite.config.ts:14-22 | web-llm and transformers are assigned exactly when their test is the first one to match |
| Chunks.ReactVendor | vite.config.ts:23-25 | an id containing "react" that no pdf, web-llm or transformers test claimed goes to react-vendor |
| Chunks.RouterIdsContainReact | vite.config.ts:23-28 | every react-router id contains "react" |
| Chunks.RouterChunkUnreachable | vite.config.ts:23-28 | the router chunk is never produced; react-router ids go to react-vendor |
| Chunks.VendorOrNothing | vite.config.ts:29-32 | remaining node_modules ids go to vendor; every other id gets no chunk |
| Chunks.IntendedManualChunks | vite.config.ts:10-32 | the assignment with the router test before the react test |
| Chunks.IntendedRouterChunk | vite.config.ts:23-28 | with the reordering, react-router ids reach the router chunk and every other id is assigned as before |

## Left out

- The close timer is not modelled: the 300 ms delay between the two close phases. `CloseApp` and `FinishCloseApp` are separate calls, in either order with other actions.
- React mechanics are not modelled: re-rendering, `useCallback` dependency lists, effects, and event-listener registration and removal. This includes the resize and orientation listeners of `useResponsive`. Each state cell is a class field rewritten by its setter.
- DOM and browser reads become parameters:
  - `window.innerWidth`/`innerHeight` and their products, such as the 20%/15% anchors and the half-viewport default size;
  - the element's bounding rectangle, which is `None` when the element is missing, and for a resize move only whether the element is mounted;
  - touch support.
- WindowManager.Viewport: the viewport products are whole pixels supplied by the caller, not floating-point products.
- The rendered component, icon and extra props of an app instance are opaque to the manager and not carried.
- Not modelled in the window component: `handleTitlebarDoubleClick`, `handleWindowClick` (bring-to-front on click), the CSS classes and the JSX tree.
- Strings.Lower: `toLowerCase` is ASCII-only. Non-ASCII letters are left unchanged.
- Strings.Split: only a one-character separator (`split(" ")`) is modelled.
- TerminalUtils.Filled: the count is the exact floor of progress × width / 100. JavaScript computes `Math.floor((progress / 100) * width)` in floating point, which can be one lower: for 29% of 100 it is 28. Non-integer progress and widths are not modelled.
- TerminalUtils.ProgressBar: `String.prototype.repeat` throwing a RangeError is `None`. Its `${progress}` rendering is modelled for integers only.
- Responsive.OptimalPosition: `screenHeight * 0.1` is the exact tenth, not its floating-point product. Positions are exact rationals.
- Terminal.Registry: the command table is a parameter, namely its keys in `Object.keys` order and what each command returns or throws. The commands' own effects are the table's, for example `clear` emptying the screen history and the personal, fun, system and utility commands. Inherited object keys, such as `constructor` looked up by `commands[name]`, are not modelled.
- Terminal.TerminalSession.HandleKeyDown: `preventDefault` is not modelled.
- The thrown value in executeCommand is represented by its text. Its JavaScript string conversion is not modelled.
- Not modelled, because none is part of the core: `createWelcomeMessage`, `typewriterEffect` and the `TypeWriter` component, `formatFileSize`, `generateMockFileStats`, `getCurrentTime`, `getCurrentDate`, `getSystemInfo`, `calculateAge`, `getRandomQuote`, and the `ls`, `pwd` and `whoami` commands.
- The enhanced `cat` that the command index builds on top of `fileCommands.cat` is not part of this model.
- The AI chat and PDF viewer applications are not modelled: they depend on asynchronous model loading and foreign libraries.
- The rest of `vite.config.ts` is build configuration with no behaviour and is not modelled. This covers server headers, aliases and dependency optimisation.

## Findings

| source | as written | input that shows it | evidently intended | confidence | as-written member | corrected member |
|---|---|---|---|---|---|---|
| vite.config.ts:23-28 | the "react" test comes before the "react-router" test, so every react-router module is already taken by react-vendor | any id containing "node_modules/react-router/" | react-router modules go to their own "router" chunk, as the branch that names it says | high; not executed | Chunks.RouterChunkUnreachable | Chunks.IntendedRouterChunk |
