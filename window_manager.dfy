/** The window manager hook (src/hooks/useWindowManager.ts): one held record
    {apps, activeAppId, nextZIndex}, rewritten by each action through a pure
    updater that maps over the apps and touches only the one whose id matches.

    The pure updaters are the module-level functions below; the class
    `WindowManager` is the held state cell and applies them. */
module WindowManager {
  import opened Util
  import opened Strings
  import opened WindowTypes

  /** The z-index the first window receives. */
  const InitialZIndex: int := 1000
  /** Stagger between successive instances of one application, on each axis. */
  const StaggerOffset: int := 50
  /** Room kept free to the right of / below a new window's top-left corner. */
  const ReservedWidth: int := 400
  const ReservedHeight: int := 300

  /** What `openApp` reads from the browser window. The anchors are
      innerWidth * 0.2 and innerHeight * 0.15 and the default size is half the
      viewport on each axis; the caller supplies the products. */
  datatype Viewport = Viewport(innerWidth: int, innerHeight: int, anchorX: int, anchorY: int, defaultSize: Size)

  datatype ManagerState = ManagerState(apps: seq<AppInstance>, activeAppId: Option<string>, nextZIndex: int)

  function Initial(): ManagerState
  {
    ManagerState([], None, InitialZIndex)
  }

  /** Every window lies strictly below the next z-index to be handed out. */
  ghost predicate ZOrdered(s: ManagerState)
  {
    forall i :: 0 <= i < |s.apps| ==> s.apps[i].state.zIndex < s.nextZIndex
  }

  /** Same length, same ids and names in the same order, and every app whose
      id is not `id` is untouched. */
  ghost predicate OnlyIdChanged(before: seq<AppInstance>, after: seq<AppInstance>, id: string)
  {
    |after| == |before|
    && forall i :: 0 <= i < |before| ==>
         after[i].id == before[i].id && after[i].name == before[i].name
         && (before[i].id != id ==> after[i] == before[i])
  }

  /** apps.map(app => app.id === id ? {...app, state: f(app.state)} : app) */
  function MapById(apps: seq<AppInstance>, id: string, f: WindowState -> WindowState): (r: seq<AppInstance>)
    ensures OnlyIdChanged(apps, r, id)
    ensures forall i :: 0 <= i < |apps| && apps[i].id == id ==> r[i].state == f(apps[i].state)
  {
    seq(|apps|, i requires 0 <= i < |apps| =>
      if apps[i].id == id then apps[i].(state := f(apps[i].state)) else apps[i])
  }

  // ---------------------------------------------------------------- open

  function PrefixMatches(apps: seq<AppInstance>, baseId: string): seq<AppInstance>
  {
    Filter(apps, (a: AppInstance) => IsPrefix(baseId, a.id))
  }

  /** How many tracked instances (closed ones included) have an id starting with baseId. */
  function ExistingCount(apps: seq<AppInstance>, baseId: string): nat
  {
    |PrefixMatches(apps, baseId)|
  }

  /** The id of instance number n: the base id itself for the first, `${baseId}-${n}` after. */
  function InstanceId(baseId: string, n: nat): (r: string)
    ensures IsPrefix(baseId, r)
    ensures r == baseId <==> n == 1
  {
    if n == 1 then baseId else baseId + "-" + NatToString(n)
  }

  /** The display name of instance number n: ` (n)` is appended from the second on. */
  function InstanceName(name: string, n: nat): (r: string)
    ensures IsPrefix(name, r)
    ensures r == name <==> n <= 1
  {
    name + (if n > 1 then " (" + NatToString(n) + ")" else "")
  }

  /** Anchor plus (n - 1) * 50 on each axis, capped so that the window's
      top-left corner leaves 400 by 300 pixels of the viewport. */
  function InitialPosition(view: Viewport, n: nat): (p: Position)
    ensures p.x <= view.innerWidth - ReservedWidth && p.y <= view.innerHeight - ReservedHeight
    ensures p.x == view.anchorX + (n - 1) * StaggerOffset || p.x == view.innerWidth - ReservedWidth
    ensures p.y == view.anchorY + (n - 1) * StaggerOffset || p.y == view.innerHeight - ReservedHeight
    ensures view.anchorX + (n - 1) * StaggerOffset <= view.innerWidth - ReservedWidth
            ==> p.x == view.anchorX + (n - 1) * StaggerOffset
    ensures view.anchorY + (n - 1) * StaggerOffset <= view.innerHeight - ReservedHeight
            ==> p.y == view.anchorY + (n - 1) * StaggerOffset
  {
    Position(Min(view.anchorX + (n - 1) * StaggerOffset, view.innerWidth - ReservedWidth),
             Min(view.anchorY + (n - 1) * StaggerOffset, view.innerHeight - ReservedHeight))
  }

  /** Past the cap, a coordinate sits exactly on it. */
  lemma {:induction false} InitialPositionCapped(view: Viewport, n: nat)
    ensures view.anchorX + (n - 1) * StaggerOffset > view.innerWidth - ReservedWidth
            ==> InitialPosition(view, n).x == view.innerWidth - ReservedWidth
    ensures view.anchorY + (n - 1) * StaggerOffset > view.innerHeight - ReservedHeight
            ==> InitialPosition(view, n).y == view.innerHeight - ReservedHeight
  {
  }

  /** openApp: append one fresh instance on top of every other window and focus it. */
  function Open(s: ManagerState, baseId: string, name: string, view: Viewport): (r: ManagerState)
    ensures |r.apps| == |s.apps| + 1 && r.apps[..|s.apps|] == s.apps
    ensures var a := r.apps[|s.apps|]; var n := ExistingCount(s.apps, baseId) + 1;
      && a.id == InstanceId(baseId, n)
      && a.name == InstanceName(name, n)
      && a.state == WindowState(false, false, false, false, InitialPosition(view, n), Some(view.defaultSize), s.nextZIndex)
    ensures r.activeAppId == Some(r.apps[|s.apps|].id)
    ensures r.nextZIndex == s.nextZIndex + 1
  {
    var n := ExistingCount(s.apps, baseId) + 1;
    var id := InstanceId(baseId, n);
    var app := AppInstance(id, InstanceName(name, n),
      WindowState(false, false, false, false, InitialPosition(view, n), Some(view.defaultSize), s.nextZIndex));
    ManagerState(s.apps + [app], Some(id), s.nextZIndex + 1)
  }

  // ------------------------------------------------- per-instance actions

  /** closeApp, first phase: start the exit animation. */
  function BeginClose(s: ManagerState, id: string): (r: ManagerState)
    ensures OnlyIdChanged(s.apps, r.apps, id)
    ensures forall i :: 0 <= i < |s.apps| && s.apps[i].id == id ==>
      r.apps[i].state == s.apps[i].state.(isClosing := true)
    ensures r.activeAppId == s.activeAppId && r.nextZIndex == s.nextZIndex
  {
    s.(apps := MapById(s.apps, id, (w: WindowState) => w.(isClosing := true)))
  }

  /** closeApp, second phase (300 ms later): closed, no longer closing, and unfocused if it was focused. */
  function FinishClose(s: ManagerState, id: string): (r: ManagerState)
    ensures OnlyIdChanged(s.apps, r.apps, id)
    ensures forall i :: 0 <= i < |s.apps| && s.apps[i].id == id ==>
      r.apps[i].state == s.apps[i].state.(isClosed := true, isClosing := false)
    ensures r.activeAppId == if s.activeAppId == Some(id) then None else s.activeAppId
    ensures r.nextZIndex == s.nextZIndex
  {
    ManagerState(MapById(s.apps, id, (w: WindowState) => w.(isClosed := true, isClosing := false)),
      if s.activeAppId == Some(id) then None else s.activeAppId,
      s.nextZIndex)
  }

  /** minimizeApp: flip isMinimized, and drop the focus if it was on this id. */
  function ToggleMinimize(s: ManagerState, id: string): (r: ManagerState)
    ensures OnlyIdChanged(s.apps, r.apps, id)
    ensures forall i :: 0 <= i < |s.apps| && s.apps[i].id == id ==>
      r.apps[i].state == s.apps[i].state.(isMinimized := !s.apps[i].state.isMinimized)
    ensures r.activeAppId == if s.activeAppId == Some(id) then None else s.activeAppId
    ensures r.nextZIndex == s.nextZIndex
  {
    ManagerState(MapById(s.apps, id, (w: WindowState) => w.(isMinimized := !w.isMinimized)),
      if s.activeAppId == Some(id) then None else s.activeAppId,
      s.nextZIndex)
  }

  /** maximizeApp: flip isMaximized and force isMinimized off; focus is left alone. */
  function ToggleMaximize(s: ManagerState, id: string): (r: ManagerState)
    ensures OnlyIdChanged(s.apps, r.apps, id)
    ensures forall i :: 0 <= i < |s.apps| && s.apps[i].id == id ==>
      r.apps[i].state == s.apps[i].state.(isMaximized := !s.apps[i].state.isMaximized, isMinimized := false)
    ensures r.activeAppId == s.activeAppId && r.nextZIndex == s.nextZIndex
  {
    s.(apps := MapById(s.apps, id, (w: WindowState) => w.(isMaximized := !w.isMaximized, isMinimized := false)))
  }

  /** restoreApp: un-minimize, un-close, raise to the top and focus; the counter
      and the focus move even when no app has this id. */
  function Restore(s: ManagerState, id: string): (r: ManagerState)
    ensures OnlyIdChanged(s.apps, r.apps, id)
    ensures forall i :: 0 <= i < |s.apps| && s.apps[i].id == id ==>
      r.apps[i].state == s.apps[i].state.(isMinimized := false, isClosed := false, isClosing := false, zIndex := s.nextZIndex)
    ensures r.activeAppId == Some(id) && r.nextZIndex == s.nextZIndex + 1
  {
    var z := s.nextZIndex;
    ManagerState(MapById(s.apps, id, (w: WindowState) => w.(isMinimized := false, isClosed := false, isClosing := false, zIndex := z)),
      Some(id), z + 1)
  }

  /** updateAppPosition: replace the position, nothing else. */
  function SetPosition(s: ManagerState, id: string, p: Position): (r: ManagerState)
    ensures OnlyIdChanged(s.apps, r.apps, id)
    ensures forall i :: 0 <= i < |s.apps| && s.apps[i].id == id ==> r.apps[i].state == s.apps[i].state.(position := p)
    ensures r.activeAppId == s.activeAppId && r.nextZIndex == s.nextZIndex
  {
    s.(apps := MapById(s.apps, id, (w: WindowState) => w.(position := p)))
  }

  /** updateAppSize: replace the size, nothing else. */
  function SetSize(s: ManagerState, id: string, z: Size): (r: ManagerState)
    ensures OnlyIdChanged(s.apps, r.apps, id)
    ensures forall i :: 0 <= i < |s.apps| && s.apps[i].id == id ==> r.apps[i].state == s.apps[i].state.(size := Some(z))
    ensures r.activeAppId == s.activeAppId && r.nextZIndex == s.nextZIndex
  {
    s.(apps := MapById(s.apps, id, (w: WindowState) => w.(size := Some(z))))
  }

  /** bringToFront: a new z-index for this id, and the focus; always consumes a z-index. */
  function Raise(s: ManagerState, id: string): (r: ManagerState)
    ensures OnlyIdChanged(s.apps, r.apps, id)
    ensures forall i :: 0 <= i < |s.apps| && s.apps[i].id == id ==> r.apps[i].state == s.apps[i].state.(zIndex := s.nextZIndex)
    ensures r.activeAppId == Some(id) && r.nextZIndex == s.nextZIndex + 1
  {
    var z := s.nextZIndex;
    ManagerState(MapById(s.apps, id, (w: WindowState) => w.(zIndex := z)), Some(id), z + 1)
  }

  // ------------------------------------------------------------ queries

  /** getWindowApps: the instances that are not closed (minimized ones included). */
  function WindowApps(apps: seq<AppInstance>): (r: seq<AppInstance>)
    ensures forall a :: a in r <==> a in apps && !a.state.isClosed
    ensures SubsequenceOf(r, apps)
  {
    var p := (a: AppInstance) => !a.state.isClosed;
    FilterSubsequence(apps, p);
    Filter(apps, p)
  }

  /** getDesktopApps: the instances that are closed or minimized. */
  function DesktopApps(apps: seq<AppInstance>): (r: seq<AppInstance>)
    ensures forall a :: a in r <==> a in apps && (a.state.isClosed || a.state.isMinimized)
    ensures SubsequenceOf(r, apps)
  {
    var p := (a: AppInstance) => a.state.isClosed || a.state.isMinimized;
    FilterSubsequence(apps, p);
    Filter(apps, p)
  }

  /** shouldShowDesktop: no apps, or every app closed — exactly when no window is left to render. */
  function ShouldShowDesktop(apps: seq<AppInstance>): (r: bool)
    ensures r <==> WindowApps(apps) == []
  {
    var r := |apps| == 0 || forall i :: 0 <= i < |apps| ==> apps[i].state.isClosed;
    assert !r ==> WindowApps(apps) != [] by {
      if !r {
        var i :| 0 <= i < |apps| && !apps[i].state.isClosed;
        assert apps[i] in WindowApps(apps);
      }
    }
    assert WindowApps(apps) != [] ==> !r by {
      if WindowApps(apps) != [] {
        var a := WindowApps(apps)[0];
        assert a in WindowApps(apps);
      }
    }
    r
  }

  // ------------------------------------------------------------- actions

  datatype Action =
    | OpenAction(baseId: string, name: string, view: Viewport)
    | BeginCloseAction(id: string)
    | FinishCloseAction(id: string)
    | MinimizeAction(id: string)
    | MaximizeAction(id: string)
    | RestoreAction(id: string)
    | PositionAction(id: string, position: Position)
    | SizeAction(id: string, size: Size)
    | BringToFrontAction(id: string)

  function Apply(s: ManagerState, a: Action): ManagerState
  {
    match a
    case OpenAction(b, n, v) => Open(s, b, n, v)
    case BeginCloseAction(id) => BeginClose(s, id)
    case FinishCloseAction(id) => FinishClose(s, id)
    case MinimizeAction(id) => ToggleMinimize(s, id)
    case MaximizeAction(id) => ToggleMaximize(s, id)
    case RestoreAction(id) => Restore(s, id)
    case PositionAction(id, p) => SetPosition(s, id, p)
    case SizeAction(id, z) => SetSize(s, id, z)
    case BringToFrontAction(id) => Raise(s, id)
  }

  function ApplyAll(s: ManagerState, actions: seq<Action>): ManagerState
    decreases |actions|
  {
    if actions == [] then s else ApplyAll(Apply(s, actions[0]), actions[1..])
  }

  /** Every action keeps every window below the counter; the counter never goes down. */
  lemma ApplyKeepsZOrdered(s: ManagerState, a: Action)
    requires ZOrdered(s)
    ensures ZOrdered(Apply(s, a))
    ensures Apply(s, a).nextZIndex >= s.nextZIndex
  {
    var r := Apply(s, a);
    match a
    case OpenAction(b, n, v) =>
      forall i | 0 <= i < |r.apps| ensures r.apps[i].state.zIndex < r.nextZIndex {
        if i < |s.apps| { assert r.apps[i] == r.apps[..|s.apps|][i]; }
      }
    case _ =>
  }

  lemma {:induction false} ApplyAllKeepsZOrdered(s: ManagerState, actions: seq<Action>)
    requires ZOrdered(s)
    ensures ZOrdered(ApplyAll(s, actions))
    ensures ApplyAll(s, actions).nextZIndex >= s.nextZIndex
    decreases |actions|
  {
    if actions != [] {
      ApplyKeepsZOrdered(s, actions[0]);
      ApplyAllKeepsZOrdered(Apply(s, actions[0]), actions[1..]);
    }
  }

  /** Only open changes the number and the order of the tracked instances. */
  lemma NonOpenKeepsIds(s: ManagerState, a: Action)
    requires !a.OpenAction?
    ensures |Apply(s, a).apps| == |s.apps|
    ensures forall i :: 0 <= i < |s.apps| ==> Apply(s, a).apps[i].id == s.apps[i].id
  {
  }

  /** The instances only ever grow: after any sequence of actions the old apps
      are still there, at the same positions, with the same ids and names. */
  lemma {:induction false} ApplyAllKeepsIds(s: ManagerState, actions: seq<Action>)
    ensures |ApplyAll(s, actions).apps| >= |s.apps|
    ensures forall i :: 0 <= i < |s.apps| ==>
      ApplyAll(s, actions).apps[i].id == s.apps[i].id && ApplyAll(s, actions).apps[i].name == s.apps[i].name
    decreases |actions|
  {
    if actions != [] {
      var t := Apply(s, actions[0]);
      assert |t.apps| >= |s.apps| && forall i :: 0 <= i < |s.apps| ==> t.apps[i].id == s.apps[i].id && t.apps[i].name == s.apps[i].name by {
        if actions[0].OpenAction? {
          forall i | 0 <= i < |s.apps| ensures t.apps[i] == s.apps[i] {
            assert t.apps[i] == t.apps[..|s.apps|][i];
          }
        }
      }
      ApplyAllKeepsIds(t, actions[1..]);
    }
  }

  /** A raised window (open, restore, bring-to-front) is strictly above every window with another id. */
  lemma RaisedIsTopmost(s: ManagerState, id: string)
    requires ZOrdered(s)
    ensures forall i, j :: 0 <= i < |s.apps| && 0 <= j < |s.apps| && s.apps[i].id == id && s.apps[j].id != id ==>
      Raise(s, id).apps[j].state.zIndex < Raise(s, id).apps[i].state.zIndex
    ensures forall i, j :: 0 <= i < |s.apps| && 0 <= j < |s.apps| && s.apps[i].id == id && s.apps[j].id != id ==>
      Restore(s, id).apps[j].state.zIndex < Restore(s, id).apps[i].state.zIndex
  {
  }

  lemma OpenedIsTopmost(s: ManagerState, baseId: string, name: string, view: Viewport)
    requires ZOrdered(s)
    ensures var r := Open(s, baseId, name, view);
      forall j :: 0 <= j < |s.apps| ==> r.apps[j].state.zIndex < r.apps[|s.apps|].state.zIndex
  {
    var r := Open(s, baseId, name, view);
    forall j | 0 <= j < |s.apps| ensures r.apps[j].state.zIndex < r.apps[|s.apps|].state.zIndex {
      assert r.apps[j] == r.apps[..|s.apps|][j];
    }
  }

  /** Minimizing twice gives the apps back unchanged; the focus stays dropped if it was on this id. */
  lemma MinimizeTwice(s: ManagerState, id: string)
    ensures ToggleMinimize(ToggleMinimize(s, id), id).apps == s.apps
    ensures ToggleMinimize(ToggleMinimize(s, id), id).activeAppId == if s.activeAppId == Some(id) then None else s.activeAppId
  {
    var r := ToggleMinimize(ToggleMinimize(s, id), id);
    forall i | 0 <= i < |s.apps| ensures r.apps[i] == s.apps[i] {
    }
  }

  /** Maximizing twice restores isMaximized and leaves the window un-minimized. */
  lemma MaximizeTwice(s: ManagerState, id: string)
    ensures var r := ToggleMaximize(ToggleMaximize(s, id), id);
      OnlyIdChanged(s.apps, r.apps, id)
      && (forall i :: 0 <= i < |s.apps| && s.apps[i].id == id ==> r.apps[i].state == s.apps[i].state.(isMinimized := false))
      && r.activeAppId == s.activeAppId
  {
  }

  /** A closed instance comes back with restore: closed, then restored, it is a window again. */
  lemma RestoreReopensClosed(s: ManagerState, id: string)
    ensures var r := Restore(FinishClose(BeginClose(s, id), id), id);
      forall i :: 0 <= i < |s.apps| && s.apps[i].id == id ==> r.apps[i] in WindowApps(r.apps)
  {
    var r := Restore(FinishClose(BeginClose(s, id), id), id);
    forall i | 0 <= i < |s.apps| && s.apps[i].id == id ensures r.apps[i] in WindowApps(r.apps) {
      assert r.apps[i] in r.apps;
    }
  }

  /** After both phases of close the instance is no longer a window but is a desktop icon. */
  lemma ClosedIsDesktopIcon(s: ManagerState, id: string)
    ensures var r := FinishClose(BeginClose(s, id), id);
      forall i :: 0 <= i < |s.apps| && s.apps[i].id == id ==>
        r.apps[i] !in WindowApps(r.apps) && r.apps[i] in DesktopApps(r.apps)
  {
    var r := FinishClose(BeginClose(s, id), id);
    forall i | 0 <= i < |s.apps| && s.apps[i].id == id
      ensures r.apps[i] !in WindowApps(r.apps) && r.apps[i] in DesktopApps(r.apps)
    {
      assert r.apps[i] in r.apps;
    }
  }

  // --------------------------------------------------------- id allocation

  lemma InstanceIdInjective(baseId: string, m: nat, n: nat)
    requires m >= 1 && n >= 1
    requires InstanceId(baseId, m) == InstanceId(baseId, n)
    ensures m == n
  {
    if m != 1 && n != 1 {
      var pm := baseId + "-" + NatToString(m);
      var pn := baseId + "-" + NatToString(n);
      assert pm[|baseId| + 1..] == NatToString(m);
      assert pn[|baseId| + 1..] == NatToString(n);
      NatToStringInjective(m, n);
    }
  }

  /** Opening a base id counts one more existing instance of it afterwards. */
  lemma {:induction false} OpenCountsItself(s: ManagerState, baseId: string, name: string, view: Viewport)
    ensures ExistingCount(Open(s, baseId, name, view).apps, baseId) == ExistingCount(s.apps, baseId) + 1
  {
    var r := Open(s, baseId, name, view);
    var a := r.apps[|s.apps|];
    assert r.apps == s.apps + [a];
    FilterAppend(s.apps, [a], (x: AppInstance) => IsPrefix(baseId, x.id));
  }

  /** Two opens of the same base id in a row never produce the same id. */
  lemma OpenTwiceDistinctIds(s: ManagerState, baseId: string, name: string, view: Viewport)
    ensures var s1 := Open(s, baseId, name, view);
      var s2 := Open(s1, baseId, name, view);
      s2.apps[|s1.apps|].id != s1.apps[|s.apps|].id
  {
    var s1 := Open(s, baseId, name, view);
    OpenCountsItself(s, baseId, name, view);
    var k := ExistingCount(s.apps, baseId);
    if InstanceId(baseId, k + 2) == InstanceId(baseId, k + 1) {
      InstanceIdInjective(baseId, k + 2, k + 1);
    }
  }

  /** Opening one base id three times from an empty desktop gives `b`, `b-2`,
      `b-3`, named `N`, `N (2)`, `N (3)`. */
  lemma ThreeOpens(baseId: string, name: string, view: Viewport)
    ensures var s3 := Open(Open(Open(Initial(), baseId, name, view), baseId, name, view), baseId, name, view);
      && |s3.apps| == 3
      && s3.apps[0].id == baseId && s3.apps[1].id == baseId + "-2" && s3.apps[2].id == baseId + "-3"
      && s3.apps[0].name == name && s3.apps[1].name == name + " (2)" && s3.apps[2].name == name + " (3)"
      && s3.apps[0].state.zIndex == 1000 && s3.apps[1].state.zIndex == 1001 && s3.apps[2].state.zIndex == 1002
      && s3.activeAppId == Some(baseId + "-3") && s3.nextZIndex == 1003
  {
    var s0 := Initial();
    var s1 := Open(s0, baseId, name, view);
    var s2 := Open(s1, baseId, name, view);
    var s3 := Open(s2, baseId, name, view);
    OpenCountsItself(s0, baseId, name, view);
    OpenCountsItself(s1, baseId, name, view);
    assert ExistingCount(s0.apps, baseId) == 0;
    assert NatToString(2) == "2" && NatToString(3) == "3";
    assert s3.apps[0] == s3.apps[..2][0] == s2.apps[0] == s2.apps[..1][0];
    assert s3.apps[1] == s3.apps[..2][1];
  }

  /** Ids are not unique in general: a base id that is a prefix of an existing
      id is counted against it. Opening "a-2" and then "a" yields two instances
      both with id "a-2". */
  lemma PrefixCollision(name: string, view: Viewport)
    ensures var s2 := Open(Open(Initial(), "a-2", name, view), "a", name, view);
      |s2.apps| == 2 && s2.apps[0].id == "a-2" && s2.apps[1].id == "a-2"
  {
    var s1 := Open(Initial(), "a-2", name, view);
    var s2 := Open(s1, "a", name, view);
    assert s1.apps == [s1.apps[0]];
    assert IsPrefix("a", s1.apps[0].id);
    assert PrefixMatches(s1.apps, "a") == [s1.apps[0]];
    assert NatToString(2) == "2";
    assert s2.apps[0] == s2.apps[..1][0];
  }

  // ------------------------------------------------------- the state cell

  /** The hook's state cell: each action replaces the whole record with the
      updater's result, as setState(prev => ...) does. */
  class WindowManager {
    var apps: seq<AppInstance>
    var activeAppId: Option<string>
    var nextZIndex: int

    function State(): ManagerState
      reads this
    {
      ManagerState(apps, activeAppId, nextZIndex)
    }

    ghost predicate Valid()
      reads this
    {
      ZOrdered(State())
    }

    constructor ()
      ensures State() == Initial() && Valid()
    {
      apps := [];
      activeAppId := None;
      nextZIndex := InitialZIndex;
    }

    /** The state setter, given a successor state that keeps the z-order invariant. */
    method Set(s: ManagerState)
      requires ZOrdered(s)
      modifies this
      ensures State() == s && Valid()
    {
      apps, activeAppId, nextZIndex := s.apps, s.activeAppId, s.nextZIndex;
    }

    method OpenApp(baseId: string, name: string, view: Viewport)
      requires Valid()
      modifies this
      ensures State() == Open(old(State()), baseId, name, view) && Valid()
      ensures |apps| == |old(apps)| + 1 && activeAppId == Some(apps[|apps| - 1].id)
    {
      ApplyKeepsZOrdered(State(), OpenAction(baseId, name, view));
      Set(Open(State(), baseId, name, view));
    }

    /** closeApp's immediate half; `FinishCloseApp` is what its timer runs 300 ms later. */
    method CloseApp(id: string)
      requires Valid()
      modifies this
      ensures State() == BeginClose(old(State()), id) && Valid()
    {
      Set(BeginClose(State(), id));
    }

    method FinishCloseApp(id: string)
      requires Valid()
      modifies this
      ensures State() == FinishClose(old(State()), id) && Valid()
      ensures activeAppId != Some(id)
    {
      Set(FinishClose(State(), id));
    }

    method MinimizeApp(id: string)
      requires Valid()
      modifies this
      ensures State() == ToggleMinimize(old(State()), id) && Valid()
      ensures activeAppId != Some(id)
    {
      Set(ToggleMinimize(State(), id));
    }

    method MaximizeApp(id: string)
      requires Valid()
      modifies this
      ensures State() == ToggleMaximize(old(State()), id) && Valid()
      ensures activeAppId == old(activeAppId)
    {
      Set(ToggleMaximize(State(), id));
    }

    method RestoreApp(id: string)
      requires Valid()
      modifies this
      ensures State() == Restore(old(State()), id) && Valid()
      ensures activeAppId == Some(id) && nextZIndex == old(nextZIndex) + 1
    {
      ApplyKeepsZOrdered(State(), RestoreAction(id));
      Set(Restore(State(), id));
    }

    method UpdateAppPosition(id: string, position: Position)
      requires Valid()
      modifies this
      ensures State() == SetPosition(old(State()), id, position) && Valid()
    {
      Set(SetPosition(State(), id, position));
    }

    method UpdateAppSize(id: string, size: Size)
      requires Valid()
      modifies this
      ensures State() == SetSize(old(State()), id, size) && Valid()
    {
      Set(SetSize(State(), id, size));
    }

    method BringToFront(id: string)
      requires Valid()
      modifies this
      ensures State() == Raise(old(State()), id) && Valid()
      ensures activeAppId == Some(id) && nextZIndex == old(nextZIndex) + 1
    {
      ApplyKeepsZOrdered(State(), BringToFrontAction(id));
      Set(Raise(State(), id));
    }
  }
}
