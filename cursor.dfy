/**
 * The cursor helpers of src/utilities.rs: the process-wide cursor-visibility
 * toggle `set_cursor_visibility` and the icon mapping `to_windows_cursor`.
 */
module Cursor {
  import opened Styles

  /** The toggle's state: the `HIDDEN` flag and the `ShowCursor` arguments so far. */
  datatype ToggleState = ToggleState(hidden: bool, showCursorCalls: seq<bool>)

  /**
   * The effect of one `set_cursor_visibility(visible)` call: the flag is
   * swapped for the requested one, and `ShowCursor(!hidden)` is called only
   * when the swap changed it.
   */
  function AfterSetVisibility(s: ToggleState, visible: Visibility): ToggleState {
    var hidden := visible == Hidden;
    var changed := s.hidden != hidden;
    ToggleState(hidden, if changed then s.showCursorCalls + [!hidden] else s.showCursorCalls)
  }

  /**
   * The calls alternate, starting with a hide: `ShowCursor(false)`,
   * `ShowCursor(true)`, `ShowCursor(false)`, …
   */
  predicate Alternating(calls: seq<bool>) {
    forall i :: 0 <= i < |calls| ==> calls[i] == (i % 2 == 1)
  }

  /** The flag agrees with the calls made: hidden after an odd number of them. */
  predicate InSync(s: ToggleState) {
    Alternating(s.showCursorCalls) && s.hidden == (|s.showCursorCalls| % 2 == 1)
  }

  /**
   * The modelled display counter after a sequence of `ShowCursor` calls of
   * this toggle only, from 0: each `ShowCursor(true)` adds one, each
   * `ShowCursor(false)` takes one away; the cursor is drawn while the
   * counter is not negative.
   */
  function DisplayCount(calls: seq<bool>): int {
    if calls == [] then 0
    else DisplayCount(calls[..|calls| - 1]) + (if calls[|calls| - 1] then 1 else -1)
  }

  /** Setting the visibility the flag already holds calls nothing and changes nothing. */
  lemma SetVisibilityIdempotent(s: ToggleState, visible: Visibility)
    ensures AfterSetVisibility(AfterSetVisibility(s, visible), visible) == AfterSetVisibility(s, visible)
    ensures s.hidden == (visible == Hidden) ==> AfterSetVisibility(s, visible) == s
  {
  }

  /** `ShowCursor` is called exactly when the flag changes, with the new visibility. */
  lemma ShowCursorOnTransitionOnly(s: ToggleState, visible: Visibility)
    ensures AfterSetVisibility(s, visible).hidden == (visible == Hidden)
    ensures |AfterSetVisibility(s, visible).showCursorCalls| == |s.showCursorCalls| + (if s.hidden != (visible == Hidden) then 1 else 0)
    ensures s.hidden != (visible == Hidden) ==>
      AfterSetVisibility(s, visible).showCursorCalls[|s.showCursorCalls|] == (visible == Shown)
  {
  }

  /** Every call keeps the flag and the calls in step. */
  lemma SetVisibilityKeepsSync(s: ToggleState, visible: Visibility)
    requires InSync(s)
    ensures InSync(AfterSetVisibility(s, visible))
  {
  }

  /**
   * Because the calls alternate, the modelled counter never leaves {-1, 0}:
   * the cursor is drawn exactly when the flag says it is not hidden.
   */
  lemma {:induction false} AlternatingDisplayCount(calls: seq<bool>)
    requires Alternating(calls)
    ensures DisplayCount(calls) == if |calls| % 2 == 1 then -1 else 0
  {
    if calls != [] {
      var prefix := calls[..|calls| - 1];
      assert Alternating(prefix) by {
        forall i | 0 <= i < |prefix| ensures prefix[i] == (i % 2 == 1) {
          assert prefix[i] == calls[i];
        }
      }
      AlternatingDisplayCount(prefix);
    }
  }

  lemma InSyncCursorDrawn(s: ToggleState)
    requires InSync(s)
    ensures DisplayCount(s.showCursorCalls) >= 0 <==> !s.hidden
  {
    AlternatingDisplayCount(s.showCursorCalls);
  }

  /** The process-wide `HIDDEN` flag, with a log of the `ShowCursor` calls made. */
  class CursorVisibility {
    var hidden: bool
    ghost var showCursorCalls: seq<bool>

    ghost function State(): ToggleState
      reads this
    {
      ToggleState(hidden, showCursorCalls)
    }

    ghost predicate Valid()
      reads this
    {
      InSync(State())
    }

    /** `HIDDEN` starts out false, and nothing has been called yet. */
    constructor ()
      ensures Valid()
      ensures !hidden && showCursorCalls == []
    {
      hidden := false;
      showCursorCalls := [];
    }

    /** `set_cursor_visibility`. */
    method SetCursorVisibility(visible: Visibility)
      requires Valid()
      modifies this
      ensures Valid()
      ensures State() == AfterSetVisibility(old(State()), visible)
      ensures hidden == (visible == Hidden)
      ensures showCursorCalls == old(showCursorCalls) + (if old(hidden) != hidden then [!hidden] else [])
    {
      var nowHidden := visible == Hidden;
      var previous := hidden;
      hidden := nowHidden;
      var changed := previous != nowHidden;
      if changed {
        showCursorCalls := showCursorCalls + [!nowHidden];
      }
      SetVisibilityKeepsSync(old(State()), visible);
    }
  }

  /** The `CursorIcon` values `to_windows_cursor` names; every other icon is `Other`. */
  datatype CursorIcon =
    | Default | Pointer | Crosshair
    | Text | VerticalText
    | NotAllowed | NoDrop
    | Grab | Grabbing | Move | AllScroll
    | EResize | WResize | EwResize | ColResize
    | NResize | SResize | NsResize | RowResize
    | NeResize | SwResize | NeswResize
    | NwResize | SeResize | NwseResize
    | Wait | Progress | Help
    | Other

  // Stock cursor resource ids (winuser.h)
  const IDC_ARROW: nat := 32512
  const IDC_IBEAM: nat := 32513
  const IDC_WAIT: nat := 32514
  const IDC_CROSS: nat := 32515
  const IDC_SIZENWSE: nat := 32642
  const IDC_SIZENESW: nat := 32643
  const IDC_SIZEWE: nat := 32644
  const IDC_SIZENS: nat := 32645
  const IDC_SIZEALL: nat := 32646
  const IDC_NO: nat := 32648
  const IDC_HAND: nat := 32649
  const IDC_APPSTARTING: nat := 32650
  const IDC_HELP: nat := 32651

  const StockCursors: set<nat> := {
    IDC_ARROW, IDC_IBEAM, IDC_WAIT, IDC_CROSS, IDC_SIZENWSE, IDC_SIZENESW, IDC_SIZEWE,
    IDC_SIZENS, IDC_SIZEALL, IDC_NO, IDC_HAND, IDC_APPSTARTING, IDC_HELP
  }

  /** `to_windows_cursor`: the stock cursor shown for an icon, the arrow for unmapped ones. */
  function ToWindowsCursor(icon: CursorIcon): (id: nat)
    ensures id in StockCursors
    ensures id == IDC_ARROW <==> icon == Default || icon == Other
  {
    match icon
    case Default => IDC_ARROW
    case Pointer => IDC_HAND
    case Crosshair => IDC_CROSS
    case Text | VerticalText => IDC_IBEAM
    case NotAllowed | NoDrop => IDC_NO
    case Grab | Grabbing | Move | AllScroll => IDC_SIZEALL
    case EResize | WResize | EwResize | ColResize => IDC_SIZEWE
    case NResize | SResize | NsResize | RowResize => IDC_SIZENS
    case NeResize | SwResize | NeswResize => IDC_SIZENESW
    case NwResize | SeResize | NwseResize => IDC_SIZENWSE
    case Wait => IDC_WAIT
    case Progress => IDC_APPSTARTING
    case Help => IDC_HELP
    case Other => IDC_ARROW
  }

  /** Which way an edge or corner resize icon points, when it does. */
  datatype ResizeAxis = Horizontal | Vertical | Diagonal | AntiDiagonal

  function ResizeAxisOf(icon: CursorIcon): ResizeAxis
    requires icon.EResize? || icon.WResize? || icon.EwResize? || icon.ColResize?
          || icon.NResize? || icon.SResize? || icon.NsResize? || icon.RowResize?
          || icon.NeResize? || icon.SwResize? || icon.NeswResize?
          || icon.NwResize? || icon.SeResize? || icon.NwseResize?
  {
    match icon
    case EResize | WResize | EwResize | ColResize => Horizontal
    case NResize | SResize | NsResize | RowResize => Vertical
    case NwResize | SeResize | NwseResize => Diagonal
    case NeResize | SwResize | NeswResize => AntiDiagonal
  }

  /** The double-headed sizing arrow drawn for each axis. */
  function SizingCursor(axis: ResizeAxis): nat {
    match axis
    case Horizontal => IDC_SIZEWE
    case Vertical => IDC_SIZENS
    case Diagonal => IDC_SIZENWSE
    case AntiDiagonal => IDC_SIZENESW
  }

  /** Every resize icon gets the sizing arrow along its own axis. */
  lemma ResizeIconsUseTheirAxis(icon: CursorIcon)
    requires icon.EResize? || icon.WResize? || icon.EwResize? || icon.ColResize?
          || icon.NResize? || icon.SResize? || icon.NsResize? || icon.RowResize?
          || icon.NeResize? || icon.SwResize? || icon.NeswResize?
          || icon.NwResize? || icon.SeResize? || icon.NwseResize?
    ensures ToWindowsCursor(icon) == SizingCursor(ResizeAxisOf(icon))
  {
  }
}
