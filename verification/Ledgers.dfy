/** The ledger as an object updated in place. Each method is proved to perform the operation of
    `LedgerModel` it names on the object's whole state. */
module Ledgers {
  import opened Optional
  import opened LedgerModel

  class Ledger {
    var orbits: seq<Orbit>
    var active: nat
    var history: seq<Snapshot>
    var redone: seq<Snapshot>

    ghost function View(): (l: State)
      reads this
    {
      State(Snapshot(orbits, active), history, redone)
    }

    ghost predicate Valid()
      reads this
    {
      WellSized(View().now)
    }

    constructor ()
      ensures Valid() && View() == NewLedger()
    {
      orbits := seq(ORBIT_COUNT, _ => EmptyOrbit());
      active := 0;
      history, redone := [], [];
    }

    method Holder(win: WinId) returns (orbit: Option<nat>)
      ensures orbit == OrbitOf(orbits, win)
    {
      orbit := None;
      for i := 0 to |orbits|
        invariant OrbitOf(orbits[..i], win) == None
      {
        assert orbits[..i + 1][..i] == orbits[..i];
        if win in orbits[i].windows {
          FirstHolder(orbits, win, i);
          return Some(i);
        }
      }
      assert orbits[..|orbits|] == orbits;
    }

    method TakeCheckpoint()
      modifies this
      ensures View() == Checkpoint(old(View()))
    {
      history := history + [Snapshot(orbits, active)];
      if |history| > HISTORY_DEPTH {
        history := history[1..];
      }
      redone := [];
    }

    method DiscardUndoHistory()
      modifies this
      ensures View() == Discard(old(View()))
    {
      history := [];
      redone := [];
    }

    method Summons(win: WinId, orbit: OrbitId)
      requires Valid()
      modifies this
      ensures Valid() && View() == Summon(old(View()), win, orbit)
    {
      var known := Holder(win);
      if known.Some? {
        return;
      }
      DiscardUndoHistory();
      var o := orbits[orbit];
      var at := if o.focus.Some? then o.focus.value + 1 else 0;
      if at > |o.windows| {
        at := |o.windows|;
      }
      o := o.(windows := InsertAt(o.windows, at, win));
      o := o.(focus := Some(at));
      orbits := orbits[orbit := o];
    }

    method Banishes(win: WinId) returns (found: bool)
      requires Valid()
      modifies this
      ensures Valid() && View() == Banish(old(View()), win)
      ensures found == OrbitOf(old(orbits), win).Some?
    {
      var orbit := Holder(win);
      if orbit.None? {
        return false;
      }
      DiscardUndoHistory();
      var o := orbits[orbit.value];
      var at := PositionIn(o.windows, win).value;
      o := o.(windows := RemoveAt(o.windows, at));
      o := o.(stowed := Without(o.stowed, [win]));
      if o.fullscreen == Some(win) {
        o := o.(fullscreen := None);
      }
      var past := at >= if |o.windows| > 1 then |o.windows| else 1;
      o := o.Reseat(if past && at > 0 then at - 1 else at);
      orbits := orbits[orbit.value := o];
      return true;
    }

    method Focus(win: WinId) returns (found: bool)
      requires Valid()
      modifies this
      ensures Valid() && View() == Apply(old(View()), FocusWindow(win))
      ensures found == Change(old(View()).now, FocusWindow(win)).Some?
    {
      var orbit := Holder(win);
      if orbit.None? {
        return false;
      }
      TakeCheckpoint();
      active := orbit.value;
      var o := orbits[orbit.value];
      orbits := orbits[orbit.value := o.(focus := PositionIn(o.windows, win))];
      return true;
    }

    method StepFocus(dir: Dir)
      requires Valid()
      modifies this
      ensures Valid() && View() == Apply(old(View()), FocusStep(dir))
    {
      var n := |orbits[active].windows|;
      if n < 2 {
        return;
      }
      TakeCheckpoint();
      var o := orbits[active];
      var cur := if o.focus.Some? then o.focus.value else 0;
      orbits := orbits[active := o.(focus := Some(match dir
                                                  case Forward => (cur + 1) % n
                                                  case Backward => (cur + n - 1) % n))];
    }

    method SwapFocused(dir: Dir) returns (swapped: bool)
      requires Valid() && (orbits[active].focus.Some? ==> orbits[active].focus.value < |orbits[active].windows|)
      modifies this
      ensures Valid() && View() == Apply(old(View()), Swap(dir))
      ensures swapped == Change(old(View()).now, Swap(dir)).Some?
    {
      var o := orbits[active];
      var n := |o.windows|;
      if o.focus.None? {
        return false;
      }
      if n < 2 {
        return false;
      }
      var cur := o.focus.value;
      var target := match dir case Forward => (cur + 1) % n case Backward => (cur + n - 1) % n;
      TakeCheckpoint();
      var moved := o.windows[cur := o.windows[target]];
      moved := moved[target := o.windows[cur]];
      orbits := orbits[active := o.(windows := moved, focus := Some(target))];
      return true;
    }

    method MoveFocused(target: OrbitId) returns (moved: bool)
      requires Valid()
      modifies this
      ensures Valid() && View() == Apply(old(View()), MoveToOrbit(target))
      ensures moved == Change(old(View()).now, MoveToOrbit(target)).Some?
    {
      var focused := orbits[active].Focused();
      if focused.None? {
        return false;
      }
      var win := focused.value;
      if target == active {
        return false;
      }
      TakeCheckpoint();
      var src := orbits[active];
      var at := PositionIn(src.windows, win).value;
      src := src.(windows := RemoveAt(src.windows, at));
      src := src.(stowed := Without(src.stowed, [win]));
      if src.fullscreen == Some(win) {
        src := src.(fullscreen := None);
      }
      src := src.Reseat(if at > 0 then at - 1 else 0);
      orbits := orbits[active := src];
      var dst := orbits[target];
      var insertAt := if dst.focus.Some? then dst.focus.value + 1 else 0;
      if insertAt > |dst.windows| {
        insertAt := |dst.windows|;
      }
      dst := dst.(windows := InsertAt(dst.windows, insertAt, win), focus := Some(insertAt));
      orbits := orbits[target := dst];
      return true;
    }

    method Show(target: OrbitId)
      requires Valid()
      modifies this
      ensures Valid() && View() == Apply(old(View()), SwitchOrbit(target))
    {
      if target == active {
        return;
      }
      TakeCheckpoint();
      active := target;
    }

    method StowFocused() returns (toggled: bool)
      requires Valid()
      modifies this
      ensures Valid() && View() == Apply(old(View()), ToggleStow)
      ensures toggled == Change(old(View()).now, ToggleStow).Some?
    {
      var focused := orbits[active].Focused();
      if focused.None? {
        return false;
      }
      TakeCheckpoint();
      var o := orbits[active];
      var at := PositionIn(o.stowed, focused.value);
      if at.Some? {
        o := o.(stowed := RemoveAt(o.stowed, at.value));
      } else {
        o := o.(stowed := o.stowed + [focused.value]);
      }
      orbits := orbits[active := o];
      return true;
    }

    method FullscreenFocused() returns (toggled: bool)
      requires Valid()
      modifies this
      ensures Valid() && View() == Apply(old(View()), ToggleFullscreen)
      ensures toggled == Change(old(View()).now, ToggleFullscreen).Some?
    {
      var focused := orbits[active].Focused();
      if focused.None? {
        return false;
      }
      TakeCheckpoint();
      var o := orbits[active];
      orbits := orbits[active := o.(fullscreen := if o.fullscreen == focused then None else focused)];
      return true;
    }

    method ChooseLayout(layout: Layout)
      requires Valid()
      modifies this
      ensures Valid() && View() == Apply(old(View()), SetLayout(layout))
    {
      if orbits[active].layout == layout {
        return;
      }
      TakeCheckpoint();
      orbits := orbits[active := orbits[active].(layout := layout)];
    }

    method UndoLast() returns (undone: bool)
      modifies this
      ensures View() == Undo(old(View())) && undone == (old(history) != [])
    {
      if history == [] {
        return false;
      }
      var prev := history[|history| - 1];
      history := history[..|history| - 1];
      redone := redone + [Snapshot(orbits, active)];
      orbits := prev.orbits;
      active := prev.active;
      return true;
    }

    method RedoLast() returns (again: bool)
      modifies this
      ensures View() == Redo(old(View())) && again == (old(redone) != [])
    {
      if redone == [] {
        return false;
      }
      var next := redone[|redone| - 1];
      redone := redone[..|redone| - 1];
      history := history + [Snapshot(orbits, active)];
      orbits := next.orbits;
      active := next.active;
      return true;
    }
  }

  lemma {:induction false} FirstHolder(orbits: seq<Orbit>, win: WinId, i: nat)
    requires i < |orbits| && OrbitOf(orbits[..i], win).None? && win in orbits[i].windows
    ensures OrbitOf(orbits, win) == Some(i)
  {
    var k := |orbits| - 1;
    if i == k {
      assert orbits[..k] == orbits[..i];
    } else {
      assert orbits[..k][..i] == orbits[..i];
      FirstHolder(orbits[..k], win, i);
    }
  }
}
