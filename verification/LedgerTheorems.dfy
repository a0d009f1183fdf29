/** What every run of ledger operations keeps, and what undo and redo mean. */
module LedgerTheorems {
  import opened Optional
  import opened LedgerModel

  // ---- lists --------------------------------------------------------------------------

  predicate NoDup(ws: seq<WinId>) {
    forall i, j :: 0 <= i < j < |ws| ==> ws[i] != ws[j]
  }

  lemma InsertKeeps(ws: seq<WinId>, at: nat, w: WinId)
    requires at <= |ws| && NoDup(ws) && w !in ws
    ensures NoDup(InsertAt(ws, at, w))
    ensures forall x :: x in InsertAt(ws, at, w) <==> x == w || x in ws
  {
    var r := InsertAt(ws, at, w);
    assert ws == ws[..at] + ws[at..];
    forall x ensures x in r <==> x == w || x in ws {}
    forall i, j | 0 <= i < j < |r| ensures r[i] != r[j] {
      assert i != at ==> r[i] == ws[if i < at then i else i - 1];
      assert j != at ==> r[j] == ws[if j < at then j else j - 1];
    }
  }

  lemma RemoveKeeps(ws: seq<WinId>, at: nat)
    requires at < |ws| && NoDup(ws)
    ensures NoDup(RemoveAt(ws, at))
    ensures forall x :: x in RemoveAt(ws, at) <==> x in ws && x != ws[at]
  {
    var r := RemoveAt(ws, at);
    forall i | 0 <= i < |r| ensures r[i] == ws[if i < at then i else i + 1] {}
    forall x | x in ws && x != ws[at] ensures x in r {
      var k :| 0 <= k < |ws| && ws[k] == x;
      assert r[if k < at then k else k - 1] == x;
    }
  }

  lemma {:induction false} WithoutKeeps(ws: seq<WinId>, gone: seq<WinId>)
    ensures forall x :: x in Without(ws, gone) <==> x in ws && x !in gone
    ensures NoDup(ws) ==> NoDup(Without(ws, gone))
  {
    if ws != [] {
      var p, w := ws[..|ws| - 1], ws[|ws| - 1];
      WithoutKeeps(p, gone);
      assert ws == p + [w];
      if NoDup(ws) {
        assert w !in p;
      }
    }
  }

  lemma SwapKeeps(ws: seq<WinId>, a: nat, b: nat)
    requires a < |ws| && b < |ws| && NoDup(ws)
    ensures NoDup(SwapIn(ws, a, b))
    ensures forall x :: x in SwapIn(ws, a, b) <==> x in ws
  {
    var r := SwapIn(ws, a, b);
    forall x | x in ws ensures x in r {
      var k :| 0 <= k < |ws| && ws[k] == x;
      assert r[if k == a then b else if k == b then a else k] == x;
    }
    forall x | x in r ensures x in ws {
      var k :| 0 <= k < |r| && r[k] == x;
      assert ws[if k == a then b else if k == b then a else k] == x;
    }
  }

  // ---- orbits ----------------------------------------------------------------------------

  predicate OrbitInv(o: Orbit) {
    && NoDup(o.windows) && NoDup(o.stowed)
    && (forall x :: x in o.stowed ==> x in o.windows)
    && (o.focus.None? <==> o.windows == [])
    && (o.focus.Some? ==> o.focus.value < |o.windows|)
    && (o.fullscreen.Some? ==> o.fullscreen.value in o.windows)
  }

  lemma ReceiveKeeps(o: Orbit, w: WinId)
    requires OrbitInv(o) && w !in o.windows
    ensures OrbitInv(Receive(o, w)) && Receive(o, w).Focused() == Some(w)
    ensures forall x :: x in Receive(o, w).windows <==> x == w || x in o.windows
  {
    InsertKeeps(o.windows, Receive(o, w).focus.value, w);
  }

  lemma ReleaseKeeps(o: Orbit, at: nat, hint: nat)
    requires OrbitInv(o) && at < |o.windows|
    ensures OrbitInv(Release(o, at, hint))
    ensures forall x :: x in Release(o, at, hint).windows <==> x in o.windows && x != o.windows[at]
  {
    RemoveKeeps(o.windows, at);
    WithoutKeeps(o.stowed, [o.windows[at]]);
  }

  lemma ToggleKeeps(o: Orbit, w: WinId)
    requires OrbitInv(o) && w in o.windows
    ensures OrbitInv(o.(stowed := ToggleIn(o.stowed, w)))
    ensures w in ToggleIn(o.stowed, w) <==> w !in o.stowed
  {
    var at := PositionIn(o.stowed, w);
    if at.Some? {
      RemoveKeeps(o.stowed, at.value);
    }
  }

  // ---- snapshots ----------------------------------------------------------------------------

  predicate SnapInv(s: Snapshot) {
    && WellSized(s)
    && (forall a :: 0 <= a < |s.orbits| ==> OrbitInv(s.orbits[a]))
    && (forall a, b, x :: 0 <= a < |s.orbits| && 0 <= b < |s.orbits| && x in s.orbits[a].windows && x in s.orbits[b].windows ==> a == b)
  }

  ghost predicate Holds(s: Snapshot, x: WinId) {
    exists a :: 0 <= a < |s.orbits| && x in s.orbits[a].windows
  }

  /** The two snapshots are of the same windows. */
  ghost predicate SameWindows(s: Snapshot, t: Snapshot) {
    forall x :: Holds(s, x) <==> Holds(t, x)
  }

  /** One orbit is replaced by one with the same windows. */
  lemma ReplaceKeeps(s: Snapshot, a: nat, o: Orbit, active: nat)
    requires SnapInv(s) && a < ORBIT_COUNT && active < ORBIT_COUNT && OrbitInv(o)
    requires forall x :: x in o.windows <==> x in s.orbits[a].windows
    ensures SnapInv(Snapshot(s.orbits[a := o], active)) && SameWindows(s, Snapshot(s.orbits[a := o], active))
  {
    var t := Snapshot(s.orbits[a := o], active);
    forall b, x | 0 <= b < ORBIT_COUNT ensures x in t.orbits[b].windows <==> x in s.orbits[b].windows {}
    forall x ensures Holds(s, x) <==> Holds(t, x) {}
  }

  lemma MoveKeeps(s: Snapshot, target: OrbitId)
    requires SnapInv(s) && target != s.active && s.orbits[s.active].Focused().Some?
    ensures var t := Change(s, MoveToOrbit(target)).value;
            SnapInv(t) && SameWindows(s, t) && t.orbits[target].Focused() == s.orbits[s.active].Focused()
  {
    var o := s.orbits[s.active];
    var win := o.Focused().value;
    var at := PositionIn(o.windows, win).value;
    var hint := if at > 0 then at - 1 else 0;
    var src, dst := Release(o, at, hint), Receive(s.orbits[target], win);
    ReleaseKeeps(o, at, hint);
    ReceiveKeeps(s.orbits[target], win);
    MovedKeeps(s, target, win, src, dst);
    assert Change(s, MoveToOrbit(target)).value == Snapshot(s.orbits[s.active := src][target := dst], s.active);
  }

  /** One window goes from the active orbit to another, everything else stays. */
  lemma MovedKeeps(s: Snapshot, target: OrbitId, win: WinId, src: Orbit, dst: Orbit)
    requires SnapInv(s) && target != s.active && win in s.orbits[s.active].windows && OrbitInv(src) && OrbitInv(dst)
    requires forall x :: x in src.windows <==> x in s.orbits[s.active].windows && x != win
    requires forall x :: x in dst.windows <==> x == win || x in s.orbits[target].windows
    ensures var t := Snapshot(s.orbits[s.active := src][target := dst], s.active); SnapInv(t) && SameWindows(s, t)
  {
    var t := Snapshot(s.orbits[s.active := src][target := dst], s.active);
    forall x ensures Holds(s, x) <==> Holds(t, x) {
      if Holds(s, x) {
        var a :| 0 <= a < |s.orbits| && x in s.orbits[a].windows;
        assert x in t.orbits[if x == win then target else a].windows;
      }
      if Holds(t, x) {
        var a :| 0 <= a < |t.orbits| && x in t.orbits[a].windows;
        assert x in s.orbits[if x == win then s.active else a].windows;
      }
    }
  }

  /** Every user action keeps the snapshot sound and its windows the same. */
  lemma ChangeKeeps(s: Snapshot, op: Op)
    requires SnapInv(s) && Change(s, op).Some?
    ensures SnapInv(Change(s, op).value) && SameWindows(s, Change(s, op).value)
  {
    var o := s.orbits[s.active];
    match op
    case FocusWindow(win) =>
      var a := OrbitOf(s.orbits, win).value;
      ReplaceKeeps(s, a, s.orbits[a].(focus := PositionIn(s.orbits[a].windows, win)), a);
    case FocusStep(dir) =>
      ReplaceKeeps(s, s.active, Change(s, op).value.orbits[s.active], s.active);
    case Swap(dir) =>
      var at := Stepped(o.focus.value, |o.windows|, dir);
      SwapKeeps(o.windows, o.focus.value, at);
      ReplaceKeeps(s, s.active, o.(windows := SwapIn(o.windows, o.focus.value, at), focus := Some(at)), s.active);
    case MoveToOrbit(target) => MoveKeeps(s, target);
    case SwitchOrbit(target) =>
      assert s.orbits[0 := s.orbits[0]] == s.orbits;
      ReplaceKeeps(s, 0, s.orbits[0], target);
    case ToggleStow =>
      ToggleKeeps(o, o.Focused().value);
      ReplaceKeeps(s, s.active, o.(stowed := ToggleIn(o.stowed, o.Focused().value)), s.active);
    case ToggleFullscreen =>
      ReplaceKeeps(s, s.active, o.(fullscreen := if o.fullscreen == o.Focused() then None else o.Focused()), s.active);
    case SetLayout(layout) => ReplaceKeeps(s, s.active, o.(layout := layout), s.active);
  }

  lemma SummonKeeps(s: Snapshot, win: WinId, orbit: OrbitId)
    requires SnapInv(s) && OrbitOf(s.orbits, win).None?
    ensures var t := s.(orbits := s.orbits[orbit := Receive(s.orbits[orbit], win)]);
            SnapInv(t) && forall x :: Holds(t, x) <==> Holds(s, x) || x == win
  {
    ReceiveKeeps(s.orbits[orbit], win);
    var t := s.(orbits := s.orbits[orbit := Receive(s.orbits[orbit], win)]);
    forall x ensures Holds(t, x) <==> Holds(s, x) || x == win {
      if Holds(s, x) {
        var a :| 0 <= a < |s.orbits| && x in s.orbits[a].windows;
        assert x in t.orbits[a].windows;
      }
      assert win in t.orbits[orbit].windows;
    }
  }

  lemma BanishKeeps(s: Snapshot, a: nat, at: nat, hint: nat)
    requires SnapInv(s) && a < ORBIT_COUNT && at < |s.orbits[a].windows|
    ensures var t := s.(orbits := s.orbits[a := Release(s.orbits[a], at, hint)]);
            SnapInv(t) && forall x :: Holds(t, x) <==> Holds(s, x) && x != s.orbits[a].windows[at]
  {
    ReleaseKeeps(s.orbits[a], at, hint);
    var t, win := s.(orbits := s.orbits[a := Release(s.orbits[a], at, hint)]), s.orbits[a].windows[at];
    forall x ensures Holds(t, x) <==> Holds(s, x) && x != win {
      if Holds(s, x) && x != win {
        var b :| 0 <= b < |s.orbits| && x in s.orbits[b].windows;
        assert x in t.orbits[b].windows;
      }
    }
  }

  // ---- runs -----------------------------------------------------------------------------------

  datatype Event = Do(op: Op) | Summons(win: WinId, orbit: OrbitId) | Banishes(win: WinId) | Undoes | Redoes | Discards

  function Step(l: State, e: Event): (r: State)
    requires WellSized(l.now)
  {
    match e
    case Do(op) => Apply(l, op)
    case Summons(win, orbit) => Summon(l, win, orbit)
    case Banishes(win) => Banish(l, win)
    case Undoes => Undo(l)
    case Redoes => Redo(l)
    case Discards => Discard(l)
  }

  ghost predicate SnapshotsOk(l: State, hs: seq<Snapshot>) {
    forall i :: 0 <= i < |hs| ==> SnapInv(hs[i]) && SameWindows(hs[i], l.now)
  }

  /** Every snapshot kept for undo or redo is sound and holds exactly the windows alive now. */
  ghost predicate Inv(l: State) {
    && SnapInv(l.now)
    && SnapshotsOk(l, l.history) && SnapshotsOk(l, l.redo)
    && |l.history| + |l.redo| <= HISTORY_DEPTH
  }

  lemma ApplyKeeps(l: State, op: Op)
    requires Inv(l)
    ensures Inv(Apply(l, op)) && SameWindows(l.now, Apply(l, op).now)
  {
    if Change(l.now, op).Some? {
      ChangeKeeps(l.now, op);
      var l' := Apply(l, op);
      var h := l.history + [l.now];
      forall i | 0 <= i < |l'.history| ensures SnapInv(l'.history[i]) && SameWindows(l'.history[i], l'.now) {
        var k := if |h| > HISTORY_DEPTH then i + 1 else i;
        assert l'.history[i] == h[k];
        assert SnapInv(h[k]) && SameWindows(h[k], l.now);
      }
    }
  }

  lemma StepKeeps(l: State, e: Event)
    requires Inv(l)
    ensures Inv(Step(l, e))
  {
    match e
    case Do(op) => ApplyKeeps(l, op);
    case Summons(win, orbit) =>
      if OrbitOf(l.now.orbits, win).None? { SummonKeeps(l.now, win, orbit); }
    case Banishes(win) =>
      var a := OrbitOf(l.now.orbits, win);
      if a.Some? {
        var o := l.now.orbits[a.value];
        var at := PositionIn(o.windows, win).value;
        var left := |o.windows| - 1;
        var past := at >= if left > 1 then left else 1;
        BanishKeeps(l.now, a.value, at, if past && at > 0 then at - 1 else at);
      }
    case Undoes => TravelKeeps(l);
    case Redoes => TravelKeeps(l);
    case Discards =>
  }

  lemma TravelKeeps(l: State)
    requires Inv(l)
    ensures Inv(Undo(l)) && Inv(Redo(l))
  {}

  function Run(l: State, es: seq<Event>): (r: Option<State>) {
    if es == [] then Some(l)
    else
      var p := Run(l, es[..|es| - 1]);
      if p.None? || !WellSized(p.value.now) then None else Some(Step(p.value, es[|es| - 1]))
  }

  /** All reachable ledgers: windows distinct across orbits, focus in range exactly where there are
      windows, stow and fullscreen drawn from their orbit, history bounded and of the live windows. */
  lemma {:induction false} ReachableInv(es: seq<Event>)
    ensures Run(NewLedger(), es).Some? && Inv(Run(NewLedger(), es).value)
  {
    if es != [] {
      ReachableInv(es[..|es| - 1]);
      StepKeeps(Run(NewLedger(), es[..|es| - 1]).value, es[|es| - 1]);
    }
  }

  /** Undo and redo bring back no banished window and lose no live one. */
  lemma UndoKeepsWindows(es: seq<Event>)
    ensures Run(NewLedger(), es).Some?
    ensures var l := Run(NewLedger(), es).value;
            && WellSized(l.now)
            && SameWindows(l.now, Undo(l).now) && SameWindows(l.now, Redo(l).now)
  {
    ReachableInv(es);
  }

  /** The live windows change only by what the compositor reports. */
  lemma LiveWindows(l: State, e: Event, x: WinId)
    requires Inv(l)
    ensures Holds(Step(l, e).now, x) <==>
              if e.Summons? && x == e.win then true else Holds(l.now, x) && !(e.Banishes? && x == e.win)
  {
    match e
    case Do(op) => ApplyKeeps(l, op);
    case Summons(win, orbit) =>
      var a := OrbitOf(l.now.orbits, win);
      if a.None? {
        SummonKeeps(l.now, win, orbit);
      } else {
        assert win in l.now.orbits[a.value].windows;
      }
    case Banishes(win) =>
      var a := OrbitOf(l.now.orbits, win);
      if a.Some? {
        var o := l.now.orbits[a.value];
        var at := PositionIn(o.windows, win).value;
        var left := |o.windows| - 1;
        var past := at >= if left > 1 then left else 1;
        BanishKeeps(l.now, a.value, at, if past && at > 0 then at - 1 else at);
      }
    case _ =>
  }

  /** Some summons of the window is followed by no banishing of it. */
  ghost predicate LastSummoned(es: seq<Event>, x: WinId) {
    exists i :: 0 <= i < |es| && IsSummons(es[i], x) && forall j :: i < j < |es| ==> !IsBanishing(es[j], x)
  }

  predicate IsSummons(e: Event, x: WinId) { e.Summons? && e.win == x }

  predicate IsBanishing(e: Event, x: WinId) { e.Banishes? && e.win == x }

  lemma LastSummonedNext(es: seq<Event>, e: Event, x: WinId)
    ensures LastSummoned(es + [e], x) <==> IsSummons(e, x) || (LastSummoned(es, x) && !IsBanishing(e, x))
  {
    var all := es + [e];
    if IsSummons(e, x) {
      assert IsSummons(all[|es|], x);
    } else if LastSummoned(es, x) && !IsBanishing(e, x) {
      var i :| 0 <= i < |es| && IsSummons(es[i], x) && forall j :: i < j < |es| ==> !IsBanishing(es[j], x);
      assert IsSummons(all[i], x);
      assert forall j :: i < j < |all| ==> all[j] == if j < |es| then es[j] else e;
    }
    if LastSummoned(all, x) && !IsSummons(e, x) {
      var i :| 0 <= i < |all| && IsSummons(all[i], x) && forall j :: i < j < |all| ==> !IsBanishing(all[j], x);
      assert !IsBanishing(all[|es|], x);
      assert IsSummons(es[i], x);
      assert forall j :: i < j < |es| ==> es[j] == all[j];
    }
  }

  /** After any history, undos and redos included, the windows alive are exactly those whose last
      summons came after their last banishing. */
  lemma {:induction false} LiveHistory(es: seq<Event>, x: WinId)
    ensures Run(NewLedger(), es).Some? && (Holds(Run(NewLedger(), es).value.now, x) <==> LastSummoned(es, x))
  {
    ReachableInv(es);
    if es != [] {
      var p, e := es[..|es| - 1], es[|es| - 1];
      ReachableInv(p);
      LiveHistory(p, x);
      LiveWindows(Run(NewLedger(), p).value, e, x);
      LastSummonedNext(p, e, x);
      assert es == p + [e];
    }
  }

  // ---- where banishing leaves the focus --------------------------------------------------------

  /** Banishing a window that is not focused keeps the focused one exactly when it stands right after
      the one that goes, or right before it at the end; otherwise the focus moves to the vacated slot. */
  lemma BanishFocus(l: State, win: WinId)
    requires SnapInv(l.now) && OrbitOf(l.now.orbits, win).Some?
    ensures var a := OrbitOf(l.now.orbits, win).value;
            var o := l.now.orbits[a];
            var at := PositionIn(o.windows, win).value;
            && WellSized(Banish(l, win).now) && o.focus.Some?
            && (o.Focused() != Some(win) ==>
                  (Banish(l, win).now.orbits[a].Focused() == o.Focused() <==>
                     o.focus.value == at + 1 || (at == |o.windows| - 1 && o.focus.value + 1 == at)))
  {
    var a := OrbitOf(l.now.orbits, win).value;
    var o := l.now.orbits[a];
    assert OrbitInv(o);
    var at := PositionIn(o.windows, win).value;
    RemovedAt(o.windows, at);
  }

  lemma RemovedAt(ws: seq<WinId>, at: nat)
    requires at < |ws|
    ensures |RemoveAt(ws, at)| == |ws| - 1
    ensures forall i :: 0 <= i < |ws| - 1 ==> RemoveAt(ws, at)[i] == ws[if i < at then i else i + 1]
  {}

  lemma RunNext(es: seq<Event>, e: Event)
    ensures Run(NewLedger(), es).Some? && WellSized(Run(NewLedger(), es).value.now)
    ensures Run(NewLedger(), es + [e]) == Some(Step(Run(NewLedger(), es).value, e))
  {
    ReachableInv(es);
    assert (es + [e])[..|es|] == es;
  }

  predicate FirstOrbit(l: State, o: Orbit) {
    && WellSized(l.now) && l.now.active == 0 && l.now.orbits[0] == o
    && forall a :: 0 < a < ORBIT_COUNT ==> l.now.orbits[a].windows == []
  }

  lemma SummonFirst(l: State, o: Orbit, win: WinId)
    requires FirstOrbit(l, o) && win !in o.windows
    ensures FirstOrbit(Summon(l, win, 0), Receive(o, win))
  {}

  /** It does happen: of three windows the last is focused; banishing the first moves the focus. */
  function ThreeWindows(): (es: seq<Event>) {
    [] + [Summons(1, 0)] + [Summons(2, 0)] + [Summons(3, 0)]
  }

  lemma FocusMoves()
    ensures Run(NewLedger(), ThreeWindows()).Some?
    ensures var l := Run(NewLedger(), ThreeWindows()).value;
            && FirstOrbit(l, Orbit([1, 2, 3], Some(2), [], Triptych, None))
            && Banish(l, 1).now.orbits[0].Focused() == Some(2)
  {
    RunNext([], Summons(1, 0));
    RunNext([] + [Summons(1, 0)], Summons(2, 0));
    RunNext([] + [Summons(1, 0)] + [Summons(2, 0)], Summons(3, 0));
    var l0, o1, o2 := NewLedger(), Orbit([1], Some(0), [], Triptych, None), Orbit([1, 2], Some(1), [], Triptych, None);
    SummonFirst(l0, EmptyOrbit(), 1);
    assert Receive(EmptyOrbit(), 1) == o1;
    var l1 := Summon(l0, 1, 0);
    SummonFirst(l1, o1, 2);
    assert Receive(o1, 2) == o2;
    SummonFirst(Summon(l1, 2, 0), o2, 3);
    assert Receive(o2, 3) == Orbit([1, 2, 3], Some(2), [], Triptych, None);
    BanishFirst(Run(NewLedger(), ThreeWindows()).value);
  }

  lemma BanishFirst(l: State)
    requires FirstOrbit(l, Orbit([1, 2, 3], Some(2), [], Triptych, None))
    ensures Banish(l, 1).now.orbits[0].Focused() == Some(2)
  {
    var ws := [1, 2, 3];
    assert 1 in l.now.orbits[0].windows by { assert l.now.orbits[0].windows[0] == 1; }
    assert OrbitOf(l.now.orbits, 1) == Some(0);
    assert ws[0] == 1;
    assert PositionIn(ws, 1) == Some(0);
    RemovedAt(ws, 0);
  }

  // ---- undo and redo as a cursor on a timeline --------------------------------------------------

  function Reverse(hs: seq<Snapshot>): (r: seq<Snapshot>) {
    if hs == [] then [] else [hs[|hs| - 1]] + Reverse(hs[..|hs| - 1])
  }

  /** Everything that can be returned to, oldest first; the present is at index |history|. */
  function Timeline(l: State): (t: seq<Snapshot>) {
    l.history + [l.now] + Reverse(l.redo)
  }

  /** Undo and redo move along the timeline and change nothing on it. */
  lemma UndoMovesCursor(l: State)
    ensures Timeline(Undo(l)) == Timeline(l)
    ensures |Undo(l).history| == if l.history == [] then 0 else |l.history| - 1
    ensures Timeline(Redo(l)) == Timeline(l)
    ensures |Redo(l).history| == |l.history| + if l.redo == [] then 0 else 1
  {
    if l.history != [] {
      var k := |l.history| - 1;
      assert l.history == l.history[..k] + [l.history[k]];
      assert (l.redo + [l.now])[..|l.redo|] == l.redo;
    }
    if l.redo != [] {
      var k := |l.redo| - 1;
      assert Reverse(l.redo) == [l.redo[k]] + Reverse(l.redo[..k]);
    }
  }

  /** A user action cuts the future off, and forgets the oldest past beyond the depth. */
  lemma ActionCutsFuture(l: State, op: Op)
    requires WellSized(l.now) && Change(l.now, op).Some?
    ensures var t := Timeline(l)[..|l.history| + 1] + [Change(l.now, op).value];
            Timeline(Apply(l, op)) == if |l.history| >= HISTORY_DEPTH then t[1..] else t
  {
    var h := l.history + [l.now];
    assert Timeline(l)[..|l.history| + 1] == h;
  }

  function UndoN(l: State, k: nat): (r: State) { if k == 0 then l else Undo(UndoN(l, k - 1)) }

  function RedoN(l: State, k: nat): (r: State)
    decreases k
  {
    if k == 0 then l else RedoN(Redo(l), k - 1)
  }

  lemma RedoUndo(l: State)
    requires l.history != []
    ensures Redo(Undo(l)) == l
  {
    var k := |l.history| - 1;
    assert l.history == l.history[..k] + [l.history[k]];
    assert (l.redo + [l.now])[..|l.redo|] == l.redo;
  }

  lemma {:induction false} UndoDepth(l: State, k: nat)
    requires k <= |l.history|
    ensures |UndoN(l, k).history| == |l.history| - k
    ensures UndoN(l, k).history == l.history[..|l.history| - k]
    ensures UndoN(l, k).now == if k == 0 then l.now else l.history[|l.history| - k]
  {
    if k > 0 {
      UndoDepth(l, k - 1);
    }
  }

  /** k undos and k redos restore the whole ledger, both stacks included. */
  lemma {:induction false} UndoRedoInverse(l: State, k: nat)
    requires k <= |l.history|
    ensures RedoN(UndoN(l, k), k) == l
  {
    if k > 0 {
      UndoDepth(l, k - 1);
      RedoUndo(UndoN(l, k - 1));
      UndoRedoInverse(l, k - 1);
    }
  }

  function ApplyAll(l: State, ops: seq<Op>): (r: State)
    requires WellSized(l.now)
    ensures WellSized(r.now)
  {
    if ops == [] then l else
      var p := ApplyAll(l, ops[..|ops| - 1]);
      assert Change(p.now, ops[|ops| - 1]).Some? ==> WellSized(Change(p.now, ops[|ops| - 1]).value);
      Apply(p, ops[|ops| - 1])
  }

  /** How many of the actions left a checkpoint. */
  function Checkpoints(l: State, ops: seq<Op>): (n: nat)
    requires WellSized(l.now)
  {
    if ops == [] then 0
    else
      var p := ops[..|ops| - 1];
      Checkpoints(l, p) + if Change(ApplyAll(l, p).now, ops[|ops| - 1]).Some? then 1 else 0
  }

  /** The snapshot `past` is `c` undos away. */
  predicate PastAt(past: Snapshot, l: State, c: nat) {
    && c <= |l.history| <= HISTORY_DEPTH
    && past == if c == 0 then l.now else l.history[|l.history| - c]
  }

  /** An action that counts moves the past one further away; any other leaves it. */
  lemma PastNext(past: Snapshot, l: State, op: Op, c: nat)
    requires WellSized(l.now) && PastAt(past, l, c)
    ensures Change(l.now, op).None? ==> PastAt(past, Apply(l, op), c)
    ensures Change(l.now, op).Some? && c < HISTORY_DEPTH ==> PastAt(past, Apply(l, op), c + 1)
  {}

  lemma {:induction false} PastKept(l: State, ops: seq<Op>)
    requires WellSized(l.now) && |l.history| <= HISTORY_DEPTH && Checkpoints(l, ops) <= HISTORY_DEPTH
    ensures PastAt(l.now, ApplyAll(l, ops), Checkpoints(l, ops))
  {
    if ops != [] {
      var p := ops[..|ops| - 1];
      PastKept(l, p);
      PastNext(l.now, ApplyAll(l, p), ops[|ops| - 1], Checkpoints(l, p));
    }
  }

  /** As many undos as actions that counted, up to the depth, bring back orbits and active orbit. */
  lemma UndoRestores(l: State, ops: seq<Op>)
    requires WellSized(l.now) && |l.history| <= HISTORY_DEPTH && Checkpoints(l, ops) <= HISTORY_DEPTH
    ensures UndoN(ApplyAll(l, ops), Checkpoints(l, ops)).now == l.now
  {
    PastKept(l, ops);
    UndoDepth(ApplyAll(l, ops), Checkpoints(l, ops));
  }
}
