/** What each ledger operation does, told by windows, focus and what stays as it was. */
module LedgerEffects {
  import opened Optional
  import opened LedgerModel
  import opened LedgerTheorems
  import opened LedgerSwaps

  // ---- focus steps ---------------------------------------------------------------------------

  /** The place a focus step leads to. */
  function Neighbour(i: nat, n: nat, dir: Dir): (j: nat)
    requires i < n
    ensures j < n
  {
    match dir
    case Forward => if i + 1 == n then 0 else i + 1
    case Backward => if i == 0 then n - 1 else i - 1
  }

  /** The focus goes to the next window, or the one before, going round at the ends; the lists stay. */
  lemma FocusStepMoves(s: Snapshot, dir: Dir)
    requires SnapInv(s)
    ensures var o := s.orbits[s.active];
            if |o.windows| < 2 then Change(s, FocusStep(dir)).None?
            else
              && o.focus.Some? && o.focus.value < |o.windows|
              && var j := Neighbour(o.focus.value, |o.windows|, dir);
                 && Change(s, FocusStep(dir)) == Some(SetActive(s, o.(focus := Some(j))))
                 && Change(s, FocusStep(dir)).value.orbits[s.active].Focused() == Some(o.windows[j])
  {
    var o := s.orbits[s.active];
    assert OrbitInv(o);
    if |o.windows| >= 2 {
      SteppedIs(o.focus.value, |o.windows|);
    }
  }

  /** A step one way and a step the other leave everything as it was. */
  lemma FocusStepUndone(s: Snapshot, dir: Dir)
    requires Swappable(s)
    ensures var back := if dir.Forward? then Backward else Forward;
            var t := Change(s, FocusStep(dir));
            t.Some? && WellSized(t.value) && Change(t.value, FocusStep(back)) == Some(s)
  {
    var back := if dir.Forward? then Backward else Forward;
    FocusStepMoves(s, dir);
    ChangeKeeps(s, FocusStep(dir));
    var t := Change(s, FocusStep(dir)).value;
    FocusStepMoves(t, back);
    assert Change(t, FocusStep(back)).value.orbits == s.orbits;
  }

  function FocusSteps(dirs: seq<Dir>): (ops: seq<Op>)
    ensures |ops| == |dirs|
  {
    if dirs == [] then [] else FocusSteps(dirs[..|dirs| - 1]) + [FocusStep(dirs[|dirs| - 1])]
  }

  function FocusAt(s: Snapshot, j: nat): (t: Snapshot)
    requires WellSized(s)
  {
    SetActive(s, s.orbits[s.active].(focus := Some(j)))
  }

  /** The place `d` places on from `f`, going round. */
  function Place(f: nat, d: int, n: nat): (j: nat)
    requires n > 0
    ensures j < n
  {
    (f + d) % n
  }

  lemma NextPlace(f: nat, d: int, n: nat, dir: Dir)
    requires f < n
    ensures Neighbour(Place(f, d, n), n, dir) == Place(f, d + if dir.Forward? then 1 else -1, n)
    ensures Place(f, 0, n) == f
  {
    ModStep(f + d, n);
    ModUnique(f, n, 0, f);
  }

  /** After any run of focus steps the focus stands the net number of places further on, going round,
      and nothing else has changed. */
  lemma {:induction false} FocusRuns(l: State, dirs: seq<Dir>)
    requires Swappable(l.now)
    ensures var o := l.now.orbits[l.now.active];
            && o.focus.Some? && Swappable(ApplyAll(l, FocusSteps(dirs)).now)
            && ApplyAll(l, FocusSteps(dirs)).now == FocusAt(l.now, Place(o.focus.value, Net(dirs), |o.windows|))
  {
    var o := l.now.orbits[l.now.active];
    SwappableFocus(l.now);
    if dirs == [] {
      NextPlace(o.focus.value, 0, |o.windows|, Forward);
      assert FocusAt(l.now, o.focus.value).orbits == l.now.orbits;
    } else {
      var p, dir := dirs[..|dirs| - 1], dirs[|dirs| - 1];
      FocusRuns(l, p);
      NextPlace(o.focus.value, Net(p), |o.windows|, dir);
      assert FocusSteps(dirs)[..|p|] == FocusSteps(p);
      StepOn(ApplyAll(l, FocusSteps(p)), dir);
    }
  }

  lemma StepOn(l: State, dir: Dir)
    requires Swappable(l.now)
    ensures var o := l.now.orbits[l.now.active];
            && o.focus.Some? && o.focus.value < |o.windows|
            && Apply(l, FocusStep(dir)).now == FocusAt(l.now, Neighbour(o.focus.value, |o.windows|, dir))
            && Swappable(Apply(l, FocusStep(dir)).now)
  {
    FocusStepMoves(l.now, dir);
    ChangeKeeps(l.now, FocusStep(dir));
  }

  /** Focusing a window shows its orbit with that window focused; every list stays. */
  lemma FocusOutcome(s: Snapshot, win: WinId)
    requires SnapInv(s)
    ensures var t := Change(s, FocusWindow(win));
            && (t.Some? <==> Holds(s, win))
            && (t.Some? ==>
                  && WellSized(t.value) && win in s.orbits[t.value.active].windows
                  && t.value.orbits[t.value.active].Focused() == Some(win)
                  && t.value.orbits == s.orbits[t.value.active := s.orbits[t.value.active].(focus := t.value.orbits[t.value.active].focus)])
  {
    var a := OrbitOf(s.orbits, win);
    if a.None? {
      assert !Holds(s, win);
    } else {
      assert Holds(s, win);
    }
  }

  // ---- windows come and go ----------------------------------------------------------------------

  /** The new window stands right after the focused one and takes the focus; the others keep their order. */
  predicate Received(o: Orbit, win: WinId, o': Orbit) {
    && o' == o.(windows := o'.windows, focus := o'.focus)
    && o'.Focused() == Some(win) && RemoveAt(o'.windows, o'.focus.value) == o.windows
    && (o.Focused().Some? ==> o'.focus.value > 0 && o'.windows[o'.focus.value - 1] == o.Focused().value)
  }

  lemma ReceiveOutcome(o: Orbit, win: WinId)
    requires OrbitInv(o)
    ensures Received(o, win, Receive(o, win))
  {
    var o' := Receive(o, win);
    assert RemoveAt(o'.windows, o'.focus.value) == o.windows;
  }

  /** A known window is ignored; a new one arrives in its orbit alone, and ends what can be undone. */
  lemma SummonOutcome(l: State, win: WinId, orbit: OrbitId)
    requires SnapInv(l.now)
    ensures var t := Summon(l, win, orbit);
            if Holds(l.now, win) then t == l
            else
              && t.history == [] && t.redo == [] && WellSized(t.now) && t.now.active == l.now.active
              && Received(l.now.orbits[orbit], win, t.now.orbits[orbit])
              && forall a :: 0 <= a < ORBIT_COUNT && a != orbit ==> t.now.orbits[a] == l.now.orbits[a]
  {
    assert OrbitInv(l.now.orbits[orbit]);
    ReceiveOutcome(l.now.orbits[orbit], win);
    if OrbitOf(l.now.orbits, win).None? {
      assert !Holds(l.now, win);
    } else {
      assert Holds(l.now, win);
    }
  }

  lemma {:induction false} WithoutNone(ws: seq<WinId>, win: WinId)
    requires win !in ws
    ensures Without(ws, [win]) == ws
  {
    if ws != [] {
      var k := |ws| - 1;
      assert ws[k] in ws;
      WithoutNone(ws[..k], win);
      assert ws[..k] + [ws[k]] == ws;
    }
  }

  lemma {:induction false} RemoveIsWithout(ws: seq<WinId>, at: nat)
    requires at < |ws| && NoDup(ws)
    ensures RemoveAt(ws, at) == Without(ws, [ws[at]])
  {
    var k := |ws| - 1;
    if at == k {
      assert ws[k] !in ws[..k];
      WithoutNone(ws[..k], ws[k]);
      assert RemoveAt(ws, at) == ws[..k];
    } else {
      RemoveIsWithout(ws[..k], at);
      assert RemoveAt(ws, at) == RemoveAt(ws[..k], at) + [ws[k]];
    }
  }

  /** The window is gone from every list of the orbit, the others keep their order, and the focus is
      somewhere among them. */
  predicate Released(o: Orbit, win: WinId, o': Orbit) {
    && o' == o.(windows := Without(o.windows, [win]), stowed := Without(o.stowed, [win]),
                fullscreen := if o.fullscreen == Some(win) then None else o.fullscreen, focus := o'.focus)
    && (o'.focus.Some? <==> o'.windows != []) && (o'.focus.Some? ==> o'.focus.value < |o'.windows|)
  }

  lemma ReleaseOutcome(o: Orbit, at: nat, hint: nat)
    requires OrbitInv(o) && at < |o.windows|
    ensures Released(o, o.windows[at], Release(o, at, hint))
    ensures hint < |o.windows| - 1 ==> Release(o, at, hint).Focused() == Some(o.windows[if hint < at then hint else hint + 1])
  {
    RemoveIsWithout(o.windows, at);
    RemovedAt(o.windows, at);
  }

  /** An unknown window changes nothing; a known one leaves its orbit alone, and ends what can be undone. */
  lemma BanishOutcome(l: State, win: WinId)
    requires SnapInv(l.now)
    ensures var (a, t) := (OrbitOf(l.now.orbits, win), Banish(l, win));
            if !Holds(l.now, win) then t == l
            else
              && a.Some? && t.history == [] && t.redo == [] && WellSized(t.now) && t.now.active == l.now.active
              && Released(l.now.orbits[a.value], win, t.now.orbits[a.value])
              && forall b :: 0 <= b < ORBIT_COUNT && b != a.value ==> t.now.orbits[b] == l.now.orbits[b]
  {
    var a := OrbitOf(l.now.orbits, win);
    if a.Some? {
      assert Holds(l.now, win);
      var o := l.now.orbits[a.value];
      assert OrbitInv(o);
      var at := PositionIn(o.windows, win).value;
      var left := |o.windows| - 1;
      var past := at >= if left > 1 then left else 1;
      ReleaseOutcome(o, at, if past && at > 0 then at - 1 else at);
    } else {
      assert !Holds(l.now, win);
    }
  }

  /** When the focused window goes, the one that moves into its place is focused, or the new last one. */
  lemma BanishFocused(l: State, win: WinId)
    requires SnapInv(l.now) && OrbitOf(l.now.orbits, win).Some?
    requires l.now.orbits[OrbitOf(l.now.orbits, win).value].Focused() == Some(win)
    ensures var a := OrbitOf(l.now.orbits, win).value;
            var o := l.now.orbits[a];
            var at := o.focus.value;
            && WellSized(Banish(l, win).now)
            && (|o.windows| > 1 ==>
                  Banish(l, win).now.orbits[a].Focused() == Some(o.windows[if at + 1 < |o.windows| then at + 1 else at - 1]))
  {
    var o := l.now.orbits[OrbitOf(l.now.orbits, win).value];
    assert OrbitInv(o);
    var at := PositionIn(o.windows, win).value;
    assert at == o.focus.value;
    var left := |o.windows| - 1;
    var past := at >= if left > 1 then left else 1;
    ReleaseOutcome(o, at, if past && at > 0 then at - 1 else at);
  }

  lemma MoveIs(s: Snapshot, target: OrbitId)
    requires SnapInv(s) && s.orbits[s.active].windows != [] && target != s.active
    ensures var o := s.orbits[s.active];
            && o.focus.Some? && o.focus.value < |o.windows| && o.Focused() == Some(o.windows[o.focus.value])
            && Change(s, MoveToOrbit(target)) == Some(Snapshot(
                 s.orbits[s.active := Release(o, o.focus.value, if o.focus.value > 0 then o.focus.value - 1 else 0)]
                         [target := Receive(s.orbits[target], o.Focused().value)], s.active))
  {
    var o := s.orbits[s.active];
    assert OrbitInv(o);
    assert PositionIn(o.windows, o.Focused().value).value == o.focus.value;
  }

  /** What a move leaves behind. */
  predicate Moved(s: Snapshot, target: OrbitId, t: Snapshot)
    requires WellSized(s)
  {
    var o := s.orbits[s.active];
    && WellSized(t) && t.active == s.active && o.Focused().Some?
    && Released(o, o.Focused().value, t.orbits[s.active])
    && Received(s.orbits[target], o.Focused().value, t.orbits[target])
    && (|o.windows| > 1 ==>
          t.orbits[s.active].Focused() == Some(o.windows[if o.focus.value > 0 then o.focus.value - 1 else 1]))
    && forall a :: 0 <= a < ORBIT_COUNT && a != s.active && a != target ==> t.orbits[a] == s.orbits[a]
  }

  /** The focused window goes to the other orbit as if it arrived there; here the one before it, or the
      new first one, is focused. Nothing else moves, and the same orbit stays shown. */
  lemma MoveOutcome(s: Snapshot, target: OrbitId)
    requires SnapInv(s)
    ensures var t := Change(s, MoveToOrbit(target));
            && (t.Some? <==> s.orbits[s.active].windows != [] && target != s.active)
            && (t.Some? ==> Moved(s, target, t.value))
  {
    var o := s.orbits[s.active];
    assert OrbitInv(o) && OrbitInv(s.orbits[target]);
    if o.windows != [] && target != s.active {
      MoveIs(s, target);
      ReleaseOutcome(o, o.focus.value, if o.focus.value > 0 then o.focus.value - 1 else 0);
      ReceiveOutcome(s.orbits[target], o.Focused().value);
    }
  }

  // ---- what only touches one field -----------------------------------------------------------------

  /** Showing another orbit changes nothing but which one is shown. */
  lemma SwitchOutcome(s: Snapshot, target: OrbitId)
    requires SnapInv(s)
    ensures Change(s, SwitchOrbit(target)) == if target == s.active then None else Some(Snapshot(s.orbits, target))
  {}

  /** Stowing turns the focused window's visibility over, no other window's, and nothing else. */
  lemma StowOutcome(s: Snapshot)
    requires SnapInv(s)
    ensures var (o, t) := (s.orbits[s.active], Change(s, ToggleStow));
            && (t.Some? <==> o.windows != [])
            && (t.Some? ==>
                  && WellSized(t.value) && o.Focused().Some?
                  && t.value == SetActive(s, o.(stowed := t.value.orbits[s.active].stowed))
                  && forall x :: x in o.windows ==>
                       (x in t.value.orbits[s.active].Visible() <==> (x in o.Visible()) != (x == o.Focused().value)))
  {
    var o := s.orbits[s.active];
    assert OrbitInv(o);
    if o.windows != [] {
      var win := o.Focused().value;
      var o' := o.(stowed := ToggleIn(o.stowed, win));
      ToggleOthers(o.stowed, win);
      WithoutKeeps(o.windows, o.stowed);
      WithoutKeeps(o.windows, o'.stowed);
    }
  }

  lemma ToggleOthers(stowed: seq<WinId>, win: WinId)
    requires NoDup(stowed)
    ensures forall x :: x in ToggleIn(stowed, win) <==> (x in stowed) != (x == win)
  {
    var at := PositionIn(stowed, win);
    if at.Some? {
      RemoveKeeps(stowed, at.value);
    }
  }

  /** Fullscreen goes to the focused window, or away from it; nothing else changes. */
  lemma FullscreenOutcome(s: Snapshot)
    requires SnapInv(s)
    ensures var (o, t) := (s.orbits[s.active], Change(s, ToggleFullscreen));
            && (t.Some? <==> o.windows != [])
            && (t.Some? ==>
                  && WellSized(t.value) && t.value == SetActive(s, o.(fullscreen := t.value.orbits[s.active].fullscreen))
                  && (t.value.orbits[s.active].fullscreen == o.Focused() <==> o.fullscreen != o.Focused())
                  && (o.fullscreen == o.Focused() ==> t.value.orbits[s.active].fullscreen.None?))
  {
    assert OrbitInv(s.orbits[s.active]);
  }

  /** A layout is chosen for the shown orbit alone; choosing the one it has leaves no trace. */
  lemma LayoutOutcome(s: Snapshot, layout: Layout)
    requires SnapInv(s)
    ensures var (o, t) := (s.orbits[s.active], Change(s, SetLayout(layout)));
            && (t.None? <==> o.layout == layout)
            && (t.Some? ==> t.value == SetActive(s, o.(layout := layout)))
  {}
}
