/** The ledger as a value: six ordered window lists with snapshot undo and redo. */
module LedgerModel {
  import opened Optional

  type WinId = nat

  const ORBIT_COUNT: nat := 6
  const HISTORY_DEPTH: nat := 64

  type OrbitId = n: nat | n < ORBIT_COUNT

  datatype Dir = Forward | Backward

  datatype Layout = Triptych | Mono | Even

  datatype Orbit = Orbit(
    windows: seq<WinId>,
    focus: Option<nat>,
    stowed: seq<WinId>,
    layout: Layout,
    fullscreen: Option<WinId>)
  {
    function Focused(): (w: Option<WinId>) {
      if focus.Some? && focus.value < |windows| then Some(windows[focus.value]) else None
    }

    /** Clamps the focus back into range. */
    function Reseat(hint: nat): (o: Orbit) {
      this.(focus := if windows == [] then None
                     else Some(if hint < |windows| then hint else |windows| - 1))
    }

    function Visible(): (ws: seq<WinId>) { Without(windows, stowed) }
  }

  datatype Snapshot = Snapshot(orbits: seq<Orbit>, active: nat)

  datatype State = State(now: Snapshot, history: seq<Snapshot>, redo: seq<Snapshot>)

  datatype Op =
    | FocusWindow(win: WinId) | FocusStep(dir: Dir) | Swap(dir: Dir) | MoveToOrbit(target: OrbitId)
    | SwitchOrbit(target: OrbitId) | ToggleStow | ToggleFullscreen | SetLayout(layout: Layout)

  // ---- lists ------------------------------------------------------------------------

  function Without(ws: seq<WinId>, gone: seq<WinId>): (r: seq<WinId>) {
    if ws == [] then []
    else
      var w := ws[|ws| - 1];
      Without(ws[..|ws| - 1], gone) + if w in gone then [] else [w]
  }

  function InsertAt(ws: seq<WinId>, at: nat, w: WinId): (r: seq<WinId>)
    requires at <= |ws|
  {
    ws[..at] + [w] + ws[at..]
  }

  function RemoveAt(ws: seq<WinId>, at: nat): (r: seq<WinId>)
    requires at < |ws|
  {
    ws[..at] + ws[at + 1..]
  }

  /** The first place of a window in a list. */
  function PositionIn(ws: seq<WinId>, w: WinId): (r: Option<nat>)
    ensures r.Some? <==> w in ws
    ensures r.Some? ==> r.value < |ws| && ws[r.value] == w && w !in ws[..r.value]
  {
    if ws == [] then None
    else
      var r := PositionIn(ws[..|ws| - 1], w);
      if r.Some? then (assert ws[..|ws| - 1][..r.value] == ws[..r.value]; r)
      else if ws[|ws| - 1] == w then Some(|ws| - 1)
      else None
  }

  // ---- what each operation computes ---------------------------------------------------

  /** The first orbit that holds the window. */
  function OrbitOf(orbits: seq<Orbit>, win: WinId): (r: Option<nat>)
    ensures r.Some? ==> r.value < |orbits| && win in orbits[r.value].windows
    ensures r.None? ==> forall a :: 0 <= a < |orbits| ==> win !in orbits[a].windows
  {
    if orbits == [] then None
    else
      var r := OrbitOf(orbits[..|orbits| - 1], win);
      if r.Some? then r
      else if win in orbits[|orbits| - 1].windows then Some(|orbits| - 1)
      else None
  }

  /** A window arrives beside the focused one and takes the focus. */
  function Receive(o: Orbit, win: WinId): (r: Orbit) {
    var after := if o.focus.Some? then o.focus.value + 1 else 0;
    var at := if after < |o.windows| then after else |o.windows|;
    o.(windows := InsertAt(o.windows, at, win), focus := Some(at))
  }

  /** A window leaves for good; `hint` is where the focus should settle. */
  function Release(o: Orbit, at: nat, hint: nat): (r: Orbit)
    requires at < |o.windows|
  {
    var win := o.windows[at];
    o.(windows := RemoveAt(o.windows, at), stowed := Without(o.stowed, [win]),
       fullscreen := if o.fullscreen == Some(win) then None else o.fullscreen).Reseat(hint)
  }

  function Stepped(cur: nat, n: nat, dir: Dir): (r: nat)
    requires n > 0
  {
    match dir case Forward => (cur + 1) % n case Backward => (cur + n - 1) % n
  }

  function SwapIn(ws: seq<WinId>, a: nat, b: nat): (r: seq<WinId>)
    requires a < |ws| && b < |ws|
  {
    ws[a := ws[b]][b := ws[a]]
  }

  function ToggleIn(stowed: seq<WinId>, win: WinId): (r: seq<WinId>) {
    var at := PositionIn(stowed, win);
    if at.Some? then RemoveAt(stowed, at.value) else stowed + [win]
  }

  predicate WellSized(s: Snapshot) { |s.orbits| == ORBIT_COUNT && s.active < ORBIT_COUNT }

  function SetActive(s: Snapshot, o: Orbit): (r: Snapshot)
    requires WellSized(s)
  {
    s.(orbits := s.orbits[s.active := o])
  }

  /** What a user action makes of a snapshot; None when it changes nothing and leaves no checkpoint. */
  function Change(s: Snapshot, op: Op): (r: Option<Snapshot>)
    requires WellSized(s)
  {
    var o := s.orbits[s.active];
    var n := |o.windows|;
    match op
    case FocusWindow(win) =>
      var a := OrbitOf(s.orbits, win);
      if a.None? then None
      else Some(Snapshot(s.orbits[a.value := s.orbits[a.value].(focus := PositionIn(s.orbits[a.value].windows, win))], a.value))
    case FocusStep(dir) =>
      if n < 2 then None
      else Some(SetActive(s, o.(focus := Some(Stepped(if o.focus.Some? then o.focus.value else 0, n, dir)))))
    case Swap(dir) =>
      if o.focus.None? || n < 2 || o.focus.value >= n then None
      else
        var target := Stepped(o.focus.value, n, dir);
        Some(SetActive(s, o.(windows := SwapIn(o.windows, o.focus.value, target), focus := Some(target))))
    case MoveToOrbit(target) =>
      var win := o.Focused();
      if win.None? || target == s.active then None
      else
        var at := PositionIn(o.windows, win.value).value;
        var src := Release(o, at, if at > 0 then at - 1 else 0);
        Some(s.(orbits := s.orbits[s.active := src][target := Receive(s.orbits[target], win.value)]))
    case SwitchOrbit(target) => if target == s.active then None else Some(s.(active := target))
    case ToggleStow =>
      if o.Focused().None? then None else Some(SetActive(s, o.(stowed := ToggleIn(o.stowed, o.Focused().value))))
    case ToggleFullscreen =>
      if o.Focused().None? then None
      else Some(SetActive(s, o.(fullscreen := if o.fullscreen == o.Focused() then None else o.Focused())))
    case SetLayout(layout) => if o.layout == layout then None else Some(SetActive(s, o.(layout := layout)))
  }

  function Checkpoint(l: State): (r: State) {
    var h := l.history + [l.now];
    l.(history := if |h| > HISTORY_DEPTH then h[1..] else h, redo := [])
  }

  function Apply(l: State, op: Op): (r: State)
    requires WellSized(l.now)
  {
    var n := Change(l.now, op);
    if n.None? then l else Checkpoint(l).(now := n.value)
  }

  function Discard(l: State): (r: State) { l.(history := [], redo := []) }

  function Summon(l: State, win: WinId, orbit: OrbitId): (r: State)
    requires WellSized(l.now)
  {
    if OrbitOf(l.now.orbits, win).Some? then l
    else Discard(l).(now := l.now.(orbits := l.now.orbits[orbit := Receive(l.now.orbits[orbit], win)]))
  }

  function Banish(l: State, win: WinId): (r: State)
    requires WellSized(l.now)
  {
    var a := OrbitOf(l.now.orbits, win);
    if a.None? then l
    else
      var o := l.now.orbits[a.value];
      var at := PositionIn(o.windows, win).value;
      var left := |o.windows| - 1;
      var past := at >= if left > 1 then left else 1;
      var hint := if past && at > 0 then at - 1 else at;
      Discard(l).(now := l.now.(orbits := l.now.orbits[a.value := Release(o, at, hint)]))
  }

  function Undo(l: State): (r: State) {
    if l.history == [] then l
    else
      var k := |l.history| - 1;
      State(l.history[k], l.history[..k], l.redo + [l.now])
  }

  function Redo(l: State): (r: State) {
    if l.redo == [] then l
    else
      var k := |l.redo| - 1;
      State(l.redo[k], l.history + [l.now], l.redo[..k])
  }

  function EmptyOrbit(): (o: Orbit) { Orbit([], None, [], Triptych, None) }

  function NewLedger(): (l: State) {
    State(Snapshot(seq(ORBIT_COUNT, _ => EmptyOrbit()), 0), [], [])
  }
}
