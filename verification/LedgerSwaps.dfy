/** Swapping carries the focused window round the list and only ever rotates the others. */
module LedgerSwaps {
  import opened Optional
  import opened LedgerModel
  import opened LedgerTheorems

  /** The other windows in cyclic order, starting after the focused one. */
  function Rest(ws: seq<WinId>, f: nat): (r: seq<WinId>)
    requires f < |ws|
  {
    ws[f + 1..] + ws[..f]
  }

  function RotatedBy(r: seq<WinId>, k: nat): (q: seq<WinId>)
    requires k < |r|
  {
    r[k..] + r[..k]
  }

  function Rotated(r: seq<WinId>, d: int): (q: seq<WinId>) {
    if r == [] then [] else RotatedBy(r, d % |r|)
  }

  /** List and focus after one swap. */
  datatype Line = Line(windows: seq<WinId>, focus: nat)

  function SwapStep(x: Line, dir: Dir): (r: Line)
    requires x.focus < |x.windows|
  {
    var t := Stepped(x.focus, |x.windows|, dir);
    Line(SwapIn(x.windows, x.focus, t), t)
  }

  function SwapAll(x: Line, dirs: seq<Dir>): (r: Line)
    requires x.focus < |x.windows|
    ensures r.focus < |r.windows| && |r.windows| == |x.windows|
  {
    if dirs == [] then x else SwapStep(SwapAll(x, dirs[..|dirs| - 1]), dirs[|dirs| - 1])
  }

  /** How far a run of swaps goes forward in all. */
  function Net(dirs: seq<Dir>): (d: int) {
    if dirs == [] then 0 else Net(dirs[..|dirs| - 1]) + if dirs[|dirs| - 1].Forward? then 1 else -1
  }

  // ---- arithmetic ------------------------------------------------------------------------

  lemma MulAtLeast(k: int, m: nat)
    ensures k >= 1 ==> k * m >= m
    ensures k <= -1 ==> k * m <= -(m as int)
  {}

  lemma ModUnique(a: int, m: nat, q: int, r: nat)
    requires m > 0 && a == q * m + r && r < m
    ensures a % m == r
  {
    var q', r' := a / m, a % m;
    assert a == q' * m + r';
    assert (q - q') * m == r' - r;
    MulAtLeast(q - q', m);
  }

  lemma ModStep(a: int, m: nat)
    requires m > 0
    ensures (a + 1) % m == if a % m + 1 == m then 0 else a % m + 1
    ensures (a - 1) % m == if a % m == 0 then m - 1 else a % m - 1
  {
    var q, r := a / m, a % m;
    assert a == q * m + r;
    if r + 1 == m {
      assert a + 1 == (q + 1) * m + 0;
      ModUnique(a + 1, m, q + 1, 0);
    } else {
      ModUnique(a + 1, m, q, r + 1);
    }
    if r == 0 {
      assert a - 1 == (q - 1) * m + (m - 1);
      ModUnique(a - 1, m, q - 1, m - 1);
    } else {
      ModUnique(a - 1, m, q, r - 1);
    }
  }

  // ---- one swap -----------------------------------------------------------------------------

  lemma SteppedIs(f: nat, n: nat)
    requires f < n
    ensures Stepped(f, n, Forward) == if f + 1 == n then 0 else f + 1
    ensures Stepped(f, n, Backward) == if f == 0 then n - 1 else f - 1
  {
    if f > 0 {
      ModUnique(f + n - 1, n, 1, f - 1);
    }
  }

  /** Index arithmetic on a circle of `n` places. */
  function Wrap(j: nat, n: nat): (r: nat)
    requires j < 2 * n
    ensures r < n
  {
    if j < n then j else j - n
  }

  lemma RestAt(ws: seq<WinId>, f: nat, i: nat)
    requires f < |ws| && i < |ws| - 1
    ensures Rest(ws, f)[i] == ws[Wrap(f + 1 + i, |ws|)]
  {}

  /** A swap moves the focus one place and the head of the rest to its end, or back. */
  lemma SwapRotatesOnce(x: Line, dir: Dir)
    requires x.focus < |x.windows| && |x.windows| >= 2
    ensures var y := SwapStep(x, dir);
            && y.windows[y.focus] == x.windows[x.focus]
            && Rest(y.windows, y.focus) == Turned(Rest(x.windows, x.focus), dir)
  {
    var n, y := |x.windows|, SwapStep(x, dir);
    SteppedIs(x.focus, n);
    var r, r' := Rest(x.windows, x.focus), Rest(y.windows, y.focus);
    forall i | 0 <= i < n - 1 ensures r'[i] == Turned(r, dir)[i] {
      RestAt(y.windows, y.focus, i);
      var k := if dir.Forward? then (if i + 1 < n - 1 then i + 1 else 0) else (if i > 0 then i - 1 else n - 2);
      RestAt(x.windows, x.focus, k);
      assert Turned(r, dir)[i] == r[k];
    }
  }

  function Turned(r: seq<WinId>, dir: Dir): (q: seq<WinId>)
    requires r != []
  {
    var k := |r| - 1;
    match dir case Forward => r[1..] + [r[0]] case Backward => [r[k]] + r[..k]
  }

  lemma TurnAt(r: seq<WinId>, k: nat)
    requires k < |r|
    ensures RotatedBy(r, if k + 1 == |r| then 0 else k + 1) == Turned(RotatedBy(r, k), Forward)
    ensures RotatedBy(r, if k == 0 then |r| - 1 else k - 1) == Turned(RotatedBy(r, k), Backward)
  {
    if k + 1 == |r| {
      assert RotatedBy(r, 0) == Turned(RotatedBy(r, k), Forward);
    }
  }

  lemma RotateOnce(r: seq<WinId>, d: int, dir: Dir)
    requires r != []
    ensures Rotated(r, d) != []
    ensures Rotated(r, d + if dir.Forward? then 1 else -1) == Turned(Rotated(r, d), dir)
  {
    var k := d % |r|;
    ModStep(d, |r|);
    TurnAt(r, k);
    if dir.Forward? {
      assert Rotated(r, d + 1) == RotatedBy(r, if k + 1 == |r| then 0 else k + 1);
    } else {
      assert Rotated(r, d - 1) == RotatedBy(r, if k == 0 then |r| - 1 else k - 1);
    }
  }

  // ---- any run of swaps -------------------------------------------------------------------------

  /** `y` is `x` with the focused window carried `d` places on. */
  ghost predicate Carried(x: Line, y: Line, d: int)
    requires x.focus < |x.windows|
  {
    && |y.windows| == |x.windows| && y.focus < |y.windows|
    && y.windows[y.focus] == x.windows[x.focus]
    && y.focus == (x.focus + d) % |x.windows|
    && Rest(y.windows, y.focus) == Rotated(Rest(x.windows, x.focus), d)
  }

  lemma CarryOnce(x: Line, y: Line, d: int, dir: Dir)
    requires x.focus < |x.windows| && |x.windows| >= 2 && Carried(x, y, d)
    ensures Carried(x, SwapStep(y, dir), d + if dir.Forward? then 1 else -1)
  {
    SwapRotatesOnce(y, dir);
    RotateOnce(Rest(x.windows, x.focus), d, dir);
    SteppedIs(y.focus, |y.windows|);
    ModStep(x.focus + d, |x.windows|);
  }

  /** After any run of swaps the focused window is the same, it stands the net number of places
      further on, and the others are their old cyclic order rotated by that number. */
  lemma {:induction false} SwapsRotate(x: Line, dirs: seq<Dir>)
    requires x.focus < |x.windows| && |x.windows| >= 2
    ensures Carried(x, SwapAll(x, dirs), Net(dirs))
  {
    if dirs == [] {
      var n, r := |x.windows|, Rest(x.windows, x.focus);
      ModUnique(x.focus, n, 0, x.focus);
      ModUnique(0, |r|, 0, 0);
      assert Rotated(r, 0) == r;
    } else {
      var p := dirs[..|dirs| - 1];
      SwapsRotate(x, p);
      CarryOnce(x, SwapAll(x, p), Net(p), dirs[|dirs| - 1]);
    }
  }

  /** List and focus are determined by the focus, the focused window and the rest. */
  lemma Determined(x: Line, y: Line)
    requires x.focus < |x.windows| && y.focus == x.focus && |y.windows| == |x.windows|
    requires y.windows[x.focus] == x.windows[x.focus] && Rest(y.windows, x.focus) == Rest(x.windows, x.focus)
    ensures y == x
  {
    var n, f := |x.windows|, x.focus;
    forall i | 0 <= i < n ensures y.windows[i] == x.windows[i] {
      var k := if i > f then i - f - 1 else i + n - 1 - f;
      if i != f {
        assert Rest(x.windows, f)[k] == x.windows[i] && Rest(y.windows, f)[k] == y.windows[i];
      }
    }
    assert y.windows == x.windows;
  }

  /** The whole list is back exactly when the net number of places is a multiple of n and of n - 1;
      so Next and Prev undo each other, and n(n - 1) swaps one way bring everything back. */
  lemma SwapsRestore(x: Line, dirs: seq<Dir>)
    requires x.focus < |x.windows| && |x.windows| >= 2 && NoDup(x.windows)
    ensures var n := |x.windows|;
            SwapAll(x, dirs) == x <==> Net(dirs) % n == 0 && Net(dirs) % (n - 1) == 0
  {
    var n, d, r := |x.windows|, Net(dirs), Rest(x.windows, x.focus);
    SwapsRotate(x, dirs);
    var y := SwapAll(x, dirs);
    FocusBack(x.focus, d, n);
    assert Rotated(r, d) == r <==> d % (n - 1) == 0 by {
      RestNoDup(x.windows, x.focus);
      var k := d % |r|;
      if k == 0 {
        assert Rotated(r, d) == r;
      } else {
        assert Rotated(r, d)[0] == r[k] && r[k] != r[0];
      }
    }
    if d % n == 0 && d % (n - 1) == 0 {
      Determined(x, y);
    }
  }

  lemma FocusBack(f: nat, d: int, n: nat)
    requires f < n
    ensures (f + d) % n == f <==> d % n == 0
  {
    var q, r := d / n, d % n;
    assert d == q * n + r;
    if f + r < n {
      ModUnique(f + d, n, q, f + r);
    } else {
      assert f + d == (q + 1) * n + (f + r - n);
      ModUnique(f + d, n, q + 1, f + r - n);
    }
  }

  lemma RestNoDup(ws: seq<WinId>, f: nat)
    requires f < |ws| && NoDup(ws)
    ensures NoDup(Rest(ws, f))
  {
    var r, n := Rest(ws, f), |ws|;
    forall i, j | 0 <= i < j < |r| ensures r[i] != r[j] {
      assert r[i] == ws[if f + 1 + i < n then f + 1 + i else f + 1 + i - n];
      assert r[j] == ws[if f + 1 + j < n then f + 1 + j else f + 1 + j - n];
    }
  }

  lemma CircleMods(n: nat)
    requires n >= 2
    ensures n % n == 0 && (n * (n - 1)) % n == 0 && (n * (n - 1)) % (n - 1) == 0 && 0 % n == 0 && 0 % (n - 1) == 0
  {
    ModUnique(n, n, 1, 0);
    ModUnique(n * (n - 1), n, n - 1, 0);
    ModUnique(n * (n - 1), n - 1, n, 0);
    ModUnique(0, n, 0, 0);
    ModUnique(0, n - 1, 0, 0);
  }

  /** n swaps one way bring the focused window back to its slot; n(n - 1) restore the full order. */
  lemma FullCircle(x: Line, dirs: seq<Dir>)
    requires x.focus < |x.windows| && |x.windows| >= 2 && NoDup(x.windows)
    ensures Net(dirs) == |x.windows| ==> SwapAll(x, dirs).focus == x.focus
    ensures Net(dirs) == |x.windows| * (|x.windows| - 1) ==> SwapAll(x, dirs) == x
    ensures Net(dirs) == 0 ==> SwapAll(x, dirs) == x
  {
    SwapsRotate(x, dirs);
    SwapsRestore(x, dirs);
    FocusBack(x.focus, Net(dirs), |x.windows|);
    CircleMods(|x.windows|);
  }

  /** On the ledger a swap is exactly this step on the active orbit, and nothing else moves. */
  lemma LedgerSwap(s: Snapshot, dir: Dir)
    requires SnapInv(s)
    ensures var o := s.orbits[s.active];
            Change(s, Swap(dir)).Some? <==> |o.windows| >= 2
    ensures var o := s.orbits[s.active];
            |o.windows| >= 2 ==>
              var x := SwapStep(Line(o.windows, o.focus.value), dir);
              Change(s, Swap(dir)) == Some(SetActive(s, o.(windows := x.windows, focus := Some(x.focus))))
  {
    assert OrbitInv(s.orbits[s.active]);
  }

  // ---- runs of swaps on the ledger ------------------------------------------------------------

  function Swaps(dirs: seq<Dir>): (ops: seq<Op>)
    ensures |ops| == |dirs|
  {
    if dirs == [] then [] else Swaps(dirs[..|dirs| - 1]) + [Swap(dirs[|dirs| - 1])]
  }

  function ActiveLine(s: Snapshot): (x: Line)
    requires WellSized(s) && s.orbits[s.active].focus.Some?
  {
    Line(s.orbits[s.active].windows, s.orbits[s.active].focus.value)
  }

  function WithLine(s: Snapshot, x: Line): (t: Snapshot)
    requires WellSized(s)
  {
    SetActive(s, s.orbits[s.active].(windows := x.windows, focus := Some(x.focus)))
  }

  /** A sound snapshot whose active orbit has something to swap. */
  predicate Swappable(s: Snapshot) { SnapInv(s) && |s.orbits[s.active].windows| >= 2 }

  lemma SwappableFocus(s: Snapshot)
    requires Swappable(s)
    ensures s.orbits[s.active].focus.Some? && ActiveLine(s).focus < |ActiveLine(s).windows| && NoDup(ActiveLine(s).windows)
  {
    assert OrbitInv(s.orbits[s.active]);
  }

  lemma SwapOnLedger(l: State, dir: Dir)
    requires Swappable(l.now)
    ensures l.now.orbits[l.now.active].focus.Some? && ActiveLine(l.now).focus < |ActiveLine(l.now).windows|
    ensures Apply(l, Swap(dir)).now == WithLine(l.now, SwapStep(ActiveLine(l.now), dir)) && Swappable(Apply(l, Swap(dir)).now)
  {
    SwappableFocus(l.now);
    LedgerSwap(l.now, dir);
    ChangeKeeps(l.now, Swap(dir));
  }

  /** Swaps of the ledger are swaps of the active orbit's line, and nothing else moves. */
  lemma {:induction false} LedgerSwaps(l: State, dirs: seq<Dir>)
    requires Swappable(l.now)
    ensures l.now.orbits[l.now.active].focus.Some? && ActiveLine(l.now).focus < |ActiveLine(l.now).windows|
    ensures ApplyAll(l, Swaps(dirs)).now == WithLine(l.now, SwapAll(ActiveLine(l.now), dirs))
    ensures Swappable(ApplyAll(l, Swaps(dirs)).now)
  {
    SwappableFocus(l.now);
    if dirs != [] {
      var p := dirs[..|dirs| - 1];
      LedgerSwaps(l, p);
      assert Swaps(dirs)[..|p|] == Swaps(p);
      SwapOnLedger(ApplyAll(l, Swaps(p)), dirs[|p|]);
    }
  }

  /** With fewer than two windows swaps do nothing at all. */
  lemma {:induction false} LedgerSwapsNothing(l: State, dirs: seq<Dir>)
    requires SnapInv(l.now) && |l.now.orbits[l.now.active].windows| < 2
    ensures ApplyAll(l, Swaps(dirs)) == l
  {
    if dirs != [] {
      assert Swaps(dirs)[..|dirs| - 1] == Swaps(dirs[..|dirs| - 1]);
      LedgerSwapsNothing(l, dirs[..|dirs| - 1]);
    }
  }

  /** After any run of swaps only the active orbit's order and focus differ: the focused window is the
      same, stands the net number of places further on, and the others are rotated by that number. */
  lemma LedgerRotates(l: State, dirs: seq<Dir>)
    requires Swappable(l.now)
    ensures var t := ApplyAll(l, Swaps(dirs)).now;
            && Swappable(t) && l.now.orbits[l.now.active].focus.Some? && t.orbits[t.active].focus.Some?
            && t == WithLine(l.now, ActiveLine(t))
            && ActiveLine(l.now).focus < |ActiveLine(l.now).windows|
            && Carried(ActiveLine(l.now), ActiveLine(t), Net(dirs))
  {
    LedgerSwaps(l, dirs);
    SwapsRotate(ActiveLine(l.now), dirs);
  }

  /** The snapshot is restored exactly when the net number is a multiple of n and of n - 1; so Next
      then Prev is the identity, and n(n - 1) swaps one way restore the full order. */
  lemma LedgerRestores(l: State, dirs: seq<Dir>)
    requires Swappable(l.now)
    ensures ApplyAll(l, Swaps(dirs)).now == l.now <==> Circles(Net(dirs), |l.now.orbits[l.now.active].windows|)
  {
    SwappableFocus(l.now);
    LedgerSwaps(l, dirs);
    LineRestores(ActiveLine(l.now), dirs);
    SameLine(l.now, SwapAll(ActiveLine(l.now), dirs));
  }

  predicate Circles(d: int, n: nat)
    requires n >= 2
  {
    d % n == 0 && d % (n - 1) == 0
  }

  lemma LineRestores(x: Line, dirs: seq<Dir>)
    requires x.focus < |x.windows| && |x.windows| >= 2 && NoDup(x.windows)
    ensures SwapAll(x, dirs) == x <==> Circles(Net(dirs), |x.windows|)
  {
    SwapsRestore(x, dirs);
  }

  lemma SameLine(s: Snapshot, x: Line)
    requires WellSized(s) && s.orbits[s.active].focus.Some?
    ensures WithLine(s, x) == s <==> x == ActiveLine(s)
  {
    var o := s.orbits[s.active];
    assert WithLine(s, x).orbits[s.active] == o.(windows := x.windows, focus := Some(x.focus));
    assert WithLine(s, ActiveLine(s)).orbits == s.orbits;
  }

  /** n swaps one way bring the focused window back to its slot; n(n - 1), or none in all, restore the
      snapshot. */
  lemma LedgerFullCircle(l: State, dirs: seq<Dir>)
    requires Swappable(l.now)
    ensures var n, t := |l.now.orbits[l.now.active].windows|, ApplyAll(l, Swaps(dirs)).now;
            && (Net(dirs) == n ==> t.orbits[t.active].focus == l.now.orbits[l.now.active].focus)
            && (Net(dirs) == Pairs(n) || Net(dirs) == 0 ==> t == l.now)
  {
    SwappableFocus(l.now);
    LedgerSwaps(l, dirs);
    LineFullCircle(ActiveLine(l.now), dirs);
    SameLine(l.now, SwapAll(ActiveLine(l.now), dirs));
  }

  function Pairs(n: nat): (m: int) { n * (n - 1) }

  lemma LineFullCircle(x: Line, dirs: seq<Dir>)
    requires x.focus < |x.windows| && |x.windows| >= 2 && NoDup(x.windows)
    ensures Net(dirs) == |x.windows| ==> SwapAll(x, dirs).focus == x.focus
    ensures Net(dirs) == Pairs(|x.windows|) || Net(dirs) == 0 ==> SwapAll(x, dirs) == x
  {
    FullCircle(x, dirs);
  }
}
