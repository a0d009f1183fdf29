/** The endpoint ownership protocol: any number of processes, one lock, one directory entry.
    Each label is one system call; every interleaving and a crash at any point is a run. */
module Endpoint {
  import opened Optional

  /** A directory entry; `valid` when it is a socket of ours with mode 0600. */
  datatype Entry = Entry(inode: nat, valid: bool)

  /** An open bound socket. */
  datatype Socket = Socket(inode: nat, listening: bool)

  /** Where a process stands between two system calls. */
  datatype Process =
    | Idle
    | Locked                                  // holds the lock, has looked at nothing yet
    | Looked(identity: nat)                   // saw a socket entry
    | Stale(identity: nat)                    // its connection was refused
    | Rechecked(identity: nat)                // the entry is still the same one
    | Clear                                   // no entry is in the way
    | Unverified(inode: nat)                  // bound, identity not yet recorded
    | Bound(inode: nat, identity: nat)        // owns the endpoint, not listening
    | Active(inode: nat, identity: nat)       // owns the endpoint, listening
    | SocketClosed(identity: nat)             // dropping: socket closed
    | Matched(identity: nat)                  // dropping: the entry is its own
    | Releasing                               // nothing left but the lock
    | Dying(socket: Option<Socket>, lock: bool)  // crashed, descriptors closed in any order

  datatype System = System(entry: Option<Entry>, lock: Option<nat>, processes: map<nat, Process>)

  function At(s: System, p: nat): (x: Process) {
    if p in s.processes then s.processes[p] else Idle
  }

  predicate HoldsLock(x: Process) {
    match x case Idle => false case Dying(_, lock) => lock case _ => true
  }

  function SocketOf(x: Process): (k: Option<Socket>) {
    match x
    case Unverified(i) => Some(Socket(i, false))
    case Bound(i, _) => Some(Socket(i, false))
    case Active(i, _) => Some(Socket(i, true))
    case Dying(k, _) => k
    case _ => None
  }

  /** Some open socket listens at this inode, so a connection to it is not refused. */
  ghost predicate ListeningAt(s: System, inode: nat) {
    exists p :: SocketOf(At(s, p)) == Some(Socket(inode, true))
  }

  ghost predicate OpenAt(s: System, inode: nat) {
    exists p :: SocketOf(At(s, p)).Some? && SocketOf(At(s, p)).value.inode == inode
  }

  datatype Label =
    | Acquire(p: nat)
    | StatNone(p: nat) | StatSocket(p: nat) | StatUnsafe(p: nat)
    | ProbeRefused(p: nat) | ProbePreserve(p: nat)
    | RecheckSame(p: nat) | RecheckOther(p: nat)
    | Unlink(p: nat)
    | Bind(p: nat, inode: nat)
    | Verify(p: nat) | VerifyFails(p: nat)
    | Listen(p: nat)
    | DropBegins(p: nat) | DropMatch(p: nat) | DropMiss(p: nat) | DropUnlink(p: nat)
    | Release(p: nat)
    | Fails(p: nat)              // a system call fails
    | Crash(p: nat) | CloseSocket(p: nat) | DropLock(p: nat) | Reap(p: nat)

  predicate ValidEntry(s: System) { s.entry.Some? && s.entry.value.valid }

  ghost predicate Enabled(s: System, l: Label) {
    var x := At(s, l.p);
    match l
    case Acquire(_) => x.Idle? && s.lock.None?
    case StatNone(_) => x.Locked? && s.entry.None?
    case StatSocket(_) => x.Locked? && ValidEntry(s)
    case StatUnsafe(_) => x.Locked? && s.entry.Some? && !s.entry.value.valid
    case ProbeRefused(_) => x.Looked? && s.entry.Some? && !ListeningAt(s, s.entry.value.inode)
    case ProbePreserve(_) => x.Looked?
    case RecheckSame(_) => x.Stale? && ValidEntry(s) && s.entry.value.inode == x.identity
    case RecheckOther(_) => x.Stale? && !(ValidEntry(s) && s.entry.value.inode == x.identity)
    case Unlink(_) => x.Rechecked? && s.entry.Some?
    case Bind(_, inode) => x.Clear? && s.entry.None? && !OpenAt(s, inode)
    case Verify(_) => x.Unverified? && ValidEntry(s)
    case VerifyFails(_) => x.Unverified?
    case Listen(_) => x.Bound?
    case DropBegins(_) => x.Bound? || x.Active?
    case DropMatch(_) => x.SocketClosed? && ValidEntry(s) && s.entry.value.inode == x.identity
    case DropMiss(_) => x.SocketClosed? && !(ValidEntry(s) && s.entry.value.inode == x.identity)
    case DropUnlink(_) => x.Matched? && s.entry.Some?
    case Release(_) => x.Releasing?
    case Fails(_) => x.Locked? || x.Looked? || x.Stale? || x.Rechecked? || x.Clear? || x.SocketClosed? || x.Matched?
    case Crash(_) => !x.Idle? && !x.Dying?
    case CloseSocket(_) => x.Dying? && x.socket.Some?
    case DropLock(_) => x.Dying? && x.lock
    case Reap(_) => x.Dying? && x.socket.None? && !x.lock
  }

  /** What the labelled process does next. */
  function Moved(s: System, l: Label): (x: Process) {
    var x := At(s, l.p);
    match l
    case Acquire(_) => Locked
    case StatNone(_) => Clear
    case StatSocket(_) => Looked(if s.entry.Some? then s.entry.value.inode else 0)
    case ProbeRefused(_) => Stale(if x.Looked? then x.identity else 0)
    case RecheckSame(_) => Rechecked(if x.Stale? then x.identity else 0)
    case Unlink(_) => Clear
    case Bind(_, inode) => Unverified(inode)
    case Verify(_) => Bound(if x.Unverified? then x.inode else 0, if s.entry.Some? then s.entry.value.inode else 0)
    case Listen(_) => if x.Bound? then Active(x.inode, x.identity) else x
    case DropBegins(_) => SocketClosed(if x.Bound? || x.Active? then x.identity else 0)
    case DropMatch(_) => Matched(if x.SocketClosed? then x.identity else 0)
    case Release(_) => Idle
    case Crash(_) => Dying(SocketOf(x), HoldsLock(x))
    case CloseSocket(_) => if x.Dying? then x.(socket := None) else x
    case DropLock(_) => if x.Dying? then x.(lock := false) else x
    case Reap(_) => Idle
    case _ => Releasing
  }

  function Next(s: System, l: Label): (s': System) {
    System(if l.Unlink? || l.DropUnlink? then None else if l.Bind? then Some(Entry(l.inode, true)) else s.entry,
           if l.Acquire? then Some(l.p) else if l.Release? || l.DropLock? then None else s.lock,
           s.processes[l.p := Moved(s, l)])
  }

  function Run(s: System, ls: seq<Label>): (s': System) {
    if ls == [] then s else Next(Run(s, ls[..|ls| - 1]), ls[|ls| - 1])
  }

  ghost predicate LegalRun(s: System, ls: seq<Label>) {
    ls == [] || (LegalRun(s, ls[..|ls| - 1]) && Enabled(Run(s, ls[..|ls| - 1]), ls[|ls| - 1]))
  }

  /** Nobody runs yet; the directory may hold anything. */
  predicate Initial(s: System) {
    s.lock.None? && s.processes == map[]
  }

  // ---- what every reachable system keeps ----------------------------------------------------

  /** What a process knows of the entry is true, because only the lock's holder changes it. */
  predicate Knows(s: System, x: Process) {
    match x
    case Looked(i) => s.entry == Some(Entry(i, true))
    case Stale(i) => s.entry == Some(Entry(i, true))
    case Rechecked(i) => s.entry == Some(Entry(i, true))
    case Clear => s.entry.None?
    case Unverified(i) => s.entry == Some(Entry(i, true))
    case Bound(i, j) => j == i && s.entry == Some(Entry(i, true))
    case Active(i, j) => j == i && s.entry == Some(Entry(i, true))
    case SocketClosed(i) => s.entry == Some(Entry(i, true))
    case Matched(i) => s.entry == Some(Entry(i, true))
    case _ => true
  }

  predicate ProcessOk(s: System, p: nat) {
    (HoldsLock(At(s, p)) <==> s.lock == Some(p)) && Knows(s, At(s, p))
  }

  ghost predicate Inv(s: System) {
    forall p :: ProcessOk(s, p)
  }

  lemma StepKeeps(s: System, l: Label)
    requires Inv(s) && Enabled(s, l)
    ensures Inv(Next(s, l))
  {
    var s' := Next(s, l);
    assert ProcessOk(s, l.p);
    forall q ensures ProcessOk(s', q) {
      assert ProcessOk(s, q);
      if q != l.p {
        assert At(s', q) == At(s, q);
        assert s'.entry != s.entry ==> HoldsLock(At(s, l.p));
      }
    }
  }

  lemma {:induction false} RunKeeps(s: System, ls: seq<Label>)
    requires Initial(s) && LegalRun(s, ls)
    ensures Inv(Run(s, ls))
  {
    if ls == [] {
      forall p ensures ProcessOk(s, p) {}
    } else {
      RunKeeps(s, ls[..|ls| - 1]);
      StepKeeps(Run(s, ls[..|ls| - 1]), ls[|ls| - 1]);
    }
  }

  /** The inode a process is about to remove as stale, or holds as its own. */
  function Claimed(x: Process): (i: Option<nat>) {
    match x
    case Stale(i) => Some(i)
    case Rechecked(i) => Some(i)
    case Unverified(i) => Some(i)
    case Bound(i, _) => Some(i)
    case Active(i, _) => Some(i)
    case SocketClosed(i) => Some(i)
    case Matched(i) => Some(i)
    case _ => None
  }

  /** Nobody else listens at an inode found stale, and nobody else has an owned one open at all. */
  predicate ApartOk(s: System, p: nat, q: nat) {
    var x, k := At(s, p), SocketOf(At(s, q));
    q != p && Claimed(x).Some? && k.Some? && k.value.inode == Claimed(x).value ==>
      (x.Stale? || x.Rechecked?) && !k.value.listening
  }

  ghost predicate Apart(s: System) {
    forall p, q :: ApartOk(s, p, q)
  }

  /** The step of the process itself. */
  lemma ApartOwn(s: System, l: Label, q: nat)
    requires Inv(s) && Apart(s) && Enabled(s, l)
    ensures ApartOk(Next(s, l), l.p, q)
  {
    assert ProcessOk(s, l.p) && ApartOk(s, l.p, q);
    if q != l.p {
      assert At(Next(s, l), q) == At(s, q);
      if l.ProbeRefused? {
        assert SocketOf(At(s, q)) != Some(Socket(s.entry.value.inode, true));
      }
    }
  }

  /** A step of another process opens nothing, because it does not hold the lock. */
  lemma ApartOther(s: System, l: Label, p: nat)
    requires Inv(s) && Apart(s) && Enabled(s, l) && p != l.p
    ensures ApartOk(Next(s, l), p, l.p)
  {
    assert ProcessOk(s, l.p) && ProcessOk(s, p) && ApartOk(s, p, l.p);
    assert At(Next(s, l), p) == At(s, p);
  }

  lemma ApartKeeps(s: System, l: Label)
    requires Inv(s) && Apart(s) && Enabled(s, l)
    ensures Apart(Next(s, l))
  {
    forall p, q ensures ApartOk(Next(s, l), p, q) {
      if p == l.p {
        ApartOwn(s, l, q);
      } else if q == l.p {
        ApartOther(s, l, p);
      } else {
        assert ApartOk(s, p, q);
        assert At(Next(s, l), p) == At(s, p) && At(Next(s, l), q) == At(s, q);
      }
    }
  }

  lemma {:induction false} RunFromKeeps(s: System, ls: seq<Label>)
    requires Inv(s) && Apart(s) && LegalRun(s, ls)
    ensures Inv(Run(s, ls)) && Apart(Run(s, ls))
  {
    if ls != [] {
      var t := Run(s, ls[..|ls| - 1]);
      RunFromKeeps(s, ls[..|ls| - 1]);
      StepKeeps(t, ls[|ls| - 1]);
      ApartKeeps(t, ls[|ls| - 1]);
    }
  }

  lemma ReachableApart(s: System, ls: seq<Label>)
    requires Initial(s) && LegalRun(s, ls)
    ensures Inv(Run(s, ls)) && Apart(Run(s, ls))
  {
    RunKeeps(s, []);
    assert forall p :: At(s, p) == Idle;
    RunFromKeeps(s, ls);
  }

  // ---- safety ----------------------------------------------------------------------------------

  /** A process that has bound the endpoint and not given it up. */
  predicate Owns(x: Process) {
    x.Unverified? || x.Bound? || x.Active? || x.SocketClosed? || x.Matched?
  }

  /** At every moment of every interleaving at most one process owns the endpoint, its socket is the
      one the entry names, and nobody else is anywhere between taking and releasing the lock. */
  lemma AtMostOneOwner(s: System, ls: seq<Label>, p: nat)
    requires Initial(s) && LegalRun(s, ls) && Owns(At(Run(s, ls), p))
    ensures forall q :: q != p ==> At(Run(s, ls), q).Idle? || At(Run(s, ls), q).Dying?
    ensures SocketOf(At(Run(s, ls), p)).Some? ==>
              Run(s, ls).entry == Some(Entry(SocketOf(At(Run(s, ls), p)).value.inode, true))
  {
    RunKeeps(s, ls);
    var t := Run(s, ls);
    assert ProcessOk(t, p);
    forall q | q != p ensures At(t, q).Idle? || At(t, q).Dying? {
      assert ProcessOk(t, q);
    }
  }

  /** An unlink of one's own entry never removes one whose socket is still open; an unlink of a stale
      one can do so only for a crashed process that was never listening, and never for one that runs. */
  lemma UnlinkIsSafe(s: System, ls: seq<Label>, l: Label, q: nat)
    requires Initial(s) && LegalRun(s, ls) && Enabled(Run(s, ls), l) && (l.Unlink? || l.DropUnlink?)
    ensures var t := Run(s, ls);
            && t.entry.Some?
            && (SocketOf(At(t, q)).Some? ==> At(t, q).Dying?)
            && (SocketOf(At(t, q)).Some? && SocketOf(At(t, q)).value.inode == t.entry.value.inode ==>
                  l.Unlink? && At(t, q).Dying? && !SocketOf(At(t, q)).value.listening)
  {
    ReachableApart(s, ls);
    var t := Run(s, ls);
    assert ProcessOk(t, l.p) && ProcessOk(t, q) && ApartOk(t, l.p, q);
  }

  /** The probe alone would not do: it takes a bound endpoint that does not listen yet for stale.
      What protects that endpoint is that no other process can be probing. */
  lemma BoundLooksStale(s: System, ls: seq<Label>, p: nat)
    requires Initial(s) && LegalRun(s, ls) && At(Run(s, ls), p).Bound?
    ensures Run(s, ls).entry.Some? && !ListeningAt(Run(s, ls), Run(s, ls).entry.value.inode)
    ensures forall q :: !Enabled(Run(s, ls), ProbeRefused(q)) && !Enabled(Run(s, ls), Acquire(q))
  {
    AtMostOneOwner(s, ls, p);
    ReachableApart(s, ls);
    var t := Run(s, ls);
    assert ProcessOk(t, p);
    forall q ensures SocketOf(At(t, q)) != Some(Socket(t.entry.value.inode, true)) {
      assert ApartOk(t, p, q);
    }
  }

  /** While dropping, the entry is always found to be one's own: only a failing system call or a
      crash can leave it behind. */
  lemma DropFindsItsEntry(s: System, ls: seq<Label>, p: nat)
    requires Initial(s) && LegalRun(s, ls)
    ensures !Enabled(Run(s, ls), DropMiss(p))
    ensures At(Run(s, ls), p).Matched? ==>
              Enabled(Run(s, ls), DropUnlink(p)) && Next(Run(s, ls), DropUnlink(p)).entry.None?
  {
    RunKeeps(s, ls);
    assert ProcessOk(Run(s, ls), p);
  }

  // ---- recovery -----------------------------------------------------------------------------------

  /** Nothing is in the way, or only a socket of ours that nobody listens on. */
  ghost predicate Reclaimable(s: System) {
    s.entry.None? || (s.entry.value.valid && !ListeningAt(s, s.entry.value.inode))
  }

  lemma RunPush(s: System, ls: seq<Label>, l: Label)
    requires LegalRun(s, ls) && Enabled(Run(s, ls), l)
    ensures LegalRun(s, ls + [l]) && Run(s, ls + [l]) == Next(Run(s, ls), l)
  {
    assert (ls + [l])[..|ls|] == ls;
  }

  /** A step that opens and closes nothing leaves every listener where it is. */
  lemma ListeningFrame(s: System, l: Label, inode: nat)
    requires SocketOf(Moved(s, l)) == SocketOf(At(s, l.p))
    ensures ListeningAt(Next(s, l), inode) <==> ListeningAt(s, inode)
    ensures OpenAt(Next(s, l), inode) <==> OpenAt(s, inode)
  {
    var s' := Next(s, l);
    assert forall q :: SocketOf(At(s', q)) == SocketOf(At(s, q));
  }

  /** A process that is kept out: it has got no further than looking. */
  predicate KeptOut(x: Process) {
    x.Idle? || x.Locked? || x.Looked? || x.Releasing? || (x.Dying? && x.socket.None?)
  }

  lemma KeptOutStep(s: System, l: Label)
    requires Inv(s) && Enabled(s, l) && !Reclaimable(s) && KeptOut(At(s, l.p))
    ensures KeptOut(At(Next(s, l), l.p)) && !Reclaimable(Next(s, l)) && Next(s, l).entry == s.entry
  {
    assert ProcessOk(s, l.p);
    ListeningFrame(s, l, s.entry.value.inode);
  }

  /** An entry that is not a socket of ours, or that somebody listens on, is never taken: whatever a
      process does on its own, the entry stays and it owns nothing. */
  lemma {:induction false} NotReclaimed(s: System, p: nat, ls: seq<Label>)
    requires Inv(s) && At(s, p).Idle? && !Reclaimable(s)
    requires LegalRun(s, ls) && forall k :: 0 <= k < |ls| ==> ls[k].p == p
    ensures Inv(Run(s, ls)) && KeptOut(At(Run(s, ls), p)) && !Reclaimable(Run(s, ls)) && Run(s, ls).entry == s.entry
  {
    if ls != [] {
      var h := ls[..|ls| - 1];
      assert forall k :: 0 <= k < |h| ==> h[k] == ls[k];
      NotReclaimed(s, p, h);
      KeptOutStep(Run(s, h), ls[|h|]);
      StepKeeps(Run(s, h), ls[|h|]);
    }
  }

  /** An entry that is not a socket of ours survives every run of all processes. */
  lemma {:induction false} UnsafeEntrySurvives(s: System, ls: seq<Label>)
    requires Inv(s) && s.entry.Some? && !s.entry.value.valid && LegalRun(s, ls)
    ensures Inv(Run(s, ls)) && Run(s, ls).entry == s.entry
  {
    if ls != [] {
      var t, l := Run(s, ls[..|ls| - 1]), ls[|ls| - 1];
      UnsafeEntrySurvives(s, ls[..|ls| - 1]);
      StepKeeps(t, l);
      assert ProcessOk(t, l.p);
    }
  }

  /** No step of any process takes an entry that is not a socket of ours or that somebody listens on. */
  lemma EntryKept(s: System, l: Label)
    requires Inv(s) && Apart(s) && Enabled(s, l) && !Reclaimable(s)
    ensures Next(s, l).entry == s.entry
  {
    assert ProcessOk(s, l.p);
    if l.Unlink? || l.DropUnlink? {
      forall q ensures SocketOf(At(s, q)) != Some(Socket(s.entry.value.inode, true)) {
        assert ApartOk(s, l.p, q);
      }
    }
  }

  /** So in every interleaving it stays for as long as it is such an entry. */
  lemma {:induction false} EntrySurvives(s: System, ls: seq<Label>)
    requires Inv(s) && Apart(s) && LegalRun(s, ls)
    requires forall k :: 0 <= k < |ls| ==> !Reclaimable(Run(s, ls[..k]))
    ensures Run(s, ls).entry == s.entry
  {
    if ls != [] {
      var h := ls[..|ls| - 1];
      forall k | 0 <= k < |h| ensures !Reclaimable(Run(s, h[..k])) {
        assert h[..k] == ls[..k];
      }
      EntrySurvives(s, h);
      RunFromKeeps(s, h);
      EntryKept(Run(s, h), ls[|h|]);
    }
  }

  /** With the lock free, a leftover socket of ours can be reclaimed exactly when no crashed process
      still listens on it. */
  lemma LeftoverIsReclaimable(s: System, ls: seq<Label>)
    requires Initial(s) && LegalRun(s, ls) && Run(s, ls).lock.None? && ValidEntry(Run(s, ls))
    ensures var t := Run(s, ls);
            Reclaimable(t) <==> forall q :: At(t, q).Dying? ==> At(t, q).socket != Some(Socket(t.entry.value.inode, true))
  {
    RunKeeps(s, ls);
    var t := Run(s, ls);
    forall q | SocketOf(At(t, q)).Some? ensures At(t, q).Dying? {
      assert ProcessOk(t, q);
    }
  }

  // ---- an attempt among other processes ------------------------------------------------------------

  /** The recheck always finds the entry that was looked at. */
  lemma RecheckNeverFails(s: System, ls: seq<Label>, p: nat)
    requires Initial(s) && LegalRun(s, ls)
    ensures !Enabled(Run(s, ls), RecheckOther(p))
  {
    RunKeeps(s, ls);
    assert ProcessOk(Run(s, ls), p);
  }

  /** A system call of an attempt that returns without an error. */
  predicate Smooth(l: Label) {
    l.StatNone? || l.StatSocket? || l.ProbeRefused? || l.RecheckSame? || l.Unlink? || l.Bind? || l.Verify?
  }

  /** The process holds the lock and nothing stands between it and the endpoint. */
  ghost predicate OnTheWay(s: System, p: nat) {
    var x := At(s, p);
    && (x.Locked? || x.Looked? || x.Stale? || x.Rechecked? || x.Clear? || x.Unverified? || x.Bound?)
    && (x.Locked? || x.Looked? ==> Reclaimable(s))
  }

  /** How many calls of its own the process is away from owning the endpoint. */
  function CallsLeft(s: System, p: nat): (n: nat) {
    match At(s, p)
    case Locked => if s.entry.None? then 3 else 6
    case Looked(_) => 5
    case Stale(_) => 4
    case Rechecked(_) => 3
    case Clear => 2
    case Unverified(_) => 1
    case _ => 0
  }

  /** What others do meanwhile, crashes included, takes nothing away. */
  lemma OthersDoNotMatter(s: System, p: nat, l: Label)
    requires Inv(s) && OnTheWay(s, p) && Enabled(s, l) && l.p != p
    ensures OnTheWay(Next(s, l), p) && At(Next(s, l), p) == At(s, p) && CallsLeft(Next(s, l), p) == CallsLeft(s, p)
  {
    var s' := Next(s, l);
    assert ProcessOk(s, p) && ProcessOk(s, l.p);
    assert s'.entry == s.entry;
    forall q, i | SocketOf(At(s', q)) == Some(Socket(i, true)) ensures SocketOf(At(s, q)) == Some(Socket(i, true)) {
      assert q != l.p ==> At(s', q) == At(s, q);
    }
  }

  /** Each call of its own brings it one closer. */
  lemma OwnCallAdvances(s: System, p: nat, l: Label)
    requires Inv(s) && OnTheWay(s, p) && Enabled(s, l) && l.p == p && Smooth(l)
    ensures OnTheWay(Next(s, l), p) && CallsLeft(Next(s, l), p) == CallsLeft(s, p) - 1
  {
    assert ProcessOk(s, p);
    if l.StatSocket? {
      ListeningFrame(s, l, s.entry.value.inode);
    }
  }

  /** The call it makes next. */
  function NextCall(s: System, p: nat, inode: nat): (l: Label)
    ensures l.p == p && Smooth(l)
  {
    match At(s, p)
    case Locked => if s.entry.None? then StatNone(p) else StatSocket(p)
    case Looked(_) => ProbeRefused(p)
    case Stale(_) => RecheckSame(p)
    case Rechecked(_) => Unlink(p)
    case Clear => Bind(p, inode)
    case _ => Verify(p)
  }

  /** That call is always possible: nobody can block the way. */
  lemma NeverBlocked(s: System, p: nat, inode: nat)
    requires Inv(s) && OnTheWay(s, p) && CallsLeft(s, p) > 0 && !OpenAt(s, inode)
    ensures Enabled(s, NextCall(s, p, inode))
  {
    assert ProcessOk(s, p);
  }

  function Own(ls: seq<Label>, p: nat): (n: nat) {
    if ls == [] then 0 else Own(ls[..|ls| - 1], p) + if ls[|ls| - 1].p == p then 1 else 0
  }

  /** From the lock on, in every interleaving in which its own calls meet no error, a process that
      found a reclaimable entry stays on the way, each of its calls counts, and once the count is
      spent it owns the endpoint. */
  lemma {:induction false} RecoversAmongOthers(s: System, p: nat, ls: seq<Label>)
    requires Inv(s) && At(s, p).Locked? && Reclaimable(s) && LegalRun(s, ls)
    requires forall k :: 0 <= k < |ls| && ls[k].p == p ==> Smooth(ls[k])
    ensures var t := Run(s, ls);
            && Inv(t) && OnTheWay(t, p) && CallsLeft(t, p) + Own(ls, p) == CallsLeft(s, p)
            && (CallsLeft(t, p) == 0 ==> At(t, p).Bound? && t.entry == Some(Entry(At(t, p).inode, true)) && t.lock == Some(p))
  {
    if ls != [] {
      var h, l := ls[..|ls| - 1], ls[|ls| - 1];
      assert forall k :: 0 <= k < |h| ==> h[k] == ls[k];
      RecoversAmongOthers(s, p, h);
      StepKeeps(Run(s, h), l);
      if l.p == p {
        OwnCallAdvances(Run(s, h), p, l);
      } else {
        OthersDoNotMatter(Run(s, h), p, l);
      }
    }
    assert ProcessOk(Run(s, ls), p);
  }

  // ---- an attempt alone ------------------------------------------------------------------------------

  /** The calls of an attempt that meets no error. */
  function Attempt(s: System, p: nat): (ls: seq<Label>) {
    if s.entry.None? then [] + [Acquire(p)] + [StatNone(p)]
    else [] + [Acquire(p)] + [StatSocket(p)] + [ProbeRefused(p)] + [RecheckSame(p)] + [Unlink(p)]
  }

  /** From a socket nobody listens on, once the lock is held. */
  lemma ReclaimsSocket(s: System, ls: seq<Label>, p: nat, inode: nat)
    requires LegalRun(s, ls) && At(Run(s, ls), p).Locked? && ValidEntry(Run(s, ls)) && Reclaimable(Run(s, ls))
    requires !OpenAt(Run(s, ls), inode)
    ensures var after := ls + [StatSocket(p)] + [ProbeRefused(p)] + [RecheckSame(p)] + [Unlink(p)];
            var t := Run(s, after);
            && LegalRun(s, after) && !OpenAt(t, inode) && At(t, p) == Clear && t.entry.None? && t.lock == Run(s, ls).lock
  {
    var s1 := Run(s, ls);
    ListeningFrame(s1, StatSocket(p), s1.entry.value.inode);
    ListeningFrame(s1, StatSocket(p), inode);
    RunPush(s, ls, StatSocket(p));
    var l2, s2 := ls + [StatSocket(p)], Next(s1, StatSocket(p));
    ListeningFrame(s2, ProbeRefused(p), inode);
    RunPush(s, l2, ProbeRefused(p));
    var l3, s3 := l2 + [ProbeRefused(p)], Next(s2, ProbeRefused(p));
    ListeningFrame(s3, RecheckSame(p), inode);
    RunPush(s, l3, RecheckSame(p));
    var l4, s4 := l3 + [RecheckSame(p)], Next(s3, RecheckSame(p));
    ListeningFrame(s4, Unlink(p), inode);
    RunPush(s, l4, Unlink(p));
  }

  lemma AttemptClears(s: System, p: nat, inode: nat)
    requires s.lock.None? && At(s, p).Idle? && Reclaimable(s) && !OpenAt(s, inode)
    ensures var s' := Run(s, Attempt(s, p));
            && LegalRun(s, Attempt(s, p)) && !OpenAt(s', inode)
            && At(s', p) == Clear && s'.entry.None? && s'.lock == Some(p)
  {
    var l1, s1 := [] + [Acquire(p)], Next(s, Acquire(p));
    RunPush(s, [], Acquire(p));
    ListeningFrame(s, Acquire(p), inode);
    if s.entry.None? {
      RunPush(s, l1, StatNone(p));
      ListeningFrame(s1, StatNone(p), inode);
    } else {
      ListeningFrame(s, Acquire(p), s.entry.value.inode);
      ReclaimsSocket(s, l1, p, inode);
    }
  }

  lemma {:induction false} RunAppend(s: System, a: seq<Label>, b: seq<Label>)
    requires LegalRun(s, a) && LegalRun(Run(s, a), b)
    ensures LegalRun(s, a + b) && Run(s, a + b) == Run(Run(s, a), b)
  {
    if b == [] {
      assert a + b == a;
    } else {
      var k := |b| - 1;
      RunAppend(s, a, b[..k]);
      assert (a + b)[..|a + b| - 1] == a + b[..k] && (a + b)[|a + b| - 1] == b[k];
    }
  }

  lemma {:induction false} OthersStay(s: System, p: nat, q: nat, ls: seq<Label>)
    requires p != q && forall k :: 0 <= k < |ls| ==> ls[k].p == p
    ensures At(Run(s, ls), q) == At(s, q)
  {
    if ls != [] {
      OthersStay(s, p, q, ls[..|ls| - 1]);
    }
  }

  /** What a process leaves that crashes between bind and listen and loses its lock descriptor first. */
  predicate Crashed(t: System) {
    && t.lock.None? && t.entry == Some(Entry(7, true)) && At(t, 0) == Dying(Some(Socket(7, false)), false)
    && t.processes.Keys == {0}
  }

  lemma CrashesBound(s: System, ls: seq<Label>)
    requires LegalRun(s, ls) && Run(s, ls).processes.Keys == {0} && At(Run(s, ls), 0) == Unverified(7)
    requires Run(s, ls).entry == Some(Entry(7, true))
    ensures LegalRun(s, ls + [Crash(0)] + [DropLock(0)]) && Crashed(Run(s, ls + [Crash(0)] + [DropLock(0)]))
  {
    RunPush(s, ls, Crash(0));
    RunPush(s, ls + [Crash(0)], DropLock(0));
  }

  lemma CrashesUnlistened(s: System) returns (ls: seq<Label>)
    requires Initial(s) && s.entry.None?
    ensures LegalRun(s, ls) && Crashed(Run(s, ls))
  {
    RunPush(s, [], Acquire(0));
    RunPush(s, [] + [Acquire(0)], StatNone(0));
    var l2 := [] + [Acquire(0)] + [StatNone(0)];
    RunPush(s, l2, Bind(0, 7));
    CrashesBound(s, l2 + [Bind(0, 7)]);
    ls := l2 + [Bind(0, 7)] + [Crash(0)] + [DropLock(0)];
  }

  lemma RemovesCrashed(t: System)
    requires Crashed(t)
    ensures LegalRun(t, Attempt(t, 1)) && Run(t, Attempt(t, 1)).entry.None?
    ensures SocketOf(At(Run(t, Attempt(t, 1)), 0)) == Some(Socket(7, false))
  {
    forall q ensures SocketOf(At(t, q)).Some? ==> SocketOf(At(t, q)) == Some(Socket(7, false)) {}
    AttemptClears(t, 1, 8);
    OthersStay(t, 1, 0, Attempt(t, 1));
  }

  /** The case `UnlinkIsSafe` leaves is real: after Acquire, StatNone, Bind, Crash and DropLock of one
      process, the attempt of another removes the entry while the socket is still open. */
  lemma CrashedUnlistened(s: System) returns (ls: seq<Label>)
    requires Initial(s) && s.entry.None?
    ensures LegalRun(s, ls) && Run(s, ls).entry == Some(Entry(7, true))
    ensures var more := Attempt(Run(s, ls), 1);
            && more[|more| - 1].Unlink? && LegalRun(s, ls + more) && Run(s, ls + more).entry.None?
            && SocketOf(At(Run(s, ls + more), 0)) == Some(Socket(7, false))
  {
    ls := CrashesUnlistened(s);
    RemovesCrashed(Run(s, ls));
    RunAppend(s, ls, Attempt(Run(s, ls), 1));
  }

  /** In particular, left alone with the lock free, a process gets the endpoint exactly when the entry
      is reclaimable: it binds and the entry becomes its own, or, by `NotReclaimed`, it never does. */
  lemma Recovers(s: System, p: nat, inode: nat)
    requires s.lock.None? && At(s, p).Idle? && Reclaimable(s) && !OpenAt(s, inode)
    ensures var ls := Attempt(s, p) + [Bind(p, inode)] + [Verify(p)];
            && LegalRun(s, ls) && At(Run(s, ls), p) == Bound(inode, inode)
            && Run(s, ls).entry == Some(Entry(inode, true)) && Run(s, ls).lock == Some(p)
  {
    AttemptClears(s, p, inode);
    var ls := Attempt(s, p);
    RunPush(s, ls, Bind(p, inode));
    RunPush(s, ls + [Bind(p, inode)], Verify(p));
  }
}

/** The owner's side of the protocol, one system call after the other. Each operation is proved to
    be a run of `Endpoint`, so all that holds of interleaved runs holds of it. */
module EndpointOwner {
  import opened Optional
  import opened Endpoint

  datatype ConnectResult = Connected | Refused | WouldBlock | InProgress | ConnectError
  datatype PollCompletion = Timeout | PollFailure | ReadyFine | ReadyRefused | ReadyError | LookupFailed
  datatype ProbeDecision = StaleEntry | Poll | Preserve

  function ClassifyInitialProbe(r: ConnectResult): (d: ProbeDecision) {
    match r
    case Refused => StaleEntry
    case WouldBlock => Poll
    case InProgress => Poll
    case _ => Preserve
  }

  function ClassifyPollCompletion(c: PollCompletion): (d: ProbeDecision) {
    if c == ReadyRefused then StaleEntry else Preserve
  }

  /** Stale only on an explicit refusal; every doubt preserves the entry. */
  function Probe(r: ConnectResult, c: PollCompletion): (d: ProbeDecision)
    ensures d == StaleEntry <==> r == Refused || (r in {WouldBlock, InProgress} && c == ReadyRefused)
    ensures d != Poll
  {
    var d := ClassifyInitialProbe(r);
    if d == Poll then ClassifyPollCompletion(c) else d
  }

  datatype PathError = EndpointInUse | UnsafeSocketEntry | SystemError

  /** How the system calls of one attempt answer. */
  datatype Calls = Calls(
    lockOk: bool, statOk: bool, connect: ConnectResult, poll: PollCompletion, recheckOk: bool, unlinkOk: bool,
    socketOk: bool, bindOk: bool, inode: nat, postStatOk: bool, checksOk: bool, dropStatOk: bool, dropUnlinkOk: bool)

  class Host {
    var entry: Option<Entry>
    var lock: Option<nat>
    var processes: map<nat, Process>

    ghost function View(): (s: System)
      reads this
    {
      System(entry, lock, processes)
    }

    /** One system call of one process; `done` are the ones made since `start`. */
    method Do(l: Label, ghost start: System, ghost done: seq<Label>)
      requires Inv(View()) && Enabled(View(), l) && LegalRun(start, done) && Run(start, done) == View()
      modifies this
      ensures View() == Next(old(View()), l) && Inv(View())
      ensures At(View(), l.p) == Moved(old(View()), l) && Knows(View(), At(View(), l.p))
      ensures forall q :: q != l.p ==> At(View(), q) == old(At(View(), q))
      ensures LegalRun(start, done + [l]) && Run(start, done + [l]) == View()
    {
      RunPush(start, done, l);
      StepKeeps(View(), l);
      var moved := Moved(System(entry, lock, processes), l);
      if l.Unlink? || l.DropUnlink? {
        entry := None;
      } else if l.Bind? {
        entry := Some(Entry(l.inode, true));
      }
      if l.Acquire? {
        lock := Some(l.p);
      } else if l.Release? || l.DropLock? {
        lock := None;
      }
      processes := processes[l.p := moved];
      assert ProcessOk(View(), l.p);
    }

    /** Gives up before anything was bound: the entry is as found. */
    method GiveUp(p: nat, why: Label, ghost start: System, ghost done: seq<Label>) returns (ghost ls: seq<Label>)
      requires Inv(View()) && LegalRun(start, done) && Run(start, done) == View()
      requires why.p == p && Enabled(View(), why) && Moved(View(), why) == Releasing
      requires !why.Unlink? && !why.DropUnlink? && !why.Bind? && !why.Acquire? && !why.Release? && !why.DropLock?
      modifies this
      ensures LegalRun(start, ls) && Run(start, ls) == View() && Inv(View())
      ensures entry == old(entry) && lock == None && At(View(), p) == Idle
      ensures forall q :: q != p ==> At(View(), q) == old(At(View(), q))
    {
      Do(why, start, done);
      Do(Release(p), start, done + [why]);
      ls := done + [why] + [Release(p)];
    }

    /** Removes a stale entry, or finds none. On failure the lock is gone too. */
    method ReclaimStaleEntry(p: nat, calls: Calls, ghost start: System, ghost done: seq<Label>)
      returns (error: Option<PathError>, ghost ls: seq<Label>)
      requires Inv(View()) && At(View(), p) == Locked && LegalRun(start, done) && Run(start, done) == View()
      requires entry.Some? && Probe(calls.connect, calls.poll) == StaleEntry ==> !ListeningAt(View(), entry.value.inode)
      modifies this
      ensures LegalRun(start, ls) && Run(start, ls) == View() && Inv(View())
      ensures forall q :: q != p ==> At(View(), q) == old(At(View(), q))
      ensures error.None? <==>
                calls.statOk &&
                (old(entry).None? ||
                 (old(entry).value.valid && Probe(calls.connect, calls.poll) == StaleEntry && calls.recheckOk && calls.unlinkOk))
      ensures error == Some(UnsafeSocketEntry) <==> calls.statOk && old(entry).Some? && !old(entry).value.valid
      ensures error == Some(EndpointInUse) <==>
                calls.statOk && old(entry).Some? && old(entry).value.valid && Probe(calls.connect, calls.poll) != StaleEntry
      ensures error.None? ==> At(View(), p) == Clear && entry.None? && lock == old(lock)
      ensures error.Some? ==> At(View(), p) == Idle && entry == old(entry) && lock == None
    {
      if !calls.statOk {
        ls := GiveUp(p, Fails(p), start, done);
        return Some(SystemError), ls;
      }
      if entry.None? {
        Do(StatNone(p), start, done);
        return None, done + [StatNone(p)];
      }
      if !entry.value.valid {
        ls := GiveUp(p, StatUnsafe(p), start, done);
        return Some(UnsafeSocketEntry), ls;
      }
      error, ls := ReclaimSocket(p, calls, start, done);
    }

    method ReclaimSocket(p: nat, calls: Calls, ghost start: System, ghost done: seq<Label>)
      returns (error: Option<PathError>, ghost ls: seq<Label>)
      requires Inv(View()) && At(View(), p) == Locked && LegalRun(start, done) && Run(start, done) == View()
      requires entry.Some? && entry.value.valid
      requires Probe(calls.connect, calls.poll) == StaleEntry ==> !ListeningAt(View(), entry.value.inode)
      modifies this
      ensures LegalRun(start, ls) && Run(start, ls) == View() && Inv(View())
      ensures forall q :: q != p ==> At(View(), q) == old(At(View(), q))
      ensures error.None? <==> Probe(calls.connect, calls.poll) == StaleEntry && calls.recheckOk && calls.unlinkOk
      ensures error == Some(EndpointInUse) <==> Probe(calls.connect, calls.poll) != StaleEntry
      ensures error != Some(UnsafeSocketEntry)
      ensures error.None? ==> At(View(), p) == Clear && entry.None? && lock == old(lock)
      ensures error.Some? ==> At(View(), p) == Idle && entry == old(entry) && lock == None
    {
      Do(StatSocket(p), start, done);
      ListeningFrame(old(View()), StatSocket(p), entry.value.inode);
      error, ls := RemoveStale(p, calls, start, done + [StatSocket(p)]);
    }

    method RemoveStale(p: nat, calls: Calls, ghost start: System, ghost done: seq<Label>)
      returns (error: Option<PathError>, ghost ls: seq<Label>)
      requires Inv(View()) && At(View(), p).Looked? && LegalRun(start, done) && Run(start, done) == View()
      requires Knows(View(), At(View(), p))
      requires Probe(calls.connect, calls.poll) == StaleEntry ==> !ListeningAt(View(), entry.value.inode)
      modifies this
      ensures LegalRun(start, ls) && Run(start, ls) == View() && Inv(View())
      ensures forall q :: q != p ==> At(View(), q) == old(At(View(), q))
      ensures error.None? <==> Probe(calls.connect, calls.poll) == StaleEntry && calls.recheckOk && calls.unlinkOk
      ensures error == Some(EndpointInUse) <==> Probe(calls.connect, calls.poll) != StaleEntry
      ensures error != Some(UnsafeSocketEntry)
      ensures error.None? ==> At(View(), p) == Clear && entry.None? && lock == old(lock)
      ensures error.Some? ==> At(View(), p) == Idle && entry == old(entry) && lock == None
    {
      ls := done;
      if Probe(calls.connect, calls.poll) != StaleEntry {
        ls := GiveUp(p, ProbePreserve(p), start, ls);
        return Some(EndpointInUse), ls;
      }
      Do(ProbeRefused(p), start, ls);
      error, ls := UnlinkStale(p, calls, start, ls + [ProbeRefused(p)]);
    }

    method UnlinkStale(p: nat, calls: Calls, ghost start: System, ghost done: seq<Label>)
      returns (error: Option<PathError>, ghost ls: seq<Label>)
      requires Inv(View()) && At(View(), p).Stale? && LegalRun(start, done) && Run(start, done) == View()
      requires Knows(View(), At(View(), p))
      modifies this
      ensures LegalRun(start, ls) && Run(start, ls) == View() && Inv(View())
      ensures forall q :: q != p ==> At(View(), q) == old(At(View(), q))
      ensures error.None? <==> calls.recheckOk && calls.unlinkOk
      ensures error.Some? ==> error == Some(SystemError)
      ensures error.None? ==> At(View(), p) == Clear && entry.None? && lock == old(lock)
      ensures error.Some? ==> At(View(), p) == Idle && entry == old(entry) && lock == None
    {
      ls := done;
      if !calls.recheckOk {
        ls := GiveUp(p, Fails(p), start, ls);
        return Some(SystemError), ls;
      }
      Do(RecheckSame(p), start, ls);
      ls := ls + [RecheckSame(p)];
      if !calls.unlinkOk {
        ls := GiveUp(p, Fails(p), start, ls);
        return Some(SystemError), ls;
      }
      Do(Unlink(p), start, ls);
      return None, ls + [Unlink(p)];
    }

    /** Closes the socket, removes the entry if it is still its own, and only then lets the lock go. */
    method DropOwnership(p: nat, calls: Calls, ghost start: System, ghost done: seq<Label>) returns (ghost ls: seq<Label>)
      requires Inv(View()) && (At(View(), p).Bound? || At(View(), p).Active?)
      requires LegalRun(start, done) && Run(start, done) == View()
      modifies this
      ensures LegalRun(start, ls) && Run(start, ls) == View() && Inv(View())
      ensures At(View(), p) == Idle && lock == None
      ensures forall q :: q != p ==> At(View(), q) == old(At(View(), q))
      ensures entry == if calls.dropStatOk && calls.dropUnlinkOk then None else old(entry)
    {
      assert ProcessOk(View(), p);
      Do(DropBegins(p), start, done);
      ls := done + [DropBegins(p)];
      if !calls.dropStatOk {
        ls := GiveUp(p, Fails(p), start, ls);
        return;
      }
      Do(DropMatch(p), start, ls);
      ls := RemoveOwn(p, calls, start, ls + [DropMatch(p)]);
    }

    method RemoveOwn(p: nat, calls: Calls, ghost start: System, ghost done: seq<Label>) returns (ghost ls: seq<Label>)
      requires Inv(View()) && At(View(), p).Matched? && entry.Some?
      requires LegalRun(start, done) && Run(start, done) == View()
      modifies this
      ensures LegalRun(start, ls) && Run(start, ls) == View() && Inv(View())
      ensures At(View(), p) == Idle && lock == None
      ensures forall q :: q != p ==> At(View(), q) == old(At(View(), q))
      ensures entry == if calls.dropUnlinkOk then None else old(entry)
    {
      if !calls.dropUnlinkOk {
        ls := GiveUp(p, Fails(p), start, done);
        return;
      }
      Do(DropUnlink(p), start, done);
      Do(Release(p), start, done + [DropUnlink(p)]);
      ls := done + [DropUnlink(p)] + [Release(p)];
    }

    /** Takes the lock, clears the way, binds and checks. Succeeds exactly when the lock is free, the
        entry can be reclaimed and no call fails; a failed attempt never costs anybody the endpoint. */
    method BindUsing(p: nat, calls: Calls) returns (error: Option<PathError>, ghost ls: seq<Label>)
      requires Inv(View()) && At(View(), p) == Idle
      requires entry.Some? && Probe(calls.connect, calls.poll) == StaleEntry ==> !ListeningAt(View(), entry.value.inode)
      requires !OpenAt(View(), calls.inode)
      modifies this
      ensures LegalRun(old(View()), ls) && Run(old(View()), ls) == View() && Inv(View())
      ensures error.None? <==>
                && old(lock).None? && calls.lockOk && calls.statOk
                && (old(entry).None? ||
                    (old(entry).value.valid && Probe(calls.connect, calls.poll) == StaleEntry && calls.recheckOk && calls.unlinkOk))
                && calls.socketOk && calls.bindOk && calls.postStatOk && calls.checksOk
      ensures error == Some(EndpointInUse) <==>
                old(lock).Some? ||
                (calls.lockOk && calls.statOk && old(entry).Some? && old(entry).value.valid &&
                 Probe(calls.connect, calls.poll) != StaleEntry)
      ensures error.None? ==> At(View(), p) == Bound(calls.inode, calls.inode) && entry == Some(Entry(calls.inode, true))
      ensures error.Some? ==> At(View(), p) == Idle && lock == old(lock)
      ensures error.Some? ==> entry in {old(entry), None, Some(Entry(calls.inode, true))}
      ensures old(lock).Some? ==> View() == old(View())
    {
      ls := [];
      if lock.Some? || !calls.lockOk {
        return Some(if lock.Some? then EndpointInUse else SystemError), ls;
      }
      ghost var start := View();
      Do(Acquire(p), start, []);
      ls := [] + [Acquire(p)];
      forall i ensures ListeningAt(View(), i) == ListeningAt(start, i) && OpenAt(View(), i) == OpenAt(start, i) {
        ListeningFrame(start, Acquire(p), i);
      }
      error, ls := ReclaimStaleEntry(p, calls, start, ls);
      if error.Some? {
        return;
      }
      assert !OpenAt(View(), calls.inode) by {
        forall q ensures SocketOf(At(View(), q)) == SocketOf(At(start, q)) {}
      }
      error, ls := BindCleared(p, calls, start, ls);
    }

    method BindCleared(p: nat, calls: Calls, ghost start: System, ghost done: seq<Label>)
      returns (error: Option<PathError>, ghost ls: seq<Label>)
      requires Inv(View()) && At(View(), p) == Clear && entry.None? && !OpenAt(View(), calls.inode)
      requires LegalRun(start, done) && Run(start, done) == View()
      modifies this
      ensures LegalRun(start, ls) && Run(start, ls) == View() && Inv(View())
      ensures error.None? <==> calls.socketOk && calls.bindOk && calls.postStatOk && calls.checksOk
      ensures error == Some(UnsafeSocketEntry) <==> calls.socketOk && calls.bindOk && calls.postStatOk && !calls.checksOk
      ensures error != Some(EndpointInUse)
      ensures error.None? ==> At(View(), p) == Bound(calls.inode, calls.inode) && entry == Some(Entry(calls.inode, true))
      ensures error.Some? ==> At(View(), p) == Idle && lock == None
      ensures error.Some? ==>
                entry == if calls.socketOk && calls.bindOk && !(calls.postStatOk && calls.dropStatOk && calls.dropUnlinkOk)
                         then Some(Entry(calls.inode, true)) else None
    {
      if !calls.socketOk || !calls.bindOk {
        ls := GiveUp(p, Fails(p), start, done);
        return Some(SystemError), ls;
      }
      Do(Bind(p, calls.inode), start, done);
      ls := done + [Bind(p, calls.inode)];
      if !calls.postStatOk {
        ls := GiveUp(p, VerifyFails(p), start, ls);
        return Some(SystemError), ls;
      }
      Do(Verify(p), start, ls);
      ls := ls + [Verify(p)];
      if !calls.checksOk {
        ls := DropOwnership(p, calls, start, ls);
        return Some(UnsafeSocketEntry), ls;
      }
      error := None;
    }

    /** Starts listening; a failure drops the endpoint. */
    method ActivateUsing(p: nat, listenOk: bool, acceptingOk: bool, calls: Calls) returns (error: Option<PathError>, ghost ls: seq<Label>)
      requires Inv(View()) && At(View(), p).Bound?
      modifies this
      ensures LegalRun(old(View()), ls) && Run(old(View()), ls) == View() && Inv(View())
      ensures error.None? <==> listenOk && acceptingOk
      ensures error == Some(SystemError) <==> !listenOk
      ensures error.None? ==> At(View(), p).Active? && entry == old(entry) && entry.Some? && ListeningAt(View(), entry.value.inode)
      ensures error.Some? ==> At(View(), p) == Idle && lock == None
      ensures error.Some? ==> entry == if calls.dropStatOk && calls.dropUnlinkOk then None else old(entry)
    {
      ghost var start := View();
      if !listenOk {
        ls := DropOwnership(p, calls, start, []);
        return Some(SystemError), ls;
      }
      Do(Listen(p), start, []);
      ls := [] + [Listen(p)];
      if !acceptingOk {
        ls := DropOwnership(p, calls, start, ls);
        return Some(UnsafeSocketEntry), ls;
      }
      assert ProcessOk(View(), p);
      assert SocketOf(At(View(), p)) == Some(Socket(entry.value.inode, true));
      error := None;
    }
  }
}
