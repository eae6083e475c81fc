/** Reservation of URL-test port pairs by several processes through lock files.

    A port is reserved by holding an flock on the file named after it. The files are also unlinked,
    by their owner on release and by a sweep that runs before every reservation, and an flock on an
    unlinked file excludes nobody. One more lock file, the guard, is never unlinked; opening, locking
    and unlinking happen under its flock, except that a release which cannot take the guard only
    unlocks. Every system call is a step of its own here, steps of different callers interleave
    freely, and a process can crash between any two of them. */
module PortLocks {
  import opened Wrappers

  const PORT_MIN := 16000
  const PORT_MAX := 31999
  const PAIR_COUNT := (PORT_MAX - PORT_MIN + 1) / 2
  const MAX_ATTEMPTS := 100

  /** Go's remainder, which takes the sign of the dividend. */
  function TruncatedMod(x: int, n: int): int
    requires n > 0
  {
    if x >= 0 then x % n else -((-x) % n)
  }

  function PairIndex(start: int, attempt: nat): (index: int)
    ensures 0 <= index < PAIR_COUNT
  {
    var index := TruncatedMod(start + attempt, PAIR_COUNT);
    if index < 0 then index + PAIR_COUNT else index
  }

  /** The `k`-th port of the pair an attempt goes for: 0 for SOCKS, 1 for HTTP. */
  function PortOf(start: int, attempt: nat, k: nat): nat {
    PORT_MIN + PairIndex(start, attempt) * 2 + k
  }

  function PortsOf(start: int, attempt: nat): set<nat> {
    {PortOf(start, attempt, 0), PortOf(start, attempt, 1)}
  }

  /** One call of the reservation code; several may run in one process. */
  datatype Actor = Actor(process: nat, call: nat)

  /** An open file: the port in its path and the inode behind the descriptor. */
  datatype File = File(port: nat, inode: nat)

  /** Where a call is. */
  datatype Point =
    | Idle | Entering
    | Sweeping | SweepOpened | SweepLocked | SweepUnlinking
    | Trying | Opened | Backing | Leaving | Left
    | Live | Returning | Dropping | Closing | Forgetting

  /** A call's place and its variables: the pair index it started from and the attempt it is on, the
      paths its sweep has yet to visit, the file it opened and has not locked, the files it holds an
      flock on, the path it unlinks next, whether a failed attempt is followed by another, and the
      ports its process remembers on its behalf. */
  datatype Call = Call(
    at: Point,
    start: int,
    attempt: nat,
    todo: set<nat>,
    file: Option<File>,
    locks: seq<File>,
    unlink: Option<nat>,
    resume: bool,
    ports: set<nat>)

  const IDLE := Call(Idle, 0, 0, {}, None, [], None, false, {})

  datatype State = State(
    dir: map<nat, nat>,
    nextInode: nat,
    locked: map<nat, Actor>,
    guard: Option<Actor>,
    mutex: map<nat, Actor>,
    reserved: map<nat, set<nat>>,
    calls: map<Actor, Call>)

  function CallOf(s: State, a: Actor): Call {
    if a in s.calls then s.calls[a] else IDLE
  }

  /** The in-memory reservations of a process. */
  function ReservedBy(s: State, process: nat): set<nat> {
    if process in s.reserved then s.reserved[process] else {}
  }

  function Move(s: State, a: Actor, c: Call): State {
    s.(calls := s.calls[a := c])
  }

  function PortSet(files: seq<File>): set<nat> {
    set f | f in files :: f.port
  }

  datatype Event =
    | Begin(start: int)
    | TakeGuard(listed: bool)
    | EnterFails
    | SweepOpen(port: nat)
    | SweepSkip(port: nat)
    | SweepTryLock
    | SweepUnlock
    | SweepUnlink
    | SweepDone
    | SkipReserved
    | Open
    | OpenFails
    | TryLock
    | LockFails
    | BindSucceeds
    | BindBusy
    | BindFails
    | GiveUp
    | BackUnlock
    | BackUnlink
    | BackDone
    | LeaveGuard
    | LeaveMutex
    | Release
    | ReturnGuard
    | ReturnUnguarded
    | DropUnlock
    | DropUnlink
    | DropDone
    | CloseLock
    | CloseDone
    | Forget

  /** The pair of the current attempt is not in this process's memory. */
  predicate PairIsFree(s: State, a: Actor, c: Call) {
    PortsOf(c.start, c.attempt) !! ReservedBy(s, a.process)
  }

  predicate Enabled(s: State, a: Actor, e: Event) {
    var c := CallOf(s, a);
    match e
    case Begin(_) => c == IDLE && a.process !in s.mutex
    case TakeGuard(_) => c.at == Entering && s.guard == None
    case EnterFails => c.at == Entering
    case SweepOpen(port) => c.at == Sweeping && port in c.todo && port in s.dir
    case SweepSkip(port) => c.at == Sweeping && port in c.todo
    case SweepTryLock => c.at == SweepOpened && c.file.Some?
    case SweepUnlock => c.at == SweepLocked && c.locks != []
    case SweepUnlink => c.at == SweepUnlinking && c.unlink.Some?
    case SweepDone => c.at == Sweeping && c.todo == {}
    case SkipReserved => c.at == Trying && c.locks == [] && c.attempt < MAX_ATTEMPTS && !PairIsFree(s, a, c)
    case Open => c.at == Trying && |c.locks| < 2 && c.attempt < MAX_ATTEMPTS && PairIsFree(s, a, c)
    case OpenFails => c.at == Trying && |c.locks| < 2 && c.attempt < MAX_ATTEMPTS && PairIsFree(s, a, c)
    case TryLock => c.at == Opened && c.file.Some?
    case LockFails => c.at == Opened
    case BindSucceeds => c.at == Trying && |c.locks| == 2
    case BindBusy => c.at == Trying && |c.locks| == 2
    case BindFails => c.at == Trying && |c.locks| == 2
    case GiveUp => c.at == Trying && c.attempt == MAX_ATTEMPTS
    case BackUnlock => c.at == Backing && c.unlink == None && c.locks != []
    case BackUnlink => c.at == Backing && c.unlink != None
    case BackDone => c.at == Backing && c.unlink == None && c.locks == []
    case LeaveGuard => c.at == Leaving
    case LeaveMutex => c.at == Left
    case Release => c.at == Live
    case ReturnGuard => c.at == Returning && s.guard == None
    case ReturnUnguarded => c.at == Returning
    case DropUnlock => c.at == Dropping && c.unlink == None && c.locks != []
    case DropUnlink => c.at == Dropping && c.unlink != None
    case DropDone => c.at == Dropping && c.unlink == None && c.locks == []
    case CloseLock => c.at == Closing && c.locks != []
    case CloseDone => c.at == Closing && c.locks == []
    case Forget => c.at == Forgetting && a.process !in s.mutex
  }

  function Back(c: Call, resume: bool): Call {
    c.(at := Backing, file := None, resume := resume)
  }

  function NextAttempt(c: Call): Call {
    c.(at := Trying, attempt := c.attempt + 1)
  }

  function Apply(s: State, a: Actor, e: Event): (t: State)
    requires Enabled(s, a, e)
    ensures forall b {:trigger CallOf(t, b)} :: b != a ==> CallOf(t, b) == CallOf(s, b)
  {
    var c := CallOf(s, a);
    match e
    case Begin(start) => Move(s, a, c.(at := Entering, start := start)).(mutex := s.mutex[a.process := a])
    case TakeGuard(listed) =>
      Move(s, a, c.(at := Sweeping, todo := if listed then s.dir.Keys else {})).(guard := Some(a))
    case EnterFails => Move(s, a, IDLE).(mutex := s.mutex - {a.process})
    case SweepOpen(port) =>
      Move(s, a, c.(at := SweepOpened, todo := c.todo - {port}, file := Some(File(port, s.dir[port]))))
    case SweepSkip(port) => Move(s, a, c.(todo := c.todo - {port}))
    case SweepTryLock =>
      var file := c.file.value;
      if file.inode in s.locked then Move(s, a, c.(at := Sweeping, file := None))
      else Move(s, a, c.(at := SweepLocked, file := None, locks := [file])).(locked := s.locked[file.inode := a])
    case SweepUnlock =>
      var file := c.locks[0];
      Move(s, a, c.(at := SweepUnlinking, locks := [], unlink := Some(file.port))).(locked := s.locked - {file.inode})
    case SweepUnlink => Move(s, a, c.(at := Sweeping, unlink := None)).(dir := s.dir - {c.unlink.value})
    case SweepDone => Move(s, a, c.(at := Trying, attempt := 0))
    case SkipReserved => Move(s, a, NextAttempt(c))
    case Open =>
      var port := PortOf(c.start, c.attempt, |c.locks|);
      if port in s.dir then Move(s, a, c.(at := Opened, file := Some(File(port, s.dir[port]))))
      else Move(s, a, c.(at := Opened, file := Some(File(port, s.nextInode))))
           .(dir := s.dir[port := s.nextInode], nextInode := s.nextInode + 1)
    case OpenFails => Move(s, a, Back(c, false))
    case TryLock =>
      var file := c.file.value;
      if file.inode in s.locked then Move(s, a, Back(c, true))
      else Move(s, a, c.(at := Trying, file := None, locks := c.locks + [file])).(locked := s.locked[file.inode := a])
    case LockFails => Move(s, a, Back(c, false))
    case BindSucceeds =>
      Move(s, a, c.(at := Leaving, ports := PortsOf(c.start, c.attempt)))
      .(reserved := s.reserved[a.process := ReservedBy(s, a.process) + PortsOf(c.start, c.attempt)])
    case BindBusy => Move(s, a, Back(c, true))
    case BindFails => Move(s, a, Back(c, false))
    case GiveUp => Move(s, a, c.(at := Leaving))
    case BackUnlock =>
      var last := c.locks[|c.locks| - 1];
      Move(s, a, c.(locks := c.locks[..|c.locks| - 1], unlink := Some(last.port))).(locked := s.locked - {last.inode})
    case BackUnlink => Move(s, a, c.(unlink := None)).(dir := s.dir - {c.unlink.value})
    case BackDone => Move(s, a, if c.resume then NextAttempt(c) else c.(at := Leaving))
    case LeaveGuard => Move(s, a, c.(at := Left)).(guard := None)
    case LeaveMutex => Move(s, a, if c.locks == [] then IDLE else c.(at := Live)).(mutex := s.mutex - {a.process})
    case Release => Move(s, a, c.(at := Returning))
    case ReturnGuard => Move(s, a, c.(at := Dropping)).(guard := Some(a))
    case ReturnUnguarded => Move(s, a, c.(at := Closing))
    case DropUnlock =>
      var last := c.locks[|c.locks| - 1];
      Move(s, a, c.(locks := c.locks[..|c.locks| - 1], unlink := Some(last.port))).(locked := s.locked - {last.inode})
    case DropUnlink => Move(s, a, c.(unlink := None)).(dir := s.dir - {c.unlink.value})
    case DropDone => Move(s, a, c.(at := Forgetting)).(guard := None)
    case CloseLock => Move(s, a, c.(locks := c.locks[1..])).(locked := s.locked - {c.locks[0].inode})
    case CloseDone => Move(s, a, c.(at := Forgetting))
    case Forget => Move(s, a, IDLE).(reserved := s.reserved[a.process := ReservedBy(s, a.process) - c.ports])
  }

  /** The kernel closes everything a process had; its files stay behind. */
  function Crash(s: State, process: nat): State {
    State(
      s.dir,
      s.nextInode,
      map i | i in s.locked && s.locked[i].process != process :: s.locked[i],
      if s.guard.Some? && s.guard.value.process == process then None else s.guard,
      s.mutex - {process},
      s.reserved - {process},
      map a | a in s.calls && a.process != process :: s.calls[a])
  }

  ghost predicate Next(s: State, t: State) {
    || (exists a, e :: Enabled(s, a, e) && t == Apply(s, a, e))
    || (exists process :: t == Crash(s, process))
  }

  /** Any leftover files, nothing locked, nobody running. */
  ghost predicate Init(s: State) {
    && s.locked == map[] && s.guard == None && s.mutex == map[] && s.reserved == map[] && s.calls == map[]
    && DistinctInodes(s)
  }

  ghost predicate IsRun(states: seq<State>) {
    states != [] && Init(states[0]) &&
    forall i, j :: 0 <= i && j == i + 1 && j < |states| ==> Next(states[i], states[j])
  }

  // ----- What every step keeps -----

  predicate Guarded(at: Point) {
    at in {Sweeping, SweepOpened, SweepLocked, SweepUnlinking, Trying, Opened, Backing, Leaving, Dropping}
  }

  predicate Exclusive(at: Point) {
    at in {Entering, Sweeping, SweepOpened, SweepLocked, SweepUnlinking, Trying, Opened, Backing, Leaving, Left}
  }

  ghost predicate DistinctPorts(files: seq<File>) {
    forall i, j :: 0 <= i < j < |files| ==> files[i].port != files[j].port
  }

  /** Two neighbouring ports of the range, the first one even. */
  ghost predicate IsPair(files: seq<File>) {
    |files| == 2 && files[1].port == files[0].port + 1 &&
    PORT_MIN <= files[0].port && files[1].port <= PORT_MAX && files[0].port % 2 == 0
  }

  ghost predicate DistinctInodes(s: State) {
    && (forall p :: p in s.dir ==> s.dir[p] < s.nextInode)
    && (forall p, q :: p in s.dir && q in s.dir && s.dir[p] == s.dir[q] ==> p == q)
  }

  ghost predicate Shape(c: Call) {
    && DistinctPorts(c.locks)
    && (c.at in {Idle, Entering} ==> c == IDLE.(at := c.at, start := c.start))
    && (c.at in {Sweeping, SweepOpened, SweepUnlinking} ==> c.locks == [])
    && (c.at == SweepLocked ==> |c.locks| == 1)
    && (c.at in {SweepOpened, Opened} <==> c.file.Some?)
    && (c.unlink.Some? ==> c.at in {SweepUnlinking, Backing, Dropping})
    && (c.at == SweepUnlinking ==> c.unlink.Some?)
    && (c.at in {Trying, Opened} ==>
          c.attempt <= MAX_ATTEMPTS && (c.attempt == MAX_ATTEMPTS ==> c.locks == [] && c.at == Trying))
    && (c.at == Backing ==> c.attempt < MAX_ATTEMPTS)
    && (c.at in {Trying, Opened} ==> |c.locks| <= 2 && forall i ::
          0 <= i < |c.locks| ==> c.locks[i].port == PortOf(c.start, c.attempt, i))
    && (c.at == Opened ==> |c.locks| < 2 && c.file.value.port == PortOf(c.start, c.attempt, |c.locks|))
    && (c.at in {Leaving, Left} ==> c.locks == [] || IsPair(c.locks))
    && (c.at in {Live, Returning} ==> IsPair(c.locks))
    && (c.at in {Leaving, Left, Live, Returning} ==> c.ports == PortSet(c.locks))
    && (c.ports != {} ==> c.at in {Leaving, Left, Live, Returning, Dropping, Closing, Forgetting})
  }

  ghost predicate Names(s: State, file: File) {
    file.port in s.dir && s.dir[file.port] == file.inode
  }

  ghost predicate Owns(s: State, a: Actor, file: File) {
    Names(s, file) && file.inode in s.locked && s.locked[file.inode] == a
  }

  ghost predicate ActorInv(s: State, a: Actor) {
    var c := CallOf(s, a);
    && (Guarded(c.at) ==> s.guard == Some(a))
    && (Exclusive(c.at) ==> a.process in s.mutex && s.mutex[a.process] == a)
    && (forall f :: f in c.locks ==> Owns(s, a, f))
    && (c.file.Some? ==> Names(s, c.file.value))
    && c.ports <= ReservedBy(s, a.process)
    && (c.at == Opened || (c.at == Trying && c.locks != []) ==> PairIsFree(s, a, c))
  }

  /** No call holds a path another is about to unlink; calls of one process claim different ports. */
  ghost predicate PairInv(s: State, a: Actor, b: Actor) {
    var c, d := CallOf(s, a), CallOf(s, b);
    && (c.unlink.Some? ==> forall f :: f in d.locks ==> f.port != c.unlink.value)
    && (a != b && a.process == b.process ==> c.ports !! d.ports)
  }

  ghost predicate LockInv(s: State) {
    && DistinctInodes(s)
    && (forall a :: ActorInv(s, a))
    && (forall a, b :: PairInv(s, a, b))
  }

  ghost predicate Inv(s: State) {
    && (forall a :: Shape(CallOf(s, a)))
    && LockInv(s)
  }

  /** Only `a` moved, and everything that concerns it still holds. */
  ghost predicate Fits(s: State, t: State, a: Actor) {
    && (forall b :: b != a ==> CallOf(t, b) == CallOf(s, b))
    && DistinctInodes(t)
    && ActorInv(t, a)
    && PairInv(t, a, a)
    && (forall b :: b != a ==> ActorInv(t, b) && PairInv(t, a, b) && PairInv(t, b, a))
  }

  lemma FitsKeepsInv(s: State, t: State, a: Actor)
    requires LockInv(s) && Fits(s, t, a)
    ensures LockInv(t)
  {
    forall x, y ensures PairInv(t, x, y) {
      if x != a && y != a { assert PairInv(s, x, y); }
    }
    forall x ensures ActorInv(t, x) {
      if x != a {} else {}
    }
  }

  /** A step of `a` that leaves files and locks alone disturbs nobody else. */
  lemma OthersUntouched(s: State, t: State, a: Actor)
    requires LockInv(s) && t.dir == s.dir && t.locked == s.locked
    requires forall b :: b != a ==> CallOf(t, b) == CallOf(s, b)
    requires t.guard == s.guard || s.guard == None || Guarded(CallOf(s, a).at)
    requires forall p :: p != a.process ==>
               (p in t.mutex <==> p in s.mutex) && (p in s.mutex ==> t.mutex[p] == s.mutex[p])
    requires t.mutex == s.mutex || a.process !in s.mutex || Exclusive(CallOf(s, a).at)
    requires forall p :: p != a.process ==> ReservedBy(t, p) == ReservedBy(s, p)
    requires || ReservedBy(t, a.process) == ReservedBy(s, a.process)
             || (a.process !in s.mutex && ReservedBy(t, a.process) == ReservedBy(s, a.process) - CallOf(s, a).ports)
             || (Exclusive(CallOf(s, a).at) && ReservedBy(t, a.process) >= ReservedBy(s, a.process))
    requires CallOf(t, a).unlink == None && (forall f :: f in CallOf(t, a).locks ==> f in CallOf(s, a).locks)
    requires CallOf(t, a).ports <= CallOf(s, a).ports || CallOf(t, a).ports !! ReservedBy(s, a.process)
    ensures forall b :: b != a ==> ActorInv(t, b) && PairInv(t, a, b) && PairInv(t, b, a)
  {
    assert ActorInv(s, a);
    forall b | b != a ensures ActorInv(t, b) && PairInv(t, a, b) && PairInv(t, b, a) {
      assert ActorInv(s, b) && PairInv(s, a, b) && PairInv(s, b, a);
      forall f | f in CallOf(s, b).locks ensures Owns(t, b, f) {
        assert Owns(s, b, f);
      }
    }
  }

  /** A move that changes nothing but the call's own place and variables. */
  lemma QuietKeeps(s: State, a: Actor, c: Call)
    requires LockInv(s) && c.unlink == None
    requires (Guarded(c.at) ==> Guarded(CallOf(s, a).at)) && (Exclusive(c.at) ==> Exclusive(CallOf(s, a).at))
    requires c.locks == CallOf(s, a).locks && c.ports == CallOf(s, a).ports
    requires c.file.Some? ==> Names(s, c.file.value)
    requires c.at == Opened || (c.at == Trying && c.locks != []) ==> PairIsFree(s, a, c)
    ensures LockInv(Move(s, a, c))
  {
    var t := Move(s, a, c);
    assert ActorInv(s, a) && PairInv(s, a, a);
    forall f | f in c.locks ensures Owns(t, a, f) {
      assert Owns(s, a, f);
    }
    OthersUntouched(s, t, a);
    FitsKeepsInv(s, t, a);
  }

  /** Locking a named, unlocked file under the guard. */
  lemma LockKeeps(s: State, a: Actor, file: File, c: Call)
    requires Inv(s) && CallOf(s, a).file == Some(file) && file.inode !in s.locked
    requires c == CallOf(s, a).(at := c.at, file := None, locks := CallOf(s, a).locks + [file])
    requires (c.at == SweepLocked || (c.at == Trying && CallOf(s, a).at == Opened))
    ensures LockInv(Move(s, a, c).(locked := s.locked[file.inode := a]))
  {
    var t := Move(s, a, c).(locked := s.locked[file.inode := a]);
    assert Shape(CallOf(s, a)) && ActorInv(s, a) && PairInv(s, a, a);
    forall f | f in c.locks ensures Owns(t, a, f) {
      if f != file { assert Owns(s, a, f); }
    }
    forall b | b != a ensures ActorInv(t, b) && PairInv(t, a, b) && PairInv(t, b, a) {
      assert ActorInv(s, b) && PairInv(s, a, b) && PairInv(s, b, a) && Shape(CallOf(s, b));
      assert !Guarded(CallOf(s, b).at);
      forall f | f in CallOf(s, b).locks ensures Owns(t, b, f) {
        assert Owns(s, b, f);
      }
    }
    FitsKeepsInv(s, t, a);
  }

  /** Releasing one held lock; a path is condemned only under the guard. */
  lemma UnlockKeeps(s: State, a: Actor, file: File, c: Call)
    requires LockInv(s) && file in CallOf(s, a).locks
    requires forall f :: f in c.locks ==> f in CallOf(s, a).locks && f.port != file.port
    requires c == CallOf(s, a).(at := c.at, locks := c.locks, unlink := c.unlink) && c.file == None
    requires c.unlink == None || c.unlink == Some(file.port)
    requires c.at == CallOf(s, a).at || (c.at == SweepUnlinking && CallOf(s, a).at == SweepLocked)
    requires c.at != Trying
    ensures LockInv(Move(s, a, c).(locked := s.locked - {file.inode}))
  {
    var t := Move(s, a, c).(locked := s.locked - {file.inode});
    assert ActorInv(s, a) && PairInv(s, a, a) && Owns(s, a, file);
    forall f | f in c.locks ensures Owns(t, a, f) {
      assert Owns(s, a, f);
    }
    forall b | b != a ensures ActorInv(t, b) && PairInv(t, a, b) && PairInv(t, b, a) {
      assert ActorInv(s, b) && PairInv(s, a, b) && PairInv(s, b, a);
      forall f | f in CallOf(s, b).locks ensures Owns(t, b, f) && f.port != file.port {
        assert Owns(s, b, f);
      }
    }
    FitsKeepsInv(s, t, a);
  }

  /** Unlinking a condemned path under the guard disturbs nobody else. */
  lemma UnlinkSparesOthers(s: State, a: Actor, port: nat, t: State, b: Actor)
    requires Inv(s) && CallOf(s, a).unlink == Some(port) && b != a
    requires t == s.(dir := s.dir - {port}, calls := t.calls) && CallOf(t, b) == CallOf(s, b)
    ensures ActorInv(t, b)
  {
    assert ActorInv(s, a) && Shape(CallOf(s, a));
    assert ActorInv(s, b) && PairInv(s, a, b) && Shape(CallOf(s, b));
    assert !Guarded(CallOf(s, b).at);
    forall f | f in CallOf(s, b).locks ensures Owns(t, b, f) {
      assert Owns(s, b, f);
    }
  }

  lemma UnlinkKeeps(s: State, a: Actor, port: nat, c: Call)
    requires Inv(s) && CallOf(s, a).unlink == Some(port)
    requires c == CallOf(s, a).(at := c.at, unlink := None)
    requires c.at == CallOf(s, a).at || (c.at == Sweeping && CallOf(s, a).at == SweepUnlinking)
    ensures LockInv(Move(s, a, c).(dir := s.dir - {port}))
  {
    var t := Move(s, a, c).(dir := s.dir - {port});
    assert ActorInv(s, a) && PairInv(s, a, a) && Shape(CallOf(s, a));
    forall f | f in c.locks ensures Owns(t, a, f) {
      assert Owns(s, a, f);
    }
    forall b | b != a ensures ActorInv(t, b) {
      UnlinkSparesOthers(s, a, port, t, b);
    }
    forall b | b != a ensures PairInv(t, a, b) && PairInv(t, b, a) {
      assert PairInv(s, a, b) && PairInv(s, b, a);
    }
    FitsKeepsInv(s, t, a);
  }

  /** Creating the lock file of a port that has none. */
  lemma CreateKeeps(s: State, a: Actor)
    requires Inv(s) && Enabled(s, a, Open)
    requires PortOf(CallOf(s, a).start, CallOf(s, a).attempt, |CallOf(s, a).locks|) !in s.dir
    ensures LockInv(Apply(s, a, Open))
  {
    var t := Apply(s, a, Open);
    assert ActorInv(s, a) && PairInv(s, a, a) && Shape(CallOf(s, a));
    forall f | f in CallOf(s, a).locks ensures Owns(t, a, f) {
      assert Owns(s, a, f);
    }
    forall b | b != a ensures ActorInv(t, b) && PairInv(t, a, b) && PairInv(t, b, a) {
      assert ActorInv(s, b) && PairInv(s, a, b) && PairInv(s, b, a) && Shape(CallOf(s, b));
      forall f | f in CallOf(s, b).locks ensures Owns(t, b, f) {
        assert Owns(s, b, f);
      }
    }
    FitsKeepsInv(s, t, a);
  }

  /** Taking the in-process mutex or the guard. */
  lemma TakingKeeps(s: State, a: Actor, e: Event)
    requires Inv(s) && Enabled(s, a, e)
    requires e.Begin? || e.TakeGuard? || e.ReturnGuard?
    ensures LockInv(Apply(s, a, e))
  {
    var c, t := CallOf(s, a), Apply(s, a, e);
    assert ActorInv(s, a) && PairInv(s, a, a) && Shape(c);
    forall f | f in CallOf(t, a).locks ensures Owns(t, a, f) {
      assert Owns(s, a, f);
    }
    OthersUntouched(s, t, a);
    FitsKeepsInv(s, t, a);
  }

  /** Giving up the guard. */
  lemma GuardLeavingKeeps(s: State, a: Actor)
    requires Inv(s) && Enabled(s, a, LeaveGuard)
    ensures LockInv(Apply(s, a, LeaveGuard))
  {
    var c, t := CallOf(s, a), Apply(s, a, LeaveGuard);
    assert ActorInv(s, a) && PairInv(s, a, a) && Shape(c);
    forall f | f in CallOf(t, a).locks ensures Owns(t, a, f) {
      assert Owns(s, a, f);
    }
    OthersUntouched(s, t, a);
    FitsKeepsInv(s, t, a);
  }

  lemma DropDoneKeeps(s: State, a: Actor)
    requires Inv(s) && Enabled(s, a, DropDone)
    ensures LockInv(Apply(s, a, DropDone))
  {
    var c, t := CallOf(s, a), Apply(s, a, DropDone);
    assert ActorInv(s, a) && PairInv(s, a, a) && Shape(c);
    OthersUntouched(s, t, a);
    FitsKeepsInv(s, t, a);
  }

  /** Giving up the in-process mutex. */
  lemma MutexLeavingKeeps(s: State, a: Actor, e: Event)
    requires Inv(s) && Enabled(s, a, e)
    requires e.EnterFails? || e.LeaveMutex?
    ensures LockInv(Apply(s, a, e))
  {
    var c, t := CallOf(s, a), Apply(s, a, e);
    assert ActorInv(s, a) && PairInv(s, a, a) && Shape(c);
    forall f | f in CallOf(t, a).locks ensures Owns(t, a, f) {
      assert Owns(s, a, f);
    }
    OthersUntouched(s, t, a);
    FitsKeepsInv(s, t, a);
  }

  /** Recording a pair in the process memory. */
  lemma RecordingKeeps(s: State, a: Actor)
    requires Inv(s) && Enabled(s, a, BindSucceeds)
    ensures LockInv(Apply(s, a, BindSucceeds))
  {
    var c, t := CallOf(s, a), Apply(s, a, BindSucceeds);
    assert ActorInv(s, a) && PairInv(s, a, a) && Shape(c);
    forall f | f in CallOf(t, a).locks ensures Owns(t, a, f) {
      assert Owns(s, a, f);
    }
    assert PortSet(c.locks) == PortsOf(c.start, c.attempt);
    OthersUntouched(s, t, a);
    FitsKeepsInv(s, t, a);
  }

  /** Forgetting the caller's own ports. */
  lemma ForgettingKeeps(s: State, a: Actor)
    requires Inv(s) && Enabled(s, a, Forget)
    ensures LockInv(Apply(s, a, Forget))
  {
    var t := Apply(s, a, Forget);
    assert ActorInv(s, a) && PairInv(s, a, a) && Shape(CallOf(s, a));
    OthersUntouched(s, t, a);
    FitsKeepsInv(s, t, a);
  }

  predicate IsPlain(e: Event) {
    e.SweepOpen? || e.SweepSkip? || e.SweepTryLock? || e.SweepDone? || e.SkipReserved? || e.Open? || e.OpenFails? ||
    e.TryLock? || e.LockFails? || e.BindBusy? || e.BindFails? || e.GiveUp? || e.BackDone? || e.Release? ||
    e.ReturnUnguarded? || e.CloseDone?
  }

  /** Steps that, in this state, only move the call. */
  lemma PlainKeeps(s: State, a: Actor, e: Event)
    requires Inv(s) && Enabled(s, a, e) && IsPlain(e)
    requires Apply(s, a, e) == Move(s, a, CallOf(Apply(s, a, e), a))
    requires CallOf(Apply(s, a, e), a).locks == CallOf(s, a).locks
    ensures LockInv(Apply(s, a, e))
  {
    assert ActorInv(s, a) && Shape(CallOf(s, a));
    QuietKeeps(s, a, CallOf(Apply(s, a, e), a));
  }

  lemma LockingKeeps(s: State, a: Actor, e: Event)
    requires Inv(s) && Enabled(s, a, e) && (e.SweepTryLock? || e.TryLock?)
    ensures LockInv(Apply(s, a, e))
  {
    var c := CallOf(s, a);
    assert ActorInv(s, a) && Shape(c);
    if c.file.value.inode in s.locked { PlainKeeps(s, a, e); }
    else { LockKeeps(s, a, c.file.value, CallOf(Apply(s, a, e), a)); }
  }

  lemma ReleasingKeeps(s: State, a: Actor, e: Event)
    requires Inv(s) && Enabled(s, a, e) && (e.SweepUnlock? || e.BackUnlock? || e.DropUnlock? || e.CloseLock?)
    ensures LockInv(Apply(s, a, e))
  {
    var c := CallOf(s, a);
    assert ActorInv(s, a) && Shape(c);
    UnlockKeeps(s, a, if e.SweepUnlock? || e.CloseLock? then c.locks[0]
                      else c.locks[|c.locks| - 1], CallOf(Apply(s, a, e), a));
  }

  lemma UnlinkingKeeps(s: State, a: Actor, e: Event)
    requires Inv(s) && Enabled(s, a, e) && (e.SweepUnlink? || e.BackUnlink? || e.DropUnlink?)
    ensures LockInv(Apply(s, a, e))
  {
    assert ActorInv(s, a) && Shape(CallOf(s, a));
    UnlinkKeeps(s, a, CallOf(s, a).unlink.value, CallOf(Apply(s, a, e), a));
  }

  lemma EnterKeepsShape(s: State, a: Actor, e: Event)
    requires Shape(CallOf(s, a)) && Enabled(s, a, e)
    requires e.Begin? || e.TakeGuard? || e.EnterFails?
    ensures Shape(CallOf(Apply(s, a, e), a))
  {
  }

  lemma SweepKeepsShape(s: State, a: Actor, e: Event)
    requires Shape(CallOf(s, a)) && Enabled(s, a, e)
    requires e.SweepOpen? || e.SweepSkip? || e.SweepTryLock? || e.SweepUnlock? || e.SweepUnlink? || e.SweepDone?
    ensures Shape(CallOf(Apply(s, a, e), a))
  {
  }

  lemma SkipKeepsShape(s: State, a: Actor)
    requires Shape(CallOf(s, a)) && Enabled(s, a, SkipReserved)
    ensures Shape(CallOf(Apply(s, a, SkipReserved), a))
  {
  }

  lemma OpenedShape(c: Call, file: File)
    requires Shape(c) && c.at == Trying && |c.locks| < 2 && c.attempt < MAX_ATTEMPTS
    requires file.port == PortOf(c.start, c.attempt, |c.locks|)
    ensures Shape(c.(at := Opened, file := Some(file)))
  {
  }

  lemma OpenKeepsShape(s: State, a: Actor)
    requires Shape(CallOf(s, a)) && Enabled(s, a, Open)
    ensures Shape(CallOf(Apply(s, a, Open), a))
  {
    var c := CallOf(s, a);
    var port := PortOf(c.start, c.attempt, |c.locks|);
    var file := File(port, if port in s.dir then s.dir[port] else s.nextInode);
    OpenedShape(c, file);
  }

  lemma OpenFailsKeepsShape(s: State, a: Actor)
    requires Shape(CallOf(s, a)) && Enabled(s, a, OpenFails)
    ensures Shape(CallOf(Apply(s, a, OpenFails), a))
  {
  }

  lemma TryLockKeepsShape(s: State, a: Actor, e: Event)
    requires Shape(CallOf(s, a)) && Enabled(s, a, e)
    requires e.TryLock? || e.LockFails?
    ensures Shape(CallOf(Apply(s, a, e), a))
  {
  }

  lemma BindKeepsShape(s: State, a: Actor, e: Event)
    requires Shape(CallOf(s, a)) && Enabled(s, a, e)
    requires e.BindSucceeds? || e.BindBusy?
    ensures Shape(CallOf(Apply(s, a, e), a))
  {
  }

  lemma GiveUpKeepsShape(s: State, a: Actor, e: Event)
    requires Shape(CallOf(s, a)) && Enabled(s, a, e)
    requires e.BindFails? || e.GiveUp?
    ensures Shape(CallOf(Apply(s, a, e), a))
  {
  }

  lemma BackKeepsShape(s: State, a: Actor, e: Event)
    requires Shape(CallOf(s, a)) && Enabled(s, a, e)
    requires e.BackUnlock? || e.BackUnlink? || e.BackDone?
    ensures Shape(CallOf(Apply(s, a, e), a))
  {
  }

  lemma LeaveKeepsShape(s: State, a: Actor, e: Event)
    requires Shape(CallOf(s, a)) && Enabled(s, a, e)
    requires e.LeaveGuard? || e.LeaveMutex?
    ensures Shape(CallOf(Apply(s, a, e), a))
  {
  }

  lemma ReturnKeepsShape(s: State, a: Actor, e: Event)
    requires Shape(CallOf(s, a)) && Enabled(s, a, e)
    requires e.Release? || e.ReturnGuard? || e.ReturnUnguarded?
    ensures Shape(CallOf(Apply(s, a, e), a))
  {
  }

  lemma DropKeepsShape(s: State, a: Actor, e: Event)
    requires Shape(CallOf(s, a)) && Enabled(s, a, e)
    requires e.DropUnlock? || e.DropUnlink? || e.DropDone?
    ensures Shape(CallOf(Apply(s, a, e), a))
  {
  }

  lemma CloseKeepsShape(s: State, a: Actor, e: Event)
    requires Shape(CallOf(s, a)) && Enabled(s, a, e)
    requires e.CloseLock? || e.CloseDone? || e.Forget?
    ensures Shape(CallOf(Apply(s, a, e), a))
  {
  }

  lemma StepKeepsShape(s: State, a: Actor, e: Event)
    requires Inv(s) && Enabled(s, a, e)
    ensures Shape(CallOf(Apply(s, a, e), a))
  {
    assert Shape(CallOf(s, a));
    if e.Begin? || e.TakeGuard? || e.EnterFails? {
      EnterKeepsShape(s, a, e);
    } else if e.SweepOpen? || e.SweepSkip? || e.SweepTryLock? || e.SweepUnlock? || e.SweepUnlink? || e.SweepDone? {
      SweepKeepsShape(s, a, e);
    } else if e.SkipReserved? {
      SkipKeepsShape(s, a);
    } else if e.Open? {
      OpenKeepsShape(s, a);
    } else if e.OpenFails? {
      OpenFailsKeepsShape(s, a);
    } else if e.TryLock? || e.LockFails? {
      TryLockKeepsShape(s, a, e);
    } else if e.BindSucceeds? || e.BindBusy? {
      BindKeepsShape(s, a, e);
    } else if e.BindFails? || e.GiveUp? {
      GiveUpKeepsShape(s, a, e);
    } else if e.BackUnlock? || e.BackUnlink? || e.BackDone? {
      BackKeepsShape(s, a, e);
    } else if e.LeaveGuard? || e.LeaveMutex? {
      LeaveKeepsShape(s, a, e);
    } else if e.Release? || e.ReturnGuard? || e.ReturnUnguarded? {
      ReturnKeepsShape(s, a, e);
    } else if e.DropUnlock? || e.DropUnlink? || e.DropDone? {
      DropKeepsShape(s, a, e);
    } else {
      CloseKeepsShape(s, a, e);
    }
  }

  lemma StepKeepsLockInv(s: State, a: Actor, e: Event)
    requires Inv(s) && Enabled(s, a, e)
    ensures LockInv(Apply(s, a, e))
  {
    if e.Begin? || e.TakeGuard? || e.ReturnGuard? {
      TakingKeeps(s, a, e);
    } else if e.LeaveGuard? {
      GuardLeavingKeeps(s, a);
    } else if e.DropDone? {
      DropDoneKeeps(s, a);
    } else if e.EnterFails? || e.LeaveMutex? {
      MutexLeavingKeeps(s, a, e);
    } else if e.BindSucceeds? {
      RecordingKeeps(s, a);
    } else if e.Forget? {
      ForgettingKeeps(s, a);
    } else if e.SweepTryLock? || e.TryLock? {
      LockingKeeps(s, a, e);
    } else if e.SweepUnlock? || e.BackUnlock? || e.DropUnlock? || e.CloseLock? {
      ReleasingKeeps(s, a, e);
    } else if e.SweepUnlink? || e.BackUnlink? || e.DropUnlink? {
      UnlinkingKeeps(s, a, e);
    } else if e.Open? && PortOf(CallOf(s, a).start, CallOf(s, a).attempt, |CallOf(s, a).locks|) !in s.dir {
      CreateKeeps(s, a);
    } else {
      PlainKeeps(s, a, e);
    }
  }

  lemma StepKeepsInv(s: State, a: Actor, e: Event)
    requires Inv(s) && Enabled(s, a, e)
    ensures Inv(Apply(s, a, e))
  {
    StepKeepsLockInv(s, a, e);
    StepKeepsShape(s, a, e);
    forall b | b != a ensures Shape(CallOf(Apply(s, a, e), b)) {
      assert Shape(CallOf(s, b));
    }
  }

  lemma CrashKeepsInv(s: State, process: nat)
    requires Inv(s)
    ensures Inv(Crash(s, process))
  {
    var t := Crash(s, process);
    forall a ensures ActorInv(t, a) && Shape(CallOf(t, a)) {
      assert ActorInv(s, a) && Shape(CallOf(s, a));
      forall f | f in CallOf(t, a).locks ensures Owns(t, a, f) {
        assert Owns(s, a, f);
      }
    }
    forall a, b ensures PairInv(t, a, b) {
      assert PairInv(s, a, b);
    }
  }

  lemma NextKeepsInv(s: State, t: State)
    requires Inv(s) && Next(s, t)
    ensures Inv(t)
  {
    if a, e :| Enabled(s, a, e) && t == Apply(s, a, e) {
      StepKeepsInv(s, a, e);
    } else {
      var process :| t == Crash(s, process);
      CrashKeepsInv(s, process);
    }
  }

  lemma {:induction false} RunKeepsInv(states: seq<State>, k: nat)
    requires IsRun(states) && k < |states|
    ensures Inv(states[k])
  {
    if k > 0 {
      RunKeepsInv(states, k - 1);
      assert Next(states[k - 1], states[k]);
      NextKeepsInv(states[k - 1], states[k]);
    }
  }

  // ----- Safety of every run -----

  /** The call has been granted a pair and has not begun to give it back. */
  predicate Reserves(c: Call) {
    c.at in {Left, Live, Returning} && c.locks != []
  }

  /** At every moment of every run, every lock a call holds is on the file its path names, so two
      calls never hold locks for the same port, whatever stage they are at. */
  lemma LocksExclude(states: seq<State>, k: nat, a: Actor, b: Actor)
    requires IsRun(states) && k < |states|
    ensures forall f :: f in CallOf(states[k], a).locks ==> Owns(states[k], a, f)
    ensures a != b ==> PortSet(CallOf(states[k], a).locks) !! PortSet(CallOf(states[k], b).locks)
  {
    RunKeepsInv(states, k);
    assert ActorInv(states[k], a) && ActorInv(states[k], b);
  }

  /** No port belongs to two reservations, and each reservation is an aligned pair of the range that
      its process remembers. */
  lemma ReservationsAreDisjoint(states: seq<State>, k: nat, a: Actor, b: Actor)
    requires IsRun(states) && k < |states|
    requires Reserves(CallOf(states[k], a)) && Reserves(CallOf(states[k], b)) && a != b
    ensures IsPair(CallOf(states[k], a).locks) && IsPair(CallOf(states[k], b).locks)
    ensures PortSet(CallOf(states[k], a).locks) !! PortSet(CallOf(states[k], b).locks)
    ensures PortSet(CallOf(states[k], a).locks) <= ReservedBy(states[k], a.process)
  {
    RunKeepsInv(states, k);
    LocksExclude(states, k, a, b);
    assert Shape(CallOf(states[k], a)) && Shape(CallOf(states[k], b)) && ActorInv(states[k], a);
  }

  lemma OwnStepKeepsLocks(s: State, a: Actor, e: Event)
    requires Enabled(s, a, e) && Shape(CallOf(s, a)) && Reserves(CallOf(s, a))
    requires CallOf(Apply(s, a, e), a).at in {Left, Live, Returning}
    ensures CallOf(Apply(s, a, e), a).locks == CallOf(s, a).locks
  {
    assert e.LeaveMutex? || e.Release? || e.ReturnGuard? || e.ReturnUnguarded?;
  }

  lemma StepPersists(s: State, b: Actor, e: Event, a: Actor)
    requires Inv(s) && Enabled(s, b, e) && Reserves(CallOf(s, a))
    requires CallOf(Apply(s, b, e), a).at in {Left, Live, Returning}
    ensures CallOf(Apply(s, b, e), a).locks == CallOf(s, a).locks
  {
    assert Shape(CallOf(s, a));
    if b == a { OwnStepKeepsLocks(s, a, e); }
  }

  lemma CrashPersists(s: State, process: nat, a: Actor)
    requires Reserves(CallOf(s, a)) && CallOf(Crash(s, process), a).at in {Left, Live, Returning}
    ensures CallOf(Crash(s, process), a).locks == CallOf(s, a).locks
  {
  }

  lemma LocksAreOwned(s: State, a: Actor)
    requires Inv(s)
    ensures forall f :: f in CallOf(s, a).locks ==> Owns(s, a, f)
  {
    assert ActorInv(s, a);
  }

  /** No step unlinks the lock file of a reservation, and a crash of another process ends none. */
  lemma ReservationsPersist(s: State, t: State, a: Actor)
    requires Inv(s) && Next(s, t) && Reserves(CallOf(s, a)) && CallOf(t, a).at in {Left, Live, Returning}
    ensures CallOf(t, a).locks == CallOf(s, a).locks
    ensures forall f :: f in CallOf(s, a).locks ==> Owns(t, a, f)
  {
    if b, e :| Enabled(s, b, e) && t == Apply(s, b, e) {
      StepPersists(s, b, e, a);
    } else {
      var process :| t == Crash(s, process);
      CrashPersists(s, process, a);
    }
    NextKeepsInv(s, t);
    LocksAreOwned(t, a);
  }
}
