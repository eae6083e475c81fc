/** Which pairs a reservation goes for, why it gives one up, and what it leaves when it succeeds, fails or is
    released. */
module PortProgress {
  import opened Wrappers
  import opened PortLocks

  // ----- The pairs -----

  /** The first port an attempt goes for: the pairs of the range in a circle, from the starting pair on. */
  function FirstPort(start: int, attempt: nat): (port: nat)
    ensures 16000 <= port <= 31998 && port % 2 == 0
  {
    16000 + (start + attempt) % 8000 * 2
  }

  lemma Remainder(x: int, q: int, r: int)
    requires 0 <= r < 8000 && x == q * 8000 + r
    ensures x % 8000 == r
  {
  }

  /** For any starting number, also a negative one, the attempt's two ports are the first port and its neighbour. */
  lemma PortsAreNeighbours(start: int, attempt: nat)
    ensures PortOf(start, attempt, 0) == FirstPort(start, attempt)
    ensures PortOf(start, attempt, 1) == FirstPort(start, attempt) + 1
    ensures PortsOf(start, attempt) == {FirstPort(start, attempt), FirstPort(start, attempt) + 1}
  {
    var n := start + attempt;
    if n < 0 {
      var q, r := (-n) / 8000, (-n) % 8000;
      if r == 0 { Remainder(n, -q, 0); } else { Remainder(n, -q - 1, 8000 - r); }
    }
  }

  lemma RemainderSteps(n: int)
    ensures (n + 1) % 8000 == if n % 8000 == 7999 then 0 else n % 8000 + 1
  {
    if n % 8000 == 7999 {
      Remainder(n + 1, n / 8000 + 1, 0);
    } else {
      Remainder(n + 1, n / 8000, n % 8000 + 1);
    }
  }

  /** The attempts go for one pair after the other and around the end of the range. */
  lemma AttemptsGoAround(start: int, attempt: nat)
    ensures 0 <= start < 8000 ==> PortOf(start, 0, 0) == 16000 + 2 * start
    ensures PortOf(start, attempt + 1, 0) ==
              if PortOf(start, attempt, 0) == 31998 then 16000 else PortOf(start, attempt, 0) + 2
  {
    PortsAreNeighbours(start, 0);
    PortsAreNeighbours(start, attempt);
    PortsAreNeighbours(start, attempt + 1);
    if 0 <= start < 8000 { Remainder(start, 0, start); }
    RemainderSteps(start + attempt);
  }

  /** No two of the hundred attempts share a port. */
  lemma AttemptsAreDisjoint(start: int, i: nat, j: nat)
    requires i < j < 100
    ensures PortsOf(start, i) !! PortsOf(start, j)
  {
    PortsAreNeighbours(start, i);
    PortsAreNeighbours(start, j);
    var a, b := start + i, start + j;
    assert a % 8000 != b % 8000 by {
      assert a == a / 8000 * 8000 + a % 8000 && b == b / 8000 * 8000 + b % 8000;
    }
  }

  // ----- Why a pair is given up -----

  /** The step turns the pair down: the process remembers one of its ports, a file of it is locked, or its
      locks are held and a port turns out to be in use. */
  predicate TurnsDown(s: State, a: Actor, e: Event, port: nat) {
    var c := CallOf(s, a);
    match e
    case SkipReserved => port in ReservedBy(s, a.process) || port + 1 in ReservedBy(s, a.process)
    case TryLock => c.file.Some? && c.file.value.port in {port, port + 1} && c.file.value.inode in s.locked
    case BindBusy => |c.locks| == 2 && c.locks[0].port == port && c.locks[1].port == port + 1
    case _ => false
  }

  ghost predicate TakesStep(states: seq<State>, a: Actor, m: nat, e: Event) {
    m + 1 < |states| && Enabled(states[m], a, e) && states[m + 1] == Apply(states[m], a, e)
  }

  /** Before moment k of its present call the actor was turned down on the pair of attempt n. */
  ghost predicate WasTurnedDown(states: seq<State>, k: nat, a: Actor, start: int, n: nat)
    requires k < |states|
  {
    exists m: nat, e :: m < k && TurnedDownAt(states, m, a, e, start, n) && IsCalling(states, m, k, a)
  }

  ghost predicate TurnedDownAt(states: seq<State>, m: nat, a: Actor, e: Event, start: int, n: nat) {
    TakesStep(states, a, m, e) && CallOf(states[m], a).attempt == n && TurnsDown(states[m], a, e, FirstPort(start, n))
  }

  ghost predicate IsCalling(states: seq<State>, m: nat, k: nat, a: Actor)
    requires k < |states|
  {
    forall i :: m <= i <= k ==> CallOf(states[i], a).at != Idle
  }

  /** Every earlier attempt of the call was turned down, and the one being backed out of with another to
      follow. */
  ghost predicate IsAccounted(states: seq<State>, k: nat, a: Actor)
    requires k < |states|
  {
    var c := CallOf(states[k], a);
    && (c.at in {Trying, Opened, Backing} ==> forall n ::
          0 <= n < c.attempt ==> WasTurnedDown(states, k, a, c.start, n))
    && (c.at == Backing && c.resume ==> WasTurnedDown(states, k, a, c.start, c.attempt))
  }

  lemma TurnedDownStays(states: seq<State>, k: nat, a: Actor, start: int, n: nat)
    requires 0 < k < |states| && WasTurnedDown(states, k - 1, a, start, n) && CallOf(states[k], a).at != Idle
    ensures WasTurnedDown(states, k, a, start, n)
  {
    var m: nat, e :|
      m < k - 1 && TurnedDownAt(states, m, a, e, start, n) && IsCalling(states, m, k - 1, a);
    assert IsCalling(states, m, k, a);
  }

  predicate IsTrying(c: Call) {
    c.at in {Trying, Opened, Backing}
  }

  predicate IsRefusal(s: State, a: Actor, e: Event) {
    || e == SkipReserved || e == BindBusy
    || (e == TryLock && CallOf(s, a).file.Some? && CallOf(s, a).file.value.inode in s.locked)
  }

  lemma RefusalTurnsDown(s: State, a: Actor, e: Event)
    requires Enabled(s, a, e) && Shape(CallOf(s, a)) && IsRefusal(s, a, e)
    ensures var c := CallOf(s, a); TurnsDown(s, a, e, FirstPort(c.start, c.attempt))
  {
    PortsAreNeighbours(CallOf(s, a).start, CallOf(s, a).attempt);
  }

  lemma RefusalStaysCalling(s: State, a: Actor, e: Event)
    requires Enabled(s, a, e) && IsRefusal(s, a, e)
    ensures CallOf(s, a).at != Idle && CallOf(Apply(s, a, e), a).at != Idle
  {
  }

  lemma TurnedDownJustNow(states: seq<State>, k: nat, a: Actor, e: Event, start: int, n: nat)
    requires 0 < k < |states| && TurnedDownAt(states, k - 1, a, e, start, n)
    requires CallOf(states[k - 1], a).at != Idle && CallOf(states[k], a).at != Idle
    ensures WasTurnedDown(states, k, a, start, n)
  {
    assert IsCalling(states, k - 1, k, a);
  }

  lemma TurnsDownNow(states: seq<State>, k: nat, a: Actor, e: Event)
    requires 0 < k < |states| && TakesStep(states, a, k - 1, e) && Inv(states[k - 1])
    requires IsRefusal(states[k - 1], a, e)
    ensures var c := CallOf(states[k - 1], a); WasTurnedDown(states, k, a, c.start, c.attempt)
  {
    var s := states[k - 1];
    var c := CallOf(s, a);
    assert Shape(c);
    RefusalTurnsDown(s, a, e);
    RefusalStaysCalling(s, a, e);
    TurnedDownJustNow(states, k, a, e, c.start, c.attempt);
  }

  lemma OwnStepEnters(s: State, a: Actor, e: Event)
    requires Enabled(s, a, e) && !IsTrying(CallOf(s, a)) && IsTrying(CallOf(Apply(s, a, e), a))
    ensures CallOf(Apply(s, a, e), a).attempt == 0 && CallOf(Apply(s, a, e), a).at == Trying
  {
    assert e == SweepDone;
  }

  lemma BackingStepMoves(s: State, a: Actor, e: Event)
    requires Enabled(s, a, e) && CallOf(s, a).at == Backing && IsTrying(CallOf(Apply(s, a, e), a))
    ensures var c, d := CallOf(s, a), CallOf(Apply(s, a, e), a);
            && d.start == c.start
            && if d.at == Backing then d.attempt == c.attempt && d.resume == c.resume
               else c.resume && d.attempt == c.attempt + 1 && d.at == Trying
  {
    assert e in {BackUnlock, BackUnlink, BackDone};
  }

  /** The step stays on the attempt, or goes on to the next; a refusal is the only reason to back out of one with
      another to follow, or to go on. */
  ghost predicate MovesOn(s: State, a: Actor, e: Event, c: Call, d: Call) {
    && d.start == c.start
    && if d.attempt == c.attempt then d.at == Backing && d.resume ==> IsRefusal(s, a, e)
       else d.attempt == c.attempt + 1 && d.at == Trying && IsRefusal(s, a, e)
  }

  lemma OpenedStepMoves(s: State, a: Actor, e: Event)
    requires Enabled(s, a, e) && CallOf(s, a).at == Opened && IsTrying(CallOf(Apply(s, a, e), a))
    ensures MovesOn(s, a, e, CallOf(s, a), CallOf(Apply(s, a, e), a))
  {
    assert e in {TryLock, LockFails};
  }

  lemma TryingStepMoves(s: State, a: Actor, e: Event)
    requires Enabled(s, a, e) && CallOf(s, a).at == Trying && IsTrying(CallOf(Apply(s, a, e), a))
    ensures MovesOn(s, a, e, CallOf(s, a), CallOf(Apply(s, a, e), a))
  {
    assert e in {SkipReserved, Open, OpenFails, BindBusy, BindFails};
  }

  /** A call starts with attempt 0, goes on to the next only after a refusal, and stays on one otherwise. */
  lemma OwnStepMoves(s: State, a: Actor, e: Event)
    requires Enabled(s, a, e) && IsTrying(CallOf(Apply(s, a, e), a))
    ensures var c, d := CallOf(s, a), CallOf(Apply(s, a, e), a);
            || (d.attempt == 0 && d.at == Trying)
            || (IsTrying(c) && d.start == c.start && d.attempt == c.attempt
                && (d.at == Backing && d.resume ==> (c.at == Backing && c.resume) || IsRefusal(s, a, e)))
            || (IsTrying(c) && d.start == c.start && d.attempt == c.attempt + 1 && d.at == Trying
                && ((c.at == Backing && c.resume) || IsRefusal(s, a, e)))
  {
    if !IsTrying(CallOf(s, a)) {
      OwnStepEnters(s, a, e);
    } else if CallOf(s, a).at == Backing {
      BackingStepMoves(s, a, e);
    } else if CallOf(s, a).at == Opened {
      OpenedStepMoves(s, a, e);
    } else {
      TryingStepMoves(s, a, e);
    }
  }

  lemma OwnStepAccounts(states: seq<State>, k: nat, a: Actor, e: Event)
    requires 0 < k < |states| && TakesStep(states, a, k - 1, e) && Inv(states[k - 1]) && IsAccounted(states, k - 1, a)
    ensures IsAccounted(states, k, a)
  {
    var c, d := CallOf(states[k - 1], a), CallOf(states[k], a);
    if IsTrying(d) {
      assert Shape(c);
      OwnStepMoves(states[k - 1], a, e);
      if IsRefusal(states[k - 1], a, e) { TurnsDownNow(states, k, a, e); }
      AccountMoves(states, k, a, c, d);
    }
  }

  lemma AccountMoves(states: seq<State>, k: nat, a: Actor, c: Call, d: Call)
    requires 0 < k < |states| && c == CallOf(states[k - 1], a) && d == CallOf(states[k], a) && IsTrying(d)
    requires IsAccounted(states, k - 1, a)
    requires || (d.attempt == 0 && d.at == Trying)
             || (IsTrying(c) && d.start == c.start && d.attempt == c.attempt
                 && (d.at == Backing && d.resume ==>
                       (c.at == Backing && c.resume) || WasTurnedDown(states, k, a, c.start, c.attempt)))
             || (IsTrying(c) && d.start == c.start && d.attempt == c.attempt + 1 && d.at == Trying
                 && ((c.at == Backing && c.resume) || WasTurnedDown(states, k, a, c.start, c.attempt)))
    ensures IsAccounted(states, k, a)
  {
    if IsTrying(c) && !(d.attempt == 0 && d.at == Trying) {
      forall n | 0 <= n < c.attempt || (n == c.attempt && c.at == Backing && c.resume)
        ensures WasTurnedDown(states, k, a, c.start, n)
      {
        TurnedDownStays(states, k, a, c.start, n);
      }
    }
  }

  lemma OtherStepAccounts(states: seq<State>, k: nat, a: Actor)
    requires 0 < k < |states| && IsAccounted(states, k - 1, a)
    requires CallOf(states[k], a) == CallOf(states[k - 1], a) || CallOf(states[k], a) == IDLE
    ensures IsAccounted(states, k, a)
  {
    var c := CallOf(states[k], a);
    if c.at in {Trying, Opened, Backing} {
      forall n | 0 <= n <= c.attempt && WasTurnedDown(states, k - 1, a, c.start, n)
        ensures WasTurnedDown(states, k, a, c.start, n)
      {
        TurnedDownStays(states, k, a, c.start, n);
      }
    }
  }

  lemma {:induction false} AttemptsAreAccounted(states: seq<State>, k: nat, a: Actor)
    requires IsRun(states) && k < |states|
    ensures IsAccounted(states, k, a)
  {
    if k > 0 {
      var s, t := states[k - 1], states[k];
      AttemptsAreAccounted(states, k - 1, a);
      RunKeepsInv(states, k - 1);
      assert Next(s, t);
      if b, e :| Enabled(s, b, e) && t == Apply(s, b, e) {
        if b == a { OwnStepAccounts(states, k, a, e); } else { OtherStepAccounts(states, k, a); }
      } else {
        OtherStepAccounts(states, k, a);
      }
    }
  }

  /** A call gives up only after it was turned down on a hundred pairs one after the other, no two of which
      share a port. */
  lemma GivingUpIsEarned(states: seq<State>, k: nat, a: Actor, n: nat)
    requires IsRun(states) && k < |states| && Enabled(states[k], a, GiveUp) && n < 100
    ensures WasTurnedDown(states, k, a, CallOf(states[k], a).start, n)
  {
    AttemptsAreAccounted(states, k, a);
  }

  // ----- A call that nobody disturbs -----

  ghost predicate Moves(s: State, a: Actor, t: State) {
    exists e :: Enabled(s, a, e) && t == Apply(s, a, e)
  }

  type Stepping = (State, State) -> bool

  /** Every state comes from the one before by a step. */
  ghost predicate Plays(step: Stepping, states: seq<State>) {
    forall i, j {:trigger states[i], states[j]} :: 0 <= i && j == i + 1 && j < |states| ==> step(states[i], states[j])
  }

  ghost function StepsOf(a: Actor): Stepping {
    (s, t) => Moves(s, a, t)
  }

  ghost predicate Joins(step: Stepping, s: State, states: seq<State>, t: State) {
    |states| > 0 && states[0] == s && states[|states| - 1] == t && Plays(step, states)
  }

  /** The actor gets from one state to the other by steps of its own. */
  ghost predicate Gets(s: State, a: Actor, t: State) {
    exists states :: Joins(StepsOf(a), s, states, t)
  }

  lemma JoinsOn(step: Stepping, s: State, one: seq<State>, m: State, two: seq<State>, t: State)
    requires Joins(step, s, one, m) && Joins(step, m, two, t)
    ensures Joins(step, s, one + two[1..], t)
  {
    var n, both := |one|, one + two[1..];
    assert both[n - 1] == m;
    forall i, j | 0 <= i && j == i + 1 && j < |both| ensures step(both[i], both[j]) {
      if j < n {
        assert both[i] == one[i] && both[j] == one[j];
      } else {
        assert both[i] == two[i - n + 1] && both[j] == two[j - n + 1];
      }
    }
  }

  lemma GetsOn(s: State, a: Actor, m: State, t: State)
    requires Gets(s, a, m) && Gets(m, a, t)
    ensures Gets(s, a, t)
  {
    var one :| Joins(StepsOf(a), s, one, m);
    var two :| Joins(StepsOf(a), m, two, t);
    JoinsOn(StepsOf(a), s, one, m, two, t);
  }

  lemma StepGets(s: State, a: Actor, e: Event, t: State)
    requires Enabled(s, a, e) && t == Apply(s, a, e)
    ensures Gets(s, a, t)
  {
    assert StepsOf(a)(s, t);
    assert Joins(StepsOf(a), s, [s, t], t);
  }

  lemma StayingGets(s: State, a: Actor)
    ensures Gets(s, a, s)
  {
    assert Joins(StepsOf(a), s, [s], s);
  }

  /** The call is between two files of its sweep. */
  predicate IsBetweenFiles(c: Call) {
    c.at == Sweeping && c.locks == [] && c.file == None && c.unlink == None
  }

  /** The state with another call, directory, set of locks and memory. */
  function With(s: State, a: Actor, c: Call, dir: map<nat, nat>, locked: map<nat, Actor>): State {
    s.(dir := dir, locked := locked, calls := s.calls[a := c])
  }

  lemma WithAgain(s: State, a: Actor, c: Call, dir: map<nat, nat>, locked: map<nat, Actor>, c': Call,
                  dir': map<nat, nat>, locked': map<nat, Actor>)
    ensures With(With(s, a, c, dir, locked), a, c', dir', locked') == With(s, a, c', dir', locked')
    ensures CallOf(With(s, a, c, dir, locked), a) == c
  {
    assert s.calls[a := c][a := c'] == s.calls[a := c'];
  }

  lemma SweepLocks(s: State, a: Actor, port: nat)
    requires IsBetweenFiles(CallOf(s, a)) && port in CallOf(s, a).todo && port in s.dir && s.dir[port] !in s.locked
    ensures var c := CallOf(s, a).(todo := CallOf(s, a).todo - {port});
            Gets(s, a, With(s, a, c.(at := SweepLocked, locks := [File(port, s.dir[port])]), s.dir,
                            s.locked[s.dir[port] := a]))
  {
    var c, file := CallOf(s, a), File(port, s.dir[port]);
    var c1 := c.(at := SweepOpened, todo := c.todo - {port}, file := Some(file));
    var c2 := c1.(at := SweepLocked, file := None, locks := [file]);
    var s1 := With(s, a, c1, s.dir, s.locked);
    StepGets(s, a, SweepOpen(port), s1);
    WithAgain(s, a, c1, s.dir, s.locked, c2, s.dir, s.locked[file.inode := a]);
    StepGets(s1, a, SweepTryLock, With(s1, a, c2, s.dir, s.locked[file.inode := a]));
    GetsOn(s, a, s1, With(s, a, c2, s.dir, s.locked[file.inode := a]));
  }

  lemma SweepRemoves(s: State, a: Actor, port: nat)
    requires CallOf(s, a).at == SweepLocked && |CallOf(s, a).locks| == 1 && CallOf(s, a).locks[0].port == port
    requires CallOf(s, a).file == None && CallOf(s, a).unlink == None
    ensures var c := CallOf(s, a);
            Gets(s, a, With(s, a, c.(at := Sweeping, locks := []), s.dir - {port}, s.locked - {c.locks[0].inode}))
  {
    var c := CallOf(s, a);
    var c1, c2 := c.(at := SweepUnlinking, locks := [], unlink := Some(port)), c.(at := Sweeping, locks := []);
    var locked := s.locked - {c.locks[0].inode};
    var s1 := With(s, a, c1, s.dir, locked);
    StepGets(s, a, SweepUnlock, s1);
    WithAgain(s, a, c1, s.dir, locked, c2, s.dir - {port}, locked);
    StepGets(s1, a, SweepUnlink, With(s1, a, c2, s.dir - {port}, locked));
    GetsOn(s, a, s1, With(s, a, c2, s.dir - {port}, locked));
  }

  /** A file nobody holds a lock on is unlinked by the sweep, another one stays. */
  lemma SweepOne(s: State, a: Actor, port: nat) returns (t: State)
    requires IsBetweenFiles(CallOf(s, a)) && port in CallOf(s, a).todo
    ensures t == With(s, a, CallOf(s, a).(todo := CallOf(s, a).todo - {port}),
                      if port in s.dir && s.dir[port] !in s.locked then s.dir - {port} else s.dir, s.locked)
    ensures Gets(s, a, t)
  {
    var c := CallOf(s, a).(todo := CallOf(s, a).todo - {port});
    if port !in s.dir {
      t := With(s, a, c, s.dir, s.locked);
      StepGets(s, a, SweepSkip(port), t);
    } else if s.dir[port] in s.locked {
      var c1 := c.(at := SweepOpened, file := Some(File(port, s.dir[port])));
      var s1 := With(s, a, c1, s.dir, s.locked);
      StepGets(s, a, SweepOpen(port), s1);
      WithAgain(s, a, c1, s.dir, s.locked, c, s.dir, s.locked);
      t := With(s, a, c, s.dir, s.locked);
      StepGets(s1, a, SweepTryLock, With(s1, a, c, s.dir, s.locked));
      GetsOn(s, a, s1, t);
    } else {
      var i, c1 := s.dir[port], c.(at := SweepLocked, locks := [File(port, s.dir[port])]);
      SweepLocks(s, a, port);
      WithAgain(s, a, c1, s.dir, s.locked[i := a], c, s.dir - {port}, s.locked);
      SweepRemoves(With(s, a, c1, s.dir, s.locked[i := a]), a, port);
      assert s.locked[i := a] - {i} == s.locked;
      t := With(s, a, c, s.dir - {port}, s.locked);
      GetsOn(s, a, With(s, a, c1, s.dir, s.locked[i := a]), t);
    }
  }

  /** What a sweep leaves of a directory: the files it does not list and the locked ones. */
  function Swept(dir: map<nat, nat>, todo: set<nat>, locked: map<nat, Actor>): map<nat, nat> {
    map p | p in dir && (p !in todo || dir[p] in locked) :: dir[p]
  }

  lemma SweptOne(dir: map<nat, nat>, todo: set<nat>, locked: map<nat, Actor>, port: nat)
    requires port in todo
    ensures Swept(dir, {}, locked) == dir
    ensures var rest := if port in dir && dir[port] !in locked then dir - {port} else dir;
            Swept(rest, todo - {port}, locked) == Swept(dir, todo, locked)
  {
  }

  lemma SweepIdles(s: State, a: Actor, t: State)
    requires a in s.calls && t == With(s, a, CallOf(s, a), s.dir, s.locked)
    ensures Gets(s, a, t)
  {
    assert t.calls == s.calls;
    StayingGets(s, a);
  }

  /** Left alone, a sweep unlinks exactly the listed files nobody holds a lock on. */
  lemma {:induction false} SweepClears(s: State, a: Actor, c: Call, t: State)
    requires c == CallOf(s, a) && IsBetweenFiles(c)
    requires t == With(s, a, c.(todo := {}), Swept(s.dir, c.todo, s.locked), s.locked)
    ensures Gets(s, a, t)
    decreases c.todo
  {
    if c.todo == {} {
      assert Swept(s.dir, {}, s.locked) == s.dir;
      SweepIdles(s, a, t);
    } else {
      var port :| port in c.todo;
      var m := SweepOne(s, a, port);
      SweptOne(s.dir, c.todo, s.locked, port);
      WithAgain(s, a, CallOf(m, a), m.dir, s.locked, c.(todo := {}), t.dir, s.locked);
      SweepClears(m, a, CallOf(m, a), t);
      GetsOn(s, a, m, t);
    }
  }

  // ----- Taking a pair and giving it back -----

  /** Every lock is on a file that was created. */
  ghost predicate LocksExist(s: State) {
    forall i :: i in s.locked ==> i < s.nextInode
  }

  /** The locks are on the same files or fewer, and the inodes in use no fewer. */
  predicate AddsNoLock(s: State, t: State) {
    t.locked.Keys <= s.locked.Keys && t.nextInode >= s.nextInode
  }

  lemma TryingAddsNoLock(s: State, a: Actor, e: Event)
    requires Enabled(s, a, e) && CallOf(s, a).at == Trying
    ensures AddsNoLock(s, Apply(s, a, e))
  {
  }

  lemma OpenedAddsNoLock(s: State, a: Actor, e: Event)
    requires Enabled(s, a, e) && CallOf(s, a).at in {Opened, Backing} && !e.TryLock?
    ensures AddsNoLock(s, Apply(s, a, e))
  {
  }

  lemma LeavingAddsNoLock(s: State, a: Actor, e: Event)
    requires Enabled(s, a, e) && CallOf(s, a).at in {Leaving, Left, Live, Returning}
    ensures AddsNoLock(s, Apply(s, a, e))
  {
  }

  lemma DroppingAddsNoLock(s: State, a: Actor, e: Event)
    requires Enabled(s, a, e) && CallOf(s, a).at in {Dropping, Closing, Forgetting}
    ensures AddsNoLock(s, Apply(s, a, e))
  {
  }

  lemma EnteringAddsNoLock(s: State, a: Actor, e: Event)
    requires Enabled(s, a, e) && CallOf(s, a).at in {Idle, Entering, Sweeping}
    ensures AddsNoLock(s, Apply(s, a, e))
  {
  }

  lemma SweepingAddsNoLock(s: State, a: Actor, e: Event)
    requires Enabled(s, a, e) && CallOf(s, a).at in {SweepOpened, SweepLocked, SweepUnlinking} && !e.SweepTryLock?
    ensures AddsNoLock(s, Apply(s, a, e))
  {
  }

  lemma OnlyTryingLocks(s: State, a: Actor, e: Event)
    requires Enabled(s, a, e) && !e.SweepTryLock? && !e.TryLock?
    ensures AddsNoLock(s, Apply(s, a, e))
  {
    var at := CallOf(s, a).at;
    if at == Trying {
      TryingAddsNoLock(s, a, e);
    } else if at in {Opened, Backing} {
      OpenedAddsNoLock(s, a, e);
    } else if at in {Leaving, Left, Live, Returning} {
      LeavingAddsNoLock(s, a, e);
    } else if at in {Dropping, Closing, Forgetting} {
      DroppingAddsNoLock(s, a, e);
    } else if at in {Idle, Entering, Sweeping} {
      EnteringAddsNoLock(s, a, e);
    } else {
      SweepingAddsNoLock(s, a, e);
    }
  }

  lemma TryingLocksOpened(s: State, a: Actor, e: Event)
    requires Enabled(s, a, e) && (e.SweepTryLock? || e.TryLock?)
    ensures Apply(s, a, e).locked.Keys <= s.locked.Keys + {CallOf(s, a).file.value.inode}
    ensures Apply(s, a, e).nextInode == s.nextInode
  {
  }

  lemma StepKeepsLocksExist(s: State, a: Actor, e: Event, t: State)
    requires Inv(s) && LocksExist(s) && Enabled(s, a, e) && t == Apply(s, a, e)
    ensures LocksExist(t)
  {
    if e.SweepTryLock? || e.TryLock? {
      TryingLocksOpened(s, a, e);
      assert ActorInv(s, a);
      assert Names(s, CallOf(s, a).file.value);
    } else {
      OnlyTryingLocks(s, a, e);
    }
  }

  lemma CrashKeepsLocksExist(s: State, process: nat)
    requires LocksExist(s)
    ensures LocksExist(Crash(s, process))
  {
  }

  lemma NextKeepsLocksExist(s: State, t: State)
    requires Inv(s) && LocksExist(s) && Next(s, t)
    ensures LocksExist(t)
  {
    if a, e :| Enabled(s, a, e) && t == Apply(s, a, e) {
      StepKeepsLocksExist(s, a, e, t);
    } else {
      var process :| t == Crash(s, process);
      CrashKeepsLocksExist(s, process);
    }
  }

  lemma {:induction false} LocksExistInRuns(states: seq<State>, k: nat)
    requires IsRun(states) && k < |states|
    ensures LocksExist(states[k])
  {
    if k > 0 {
      LocksExistInRuns(states, k - 1);
      RunKeepsInv(states, k - 1);
      NextKeepsLocksExist(states[k - 1], states[k]);
    }
  }

  /** The inode a lock on the port would be taken on, and the next number after that. */
  function InodeOf(dir: map<nat, nat>, next: nat, port: nat): nat {
    if port in dir then dir[port] else next
  }

  function NextAfter(dir: map<nat, nat>, next: nat, port: nat): nat {
    if port in dir then next else next + 1
  }

  /** The state with another call, directory, next inode and set of locks. */
  function Holding(s: State, a: Actor, c: Call, dir: map<nat, nat>, next: nat, locked: map<nat, Actor>): State {
    s.(calls := s.calls[a := c], dir := dir, nextInode := next, locked := locked)
  }

  lemma HoldingAgain(s: State, a: Actor, c: Call, dir: map<nat, nat>, next: nat, locked: map<nat, Actor>, c': Call,
                     dir': map<nat, nat>, next': nat, locked': map<nat, Actor>)
    ensures Holding(Holding(s, a, c, dir, next, locked), a, c', dir', next', locked')
         == Holding(s, a, c', dir', next', locked')
    ensures CallOf(Holding(s, a, c, dir, next, locked), a) == c
  {
    assert s.calls[a := c][a := c'] == s.calls[a := c'];
  }

  predicate IsAtAttempt(c: Call, start: int, n: nat) {
    c.at == Trying && c.start == start && c.attempt == n && c.locks == [] && c.file == None && c.unlink == None
  }

  /** The call may open the next file of its pair. */
  predicate MayOpen(s: State, a: Actor, c: Call) {
    && c.at == Trying && |c.locks| < 2 && c.attempt < 100
    && FirstPort(c.start, c.attempt) !in ReservedBy(s, a.process)
    && FirstPort(c.start, c.attempt) + 1 !in ReservedBy(s, a.process)
  }

  function NextPort(c: Call): nat {
    FirstPort(c.start, c.attempt) + |c.locks|
  }

  lemma OpenIsEnabled(s: State, a: Actor, c: Call)
    requires c == CallOf(s, a) && MayOpen(s, a, c)
    ensures Enabled(s, a, Open) && PortOf(c.start, c.attempt, |c.locks|) == NextPort(c)
  {
    PortsAreNeighbours(c.start, c.attempt);
  }

  /** The next file of the pair is opened, created if need be. */
  lemma OpenNext(s: State, a: Actor, c: Call, port: nat, i: nat, t: State)
    requires c == CallOf(s, a) && MayOpen(s, a, c) && port == NextPort(c) && i == InodeOf(s.dir, s.nextInode, port)
    requires t == Holding(s, a, c.(at := Opened, file := Some(File(port, i))), s.dir[port := i],
                          NextAfter(s.dir, s.nextInode, port), s.locked)
    ensures Gets(s, a, t)
  {
    OpenIsEnabled(s, a, c);
    if port in s.dir { assert s.dir[port := i] == s.dir; }
    StepGets(s, a, Open, t);
  }

  lemma LockOpened(s: State, a: Actor, c: Call, file: File, t: State)
    requires c == CallOf(s, a) && c.at == Opened && c.file == Some(file) && file.inode !in s.locked
    requires t == Holding(s, a, c.(at := Trying, file := None, locks := c.locks + [file]), s.dir, s.nextInode,
                          s.locked[file.inode := a])
    ensures Gets(s, a, t)
  {
    StepGets(s, a, TryLock, t);
  }

  lemma RefuseOpened(s: State, a: Actor, c: Call, file: File, t: State)
    requires c == CallOf(s, a) && c.at == Opened && c.file == Some(file) && file.inode in s.locked
    requires t == Holding(s, a, c.(at := Backing, file := None, resume := true), s.dir, s.nextInode, s.locked)
    ensures Gets(s, a, t)
  {
    StepGets(s, a, TryLock, t);
  }

  /** A file of the pair that nobody holds a lock on is opened and locked. */
  lemma TakeNext(s: State, a: Actor, c: Call, port: nat, i: nat, t: State)
    requires c == CallOf(s, a) && MayOpen(s, a, c) && c.file == None
    requires port == NextPort(c) && i == InodeOf(s.dir, s.nextInode, port) && i !in s.locked
    requires t == Holding(s, a, c.(locks := c.locks + [File(port, i)]), s.dir[port := i],
                          NextAfter(s.dir, s.nextInode, port), s.locked[i := a])
    ensures Gets(s, a, t)
  {
    var c1, c2 := c.(at := Opened, file := Some(File(port, i))), c.(locks := c.locks + [File(port, i)]);
    var dir, next := s.dir[port := i], NextAfter(s.dir, s.nextInode, port);
    var m := Holding(s, a, c1, dir, next, s.locked);
    OpenNext(s, a, c, port, i, m);
    HoldingAgain(s, a, c1, dir, next, s.locked, c2, dir, next, s.locked[i := a]);
    LockOpened(m, a, c1, File(port, i), t);
    GetsOn(s, a, m, t);
  }

  /** The next file of the pair is locked by somebody, which ends the attempt. */
  lemma RefuseNext(s: State, a: Actor, c: Call, port: nat, t: State)
    requires c == CallOf(s, a) && MayOpen(s, a, c) && c.file == None && port == NextPort(c)
    requires port in s.dir && s.dir[port] in s.locked
    requires t == Holding(s, a, c.(at := Backing, resume := true), s.dir, s.nextInode, s.locked)
    ensures Gets(s, a, t)
  {
    var i := s.dir[port];
    var c1 := c.(at := Opened, file := Some(File(port, i)));
    assert s.dir[port := i] == s.dir;
    var m := Holding(s, a, c1, s.dir, s.nextInode, s.locked);
    OpenNext(s, a, c, port, i, m);
    HoldingAgain(s, a, c1, s.dir, s.nextInode, s.locked, c.(at := Backing, resume := true), s.dir, s.nextInode,
                 s.locked);
    RefuseOpened(m, a, c1, File(port, i), t);
    GetsOn(s, a, m, t);
  }

  /** The last file taken is unlocked and unlinked. */
  lemma BackOne(s: State, a: Actor, c: Call, ls: seq<File>, file: File, t: State)
    requires c == CallOf(s, a) && c.at == Backing && c.unlink == None && c.locks == ls + [file]
    requires t == Holding(s, a, c.(locks := ls), s.dir - {file.port}, s.nextInode, s.locked - {file.inode})
    ensures Gets(s, a, t)
  {
    var c1 := c.(locks := ls, unlink := Some(file.port));
    var locked := s.locked - {file.inode};
    var m := Holding(s, a, c1, s.dir, s.nextInode, locked);
    StepGets(s, a, BackUnlock, m);
    HoldingAgain(s, a, c1, s.dir, s.nextInode, locked, c.(locks := ls), s.dir - {file.port}, s.nextInode, locked);
    StepGets(m, a, BackUnlink, t);
    GetsOn(s, a, m, t);
  }

  lemma BackOut(s: State, a: Actor, c: Call, t: State)
    requires c == CallOf(s, a) && c.at == Backing && c.unlink == None && c.locks == [] && c.resume
    requires t == Holding(s, a, c.(at := Trying, attempt := c.attempt + 1), s.dir, s.nextInode, s.locked)
    ensures Gets(s, a, t)
  {
    StepGets(s, a, BackDone, t);
  }

  /** A pair this process remembers is passed over. */
  lemma PassOverRemembered(s: State, a: Actor, c: Call, port: nat, t: State)
    requires c == CallOf(s, a) && IsAtAttempt(c, c.start, c.attempt) && c.attempt < 100
    requires port == FirstPort(c.start, c.attempt)
    requires port in ReservedBy(s, a.process) || port + 1 in ReservedBy(s, a.process)
    requires t == Holding(s, a, c.(attempt := c.attempt + 1), s.dir, s.nextInode, s.locked)
    ensures Gets(s, a, t)
  {
    PortsAreNeighbours(c.start, c.attempt);
    assert port in PortsOf(c.start, c.attempt) && port + 1 in PortsOf(c.start, c.attempt);
    StepGets(s, a, SkipReserved, t);
  }

  /** A pair whose first file is locked is passed over. */
  lemma PassOverFirst(s: State, a: Actor, c: Call, port: nat, t: State)
    requires c == CallOf(s, a) && MayOpen(s, a, c) && IsAtAttempt(c, c.start, c.attempt)
    requires port == FirstPort(c.start, c.attempt) && port in s.dir && s.dir[port] in s.locked
    requires t == Holding(s, a, c.(attempt := c.attempt + 1, resume := true), s.dir, s.nextInode, s.locked)
    ensures Gets(s, a, t)
  {
    var c1 := c.(at := Backing, resume := true);
    var m := Holding(s, a, c1, s.dir, s.nextInode, s.locked);
    RefuseNext(s, a, c, port, m);
    HoldingAgain(s, a, c1, s.dir, s.nextInode, s.locked, c.(attempt := c.attempt + 1, resume := true), s.dir,
                 s.nextInode, s.locked);
    BackOut(m, a, c1, t);
    GetsOn(s, a, m, t);
  }

  lemma TakeAndBeRefused(s: State, a: Actor, c: Call, file: File, t: State)
    requires c == CallOf(s, a) && MayOpen(s, a, c) && c.locks == [] && c.file == None && c.unlink == None
    requires file == File(FirstPort(c.start, c.attempt), s.nextInode)
    requires file.port !in s.dir && file.inode !in s.locked
    requires file.port + 1 in s.dir && s.dir[file.port + 1] in s.locked
    requires t == Holding(s, a, c.(locks := [file], at := Backing, resume := true),
                          s.dir[file.port := file.inode], file.inode + 1, s.locked[file.inode := a])
    ensures Gets(s, a, t)
  {
    var dir, next, locked := s.dir[file.port := file.inode], file.inode + 1, s.locked[file.inode := a];
    var c1, c2 := c.(locks := [file]), c.(locks := [file], at := Backing, resume := true);
    var m := Holding(s, a, c1, dir, next, locked);
    assert c.locks + [file] == [file];
    TakeNext(s, a, c, file.port, file.inode, m);
    HoldingAgain(s, a, c1, dir, next, locked, c2, dir, next, locked);
    RefuseNext(m, a, c1, file.port + 1, t);
    GetsOn(s, a, m, t);
  }

  lemma BackOutOfOne(s: State, a: Actor, c: Call, file: File, t: State)
    requires c == CallOf(s, a) && c.at == Backing && c.unlink == None && c.locks == [file] && c.resume
    requires t == Holding(s, a, c.(at := Trying, locks := [], attempt := c.attempt + 1), s.dir - {file.port},
                          s.nextInode, s.locked - {file.inode})
    ensures Gets(s, a, t)
  {
    var dir, locked := s.dir - {file.port}, s.locked - {file.inode};
    var c1 := c.(locks := []);
    var m := Holding(s, a, c1, dir, s.nextInode, locked);
    assert c.locks == [] + [file];
    BackOne(s, a, c, [], file, m);
    HoldingAgain(s, a, c1, dir, s.nextInode, locked, c.(at := Trying, locks := [], attempt := c.attempt + 1), dir,
                 s.nextInode, locked);
    BackOut(m, a, c1, t);
    GetsOn(s, a, m, t);
  }

  /** A pair whose second file only is locked is passed over; the first file is taken and removed again. */
  lemma PassOverSecond(s: State, a: Actor, c: Call, file: File, t: State)
    requires c == CallOf(s, a) && MayOpen(s, a, c) && IsAtAttempt(c, c.start, c.attempt)
    requires file == File(FirstPort(c.start, c.attempt), s.nextInode)
    requires file.port !in s.dir && file.inode !in s.locked
    requires file.port + 1 in s.dir && s.dir[file.port + 1] in s.locked
    requires t == Holding(s, a, c.(attempt := c.attempt + 1, resume := true), s.dir, s.nextInode + 1, s.locked)
    ensures Gets(s, a, t)
  {
    var dir, next, locked := s.dir[file.port := file.inode], s.nextInode + 1, s.locked[file.inode := a];
    var c2 := c.(locks := [file], at := Backing, resume := true);
    var m := Holding(s, a, c2, dir, next, locked);
    TakeAndBeRefused(s, a, c, file, m);
    assert dir - {file.port} == s.dir && locked - {file.inode} == s.locked;
    HoldingAgain(s, a, c2, dir, next, locked, c.(attempt := c.attempt + 1, resume := true), s.dir, next, s.locked);
    BackOutOfOne(m, a, c2, file, t);
    GetsOn(s, a, m, t);
  }

  lemma TakeBoth(s: State, a: Actor, c: Call, f: File, g: File, t: State)
    requires c == CallOf(s, a) && MayOpen(s, a, c) && c.locks == [] && c.file == None
    requires f == File(FirstPort(c.start, c.attempt), s.nextInode) && g == File(f.port + 1, s.nextInode + 1)
    requires f.port !in s.dir && g.port !in s.dir && f.inode !in s.locked && g.inode !in s.locked
    requires t == Holding(s, a, c.(locks := [f, g]), s.dir[f.port := f.inode][g.port := g.inode], g.inode + 1,
                          s.locked[f.inode := a][g.inode := a])
    ensures Gets(s, a, t)
  {
    var dir, locked := s.dir[f.port := f.inode], s.locked[f.inode := a];
    var c1, c2 := c.(locks := [f]), c.(locks := [f, g]);
    var m := Holding(s, a, c1, dir, g.inode, locked);
    assert c.locks + [f] == [f] && c1.locks + [g] == [f, g];
    TakeNext(s, a, c, f.port, f.inode, m);
    HoldingAgain(s, a, c1, dir, g.inode, locked, c2, dir[g.port := g.inode], g.inode + 1, locked[g.inode := a]);
    TakeNext(m, a, c1, g.port, g.inode, t);
    GetsOn(s, a, m, t);
  }

  /** The call leaves, with what it reserved, or with nothing. */
  lemma Leave(s: State, a: Actor, c: Call, t: State)
    requires c == CallOf(s, a) && c.at == Leaving
    requires t == s.(calls := s.calls[a := if c.locks == [] then IDLE else c.(at := Live)], guard := None,
                     mutex := s.mutex - {a.process})
    ensures Gets(s, a, t)
  {
    var m := s.(calls := s.calls[a := c.(at := Left)], guard := None);
    var c2 := if c.locks == [] then IDLE else c.(at := Live);
    StepGets(s, a, LeaveGuard, m);
    assert m.calls[a := c2] == t.calls;
    StepGets(m, a, LeaveMutex, t);
    GetsOn(s, a, m, t);
  }

  /** A call that holds the locks of its pair can remember the pair and leave with it. */
  lemma Keep(s: State, a: Actor, c: Call, port: nat, t: State)
    requires c == CallOf(s, a) && c.at == Trying && |c.locks| == 2 && port == FirstPort(c.start, c.attempt)
    requires t == s.(calls := s.calls[a := c.(at := Live, ports := {port, port + 1})], guard := None,
                     mutex := s.mutex - {a.process},
                     reserved := s.reserved[a.process := ReservedBy(s, a.process) + {port, port + 1}])
    ensures Gets(s, a, t)
  {
    var c1, c2 := c.(at := Leaving, ports := {port, port + 1}), c.(at := Live, ports := {port, port + 1});
    var reserved := s.reserved[a.process := ReservedBy(s, a.process) + {port, port + 1}];
    var m := s.(calls := s.calls[a := c1], reserved := reserved);
    PortsAreNeighbours(c.start, c.attempt);
    StepGets(s, a, BindSucceeds, m);
    assert m.calls[a := c2] == t.calls;
    Leave(m, a, c1, t);
    assert c1.(at := Live) == c2;
    GetsOn(s, a, m, t);
  }

  // ----- The whole call -----

  /** The process can have the pair: it remembers neither port and neither file is there. */
  predicate IsFree(s: State, process: nat, port: nat) {
    && port !in ReservedBy(s, process) && port + 1 !in ReservedBy(s, process)
    && port !in s.dir && port + 1 !in s.dir
  }

  /** Every file that is there is locked, and every lock is on a file that was created. */
  ghost predicate IsSwept(s: State) {
    && (forall p :: p in s.dir ==> s.dir[p] in s.locked)
    && (forall i :: i in s.locked ==> i < s.nextInode)
  }

  /** A pair that is not free is passed over, and nothing else changes. */
  lemma NextPair(s: State, a: Actor, start: int, n: nat) returns (t: State)
    requires IsAtAttempt(CallOf(s, a), start, n) && n < 100 && IsSwept(s)
    requires !IsFree(s, a.process, FirstPort(start, n))
    ensures IsAtAttempt(CallOf(t, a), start, n + 1) && IsSwept(t) && Gets(s, a, t)
    ensures t.nextInode >= s.nextInode
    ensures t == s.(calls := s.calls[a := CallOf(t, a)], nextInode := t.nextInode)
  {
    var c, port := CallOf(s, a), FirstPort(start, n);
    var remembered := port in ReservedBy(s, a.process) || port + 1 in ReservedBy(s, a.process);
    if remembered {
      t := Holding(s, a, c.(attempt := n + 1), s.dir, s.nextInode, s.locked);
      PassOverRemembered(s, a, c, port, t);
    } else if port in s.dir {
      t := Holding(s, a, c.(attempt := n + 1, resume := true), s.dir, s.nextInode, s.locked);
      PassOverFirst(s, a, c, port, t);
    } else {
      t := Holding(s, a, c.(attempt := n + 1, resume := true), s.dir, s.nextInode + 1, s.locked);
      PassOverSecond(s, a, c, File(port, s.nextInode), t);
    }
  }

  predicate IsFirstFree(s: State, process: nat, start: int, n: nat, found: nat) {
    && n <= found <= 100 && (found < 100 ==> IsFree(s, process, FirstPort(start, found)))
    && forall i :: n <= i < found ==> !IsFree(s, process, FirstPort(start, i))
  }

  /** Every pair up to the first free one is passed over. */
  lemma {:induction false} PassOverAll(s: State, a: Actor, start: int, n: nat, found: nat) returns (t: State)
    requires IsAtAttempt(CallOf(s, a), start, n) && IsSwept(s) && IsFirstFree(s, a.process, start, n, found)
    ensures IsAtAttempt(CallOf(t, a), start, found) && IsSwept(t) && Gets(s, a, t)
    ensures t.nextInode >= s.nextInode
    ensures t == s.(calls := s.calls[a := CallOf(t, a)], nextInode := t.nextInode)
    decreases found - n
  {
    if n == found {
      t := s;
      assert a in s.calls && s.calls[a := s.calls[a]] == s.calls;
      StayingGets(s, a);
    } else {
      var m := NextPair(s, a, start, n);
      assert forall i :: n + 1 <= i <= found ==>
          IsFree(m, a.process, FirstPort(start, i)) == IsFree(s, a.process, FirstPort(start, i));
      t := PassOverAll(m, a, start, n + 1, found);
      assert s.calls[a := CallOf(m, a)][a := CallOf(t, a)] == s.calls[a := CallOf(t, a)];
      GetsOn(s, a, m, t);
    }
  }

  /** A call that begins alone gets to its first attempt, the files nobody holds a lock on gone. */
  lemma Enter(s: State, a: Actor, start: int) returns (t: State)
    requires CallOf(s, a) == IDLE && a.process !in s.mutex && s.guard == None
    ensures IsAtAttempt(CallOf(t, a), start, 0) && Gets(s, a, t)
    ensures t == s.(calls := s.calls[a := CallOf(t, a)], dir := Swept(s.dir, s.dir.Keys, s.locked), guard := Some(a),
                    mutex := s.mutex[a.process := a])
  {
    var mutex := s.mutex[a.process := a];
    var c1 := IDLE.(at := Entering, start := start);
    var c2 := c1.(at := Sweeping, todo := s.dir.Keys);
    var c3 := c2.(todo := {});
    var c4 := c3.(at := Trying);
    var dir := Swept(s.dir, s.dir.Keys, s.locked);
    var s1, s2 := s.(calls := s.calls[a := c1], mutex := mutex), s.(calls := s.calls[a := c2], mutex := mutex,
                                                                    guard := Some(a));
    var s3 := s.(calls := s.calls[a := c3], mutex := mutex, guard := Some(a), dir := dir);
    t := s.(calls := s.calls[a := c4], mutex := mutex, guard := Some(a), dir := dir);
    StepGets(s, a, Begin(start), s1);
    assert s1.calls[a := c2] == s2.calls && s2.calls[a := c3] == s3.calls && s3.calls[a := c4] == t.calls;
    StepGets(s1, a, TakeGuard(true), s2);
    SweepClears(s2, a, c2, s3);
    StepGets(s3, a, SweepDone, t);
    GetsOn(s, a, s1, s2);
    GetsOn(s, a, s2, s3);
    GetsOn(s, a, s3, t);
  }

  /** The pair a call left alone can have: the first one in the circle of which the process remembers no port
      and nobody holds a file. */
  predicate IsFound(s: State, process: nat, start: int, found: nat) {
    IsFirstFree(s.(dir := Swept(s.dir, s.dir.Keys, s.locked)), process, start, 0, found)
  }

  lemma EnterSweeps(s: State, t: State)
    requires LocksExist(s) && t.dir == Swept(s.dir, s.dir.Keys, s.locked) && t.locked == s.locked
    requires t.nextInode == s.nextInode && t.reserved == s.reserved
    ensures IsSwept(t)
    ensures forall process, start, found :: IsFound(s, process, start, found) <==>
              IsFirstFree(t, process, start, 0, found)
  {
  }

  /** A call left alone can get to the attempt for the first pair it can have, or past the last attempt. */
  lemma Seek(s: State, a: Actor, start: int, found: nat) returns (t: State)
    requires CallOf(s, a) == IDLE && a.process !in s.mutex && s.guard == None && LocksExist(s)
    requires IsFound(s, a.process, start, found)
    ensures IsAtAttempt(CallOf(t, a), start, found) && IsSwept(t) && Gets(s, a, t) && t.nextInode >= s.nextInode
    ensures found < 100 ==> IsFree(t, a.process, FirstPort(start, found))
    ensures t == s.(calls := s.calls[a := CallOf(t, a)], nextInode := t.nextInode,
                    dir := Swept(s.dir, s.dir.Keys, s.locked), guard := Some(a), mutex := s.mutex[a.process := a])
  {
    var m := Enter(s, a, start);
    EnterSweeps(s, m);
    t := PassOverAll(m, a, start, 0, found);
    assert s.calls[a := CallOf(m, a)][a := CallOf(t, a)] == s.calls[a := CallOf(t, a)];
    GetsOn(s, a, m, t);
  }

  lemma TakeAndKeep(s: State, a: Actor, c: Call, f: File, g: File, t: State)
    requires c == CallOf(s, a) && IsAtAttempt(c, c.start, c.attempt) && c.attempt < 100 && IsSwept(s)
    requires f == File(FirstPort(c.start, c.attempt), s.nextInode) && g == File(f.port + 1, s.nextInode + 1)
    requires IsFree(s, a.process, f.port)
    requires t == s.(calls := s.calls[a := c.(at := Live, locks := [f, g], ports := {f.port, g.port})],
                     dir := s.dir[f.port := f.inode][g.port := g.inode], nextInode := g.inode + 1,
                     locked := s.locked[f.inode := a][g.inode := a], guard := None, mutex := s.mutex - {a.process},
                     reserved := s.reserved[a.process := ReservedBy(s, a.process) + {f.port, g.port}])
    ensures Gets(s, a, t)
  {
    var c2 := c.(locks := [f, g]);
    var m := Holding(s, a, c2, t.dir, t.nextInode, t.locked);
    TakeBoth(s, a, c, f, g, m);
    assert m.calls[a := c2.(at := Live, ports := {f.port, g.port})] == t.calls;
    Keep(m, a, c2, f.port, t);
    GetsOn(s, a, m, t);
  }

  /** A call left alone can reserve the first pair it can have: it then holds the locks of two new files and
      its process remembers the two ports. Of the other files only the locked ones are left. */
  lemma FreePairIsReserved(s: State, a: Actor, start: int, found: nat) returns (t: State, i: nat)
    requires CallOf(s, a) == IDLE && a.process !in s.mutex && s.guard == None && LocksExist(s)
    requires IsFound(s, a.process, start, found) && found < 100
    ensures Gets(s, a, t) && i >= s.nextInode && CallOf(t, a).at == Live
    ensures var p := FirstPort(start, found);
            && CallOf(t, a).ports == {p, p + 1} && CallOf(t, a).locks == [File(p, i), File(p + 1, i + 1)]
            && t == s.(calls := s.calls[a := CallOf(t, a)], nextInode := i + 2,
                       dir := Swept(s.dir, s.dir.Keys, s.locked)[p := i][p + 1 := i + 1],
                       locked := s.locked[i := a][i + 1 := a],
                       reserved := s.reserved[a.process := ReservedBy(s, a.process) + {p, p + 1}])
  {
    var m := Seek(s, a, start, found);
    var c, p := CallOf(m, a), FirstPort(start, found);
    i := m.nextInode;
    var f, g := File(p, i), File(p + 1, i + 1);
    var c2 := c.(at := Live, locks := [f, g], ports := {p, p + 1});
    t := m.(calls := s.calls[a := c2], dir := m.dir[p := i][p + 1 := i + 1], nextInode := i + 2,
            locked := s.locked[i := a][i + 1 := a], guard := None, mutex := s.mutex,
            reserved := s.reserved[a.process := ReservedBy(s, a.process) + {p, p + 1}]);
    assert m.calls[a := c2] == t.calls && m.mutex - {a.process} == s.mutex;
    TakeAndKeep(m, a, c, f, g, t);
    GetsOn(s, a, m, t);
  }

  /** Without such a pair it can give up, with nothing changed but the files nobody holds a lock on. */
  lemma NoFreePairGivesUp(s: State, a: Actor, start: int) returns (t: State)
    requires CallOf(s, a) == IDLE && a.process !in s.mutex && s.guard == None && LocksExist(s)
    requires IsFound(s, a.process, start, 100)
    ensures Gets(s, a, t)
    ensures t == s.(calls := s.calls[a := IDLE], nextInode := t.nextInode,
                    dir := Swept(s.dir, s.dir.Keys, s.locked))
  {
    var m := Seek(s, a, start, 100);
    var c := CallOf(m, a).(at := Leaving);
    var m2 := m.(calls := s.calls[a := c]);
    assert m.calls[a := c] == m2.calls;
    StepGets(m, a, GiveUp, m2);
    t := m.(calls := s.calls[a := IDLE], guard := None, mutex := s.mutex);
    assert m2.calls[a := IDLE] == t.calls && m2.mutex - {a.process} == s.mutex;
    Leave(m2, a, c, t);
    GetsOn(s, a, m, m2);
    GetsOn(s, a, m2, t);
  }

  // ----- Giving a pair back -----

  /** The last file held is unlocked and unlinked. */
  lemma DropOne(s: State, a: Actor, c: Call, ls: seq<File>, file: File, t: State)
    requires c == CallOf(s, a) && c.at == Dropping && c.unlink == None && c.locks == ls + [file]
    requires t == Holding(s, a, c.(locks := ls), s.dir - {file.port}, s.nextInode, s.locked - {file.inode})
    ensures Gets(s, a, t)
  {
    var c1 := c.(locks := ls, unlink := Some(file.port));
    var locked := s.locked - {file.inode};
    var m := Holding(s, a, c1, s.dir, s.nextInode, locked);
    StepGets(s, a, DropUnlock, m);
    HoldingAgain(s, a, c1, s.dir, s.nextInode, locked, c.(locks := ls), s.dir - {file.port}, s.nextInode, locked);
    StepGets(m, a, DropUnlink, t);
    GetsOn(s, a, m, t);
  }

  lemma DropBoth(s: State, a: Actor, c: Call, f: File, g: File, t: State)
    requires c == CallOf(s, a) && c.at == Dropping && c.unlink == None && c.locks == [f, g]
    requires t == Holding(s, a, c.(locks := []), s.dir - {f.port, g.port}, s.nextInode, s.locked - {f.inode, g.inode})
    ensures Gets(s, a, t)
  {
    var c1 := c.(locks := [f]);
    var dir, locked := s.dir - {g.port}, s.locked - {g.inode};
    var m := Holding(s, a, c1, dir, s.nextInode, locked);
    assert [f, g] == [f] + [g] && [f] == [] + [f];
    DropOne(s, a, c, [f], g, m);
    assert dir - {f.port} == s.dir - {f.port, g.port} && locked - {f.inode} == s.locked - {f.inode, g.inode};
    HoldingAgain(s, a, c1, dir, s.nextInode, locked, c.(locks := []), t.dir, s.nextInode, t.locked);
    DropOne(m, a, c1, [], f, t);
    GetsOn(s, a, m, t);
  }

  lemma StartReturn(s: State, a: Actor, c: Call, t: State)
    requires c == CallOf(s, a) && c.at == Live && s.guard == None
    requires t == s.(calls := s.calls[a := c.(at := Dropping)], guard := Some(a))
    ensures Gets(s, a, t)
  {
    var m := s.(calls := s.calls[a := c.(at := Returning)]);
    StepGets(s, a, Release, m);
    assert m.calls[a := c.(at := Dropping)] == t.calls;
    StepGets(m, a, ReturnGuard, t);
    GetsOn(s, a, m, t);
  }

  lemma EndReturn(s: State, a: Actor, c: Call, t: State)
    requires c == CallOf(s, a) && c.at == Dropping && c.locks == [] && c.unlink == None && a.process !in s.mutex
    requires t == s.(calls := s.calls[a := IDLE], guard := None,
                     reserved := s.reserved[a.process := ReservedBy(s, a.process) - c.ports])
    ensures Gets(s, a, t)
  {
    var m := s.(calls := s.calls[a := c.(at := Forgetting)], guard := None);
    StepGets(s, a, DropDone, m);
    assert m.calls[a := IDLE] == t.calls;
    StepGets(m, a, Forget, t);
    GetsOn(s, a, m, t);
  }

  /** A reservation given back while nobody holds the guard leaves no file, no lock and no memory of it. */
  lemma GivenBack(s: State, a: Actor, c: Call, f: File, g: File, t: State)
    requires c == CallOf(s, a) && c.at == Live && c.locks == [f, g] && c.unlink == None
    requires s.guard == None && a.process !in s.mutex
    requires t == s.(calls := s.calls[a := IDLE], dir := s.dir - {f.port, g.port},
                     locked := s.locked - {f.inode, g.inode},
                     reserved := s.reserved[a.process := ReservedBy(s, a.process) - c.ports])
    ensures Gets(s, a, t)
  {
    var c1, c2 := c.(at := Dropping), c.(at := Dropping, locks := []);
    var s1 := s.(calls := s.calls[a := c1], guard := Some(a));
    var s2 := s1.(calls := s.calls[a := c2], dir := t.dir, locked := t.locked);
    StartReturn(s, a, c, s1);
    assert s1.calls[a := c2] == s2.calls && s2.calls[a := IDLE] == t.calls;
    DropBoth(s1, a, c1, f, g, s2);
    GetsOn(s, a, s1, s2);
    EndReturn(s2, a, c2, t);
    GetsOn(s, a, s2, t);
  }

  /** A reservation given back without the guard leaves its files, but neither lock nor memory of it. */
  lemma GivenBackUnguarded(s: State, a: Actor, c: Call, f: File, g: File, t: State)
    requires c == CallOf(s, a) && c.at == Live && c.locks == [f, g] && a.process !in s.mutex
    requires t == s.(calls := s.calls[a := IDLE], locked := s.locked - {f.inode, g.inode},
                     reserved := s.reserved[a.process := ReservedBy(s, a.process) - c.ports])
    ensures Gets(s, a, t)
  {
    var c1, c2 := c.(at := Closing), c.(at := Closing, locks := []);
    var s1, s2 := s.(calls := s.calls[a := c1]), s.(calls := s.calls[a := c2], locked := t.locked);
    StartClosing(s, a, c, s1);
    assert s1.calls[a := c2] == s2.calls && s2.calls[a := IDLE] == t.calls;
    CloseBoth(s1, a, c1, f, g, s2);
    GetsOn(s, a, s1, s2);
    EndClosing(s2, a, c2, t);
    GetsOn(s, a, s2, t);
  }

  lemma StartClosing(s: State, a: Actor, c: Call, t: State)
    requires c == CallOf(s, a) && c.at == Live && t == s.(calls := s.calls[a := c.(at := Closing)])
    ensures Gets(s, a, t)
  {
    var m := s.(calls := s.calls[a := c.(at := Returning)]);
    StepGets(s, a, Release, m);
    assert m.calls[a := c.(at := Closing)] == t.calls;
    StepGets(m, a, ReturnUnguarded, t);
    GetsOn(s, a, m, t);
  }

  lemma CloseBoth(s: State, a: Actor, c: Call, f: File, g: File, t: State)
    requires c == CallOf(s, a) && c.at == Closing && c.locks == [f, g]
    requires t == s.(calls := s.calls[a := c.(locks := [])], locked := s.locked - {f.inode, g.inode})
    ensures Gets(s, a, t)
  {
    var m := s.(calls := s.calls[a := c.(locks := [g])], locked := s.locked - {f.inode});
    assert [f, g][1..] == [g] && [g][1..] == [];
    StepGets(s, a, CloseLock, m);
    assert m.calls[a := c.(locks := [])] == t.calls && m.locked - {g.inode} == t.locked;
    StepGets(m, a, CloseLock, t);
    GetsOn(s, a, m, t);
  }

  lemma EndClosing(s: State, a: Actor, c: Call, t: State)
    requires c == CallOf(s, a) && c.at == Closing && c.locks == [] && a.process !in s.mutex
    requires t == s.(calls := s.calls[a := IDLE],
                     reserved := s.reserved[a.process := ReservedBy(s, a.process) - c.ports])
    ensures Gets(s, a, t)
  {
    var m := s.(calls := s.calls[a := c.(at := Forgetting)]);
    StepGets(s, a, CloseDone, m);
    assert m.calls[a := IDLE] == t.calls;
    StepGets(m, a, Forget, t);
    GetsOn(s, a, m, t);
  }

  // ----- A call that fails -----

  /** What is left after an attempt has backed out of its files. */
  function BackedOut(s: State, a: Actor, c: Call, files: seq<File>): State {
    s.(calls := s.calls[a := c], dir := s.dir - PortSet(files),
       locked := s.locked - (set f | f in files :: f.inode))
  }

  lemma {:induction false} BackAll(s: State, a: Actor, c: Call, t: State)
    requires a in s.calls && c == CallOf(s, a) && c.at == Backing && c.unlink == None
    requires t == BackedOut(s, a, c.(locks := []), c.locks)
    ensures Gets(s, a, t)
    decreases |c.locks|
  {
    if c.locks == [] {
      assert c.(locks := []) == c && s.calls[a := c] == s.calls;
      assert s.dir - PortSet(c.locks) == s.dir && s.locked - (set f | f in c.locks :: f.inode) == s.locked;
      StayingGets(s, a);
    } else {
      var ls, file := c.locks[..|c.locks| - 1], c.locks[|c.locks| - 1];
      var m := Holding(s, a, c.(locks := ls), s.dir - {file.port}, s.nextInode, s.locked - {file.inode});
      assert c.locks == ls + [file];
      BackOne(s, a, c, ls, file, m);
      BackedOutAgain(s, a, c.(locks := ls), c.(locks := []), ls, file, m);
      BackAll(m, a, c.(locks := ls), t);
      GetsOn(s, a, m, t);
    }
  }

  lemma BackedOutAgain(s: State, a: Actor, c: Call, c': Call, ls: seq<File>, file: File, m: State)
    requires m == Holding(s, a, c, s.dir - {file.port}, s.nextInode, s.locked - {file.inode})
    ensures BackedOut(m, a, c', ls) == BackedOut(s, a, c', ls + [file])
  {
    var all := ls + [file];
    assert PortSet(all) == PortSet(ls) + {file.port};
    assert (set f | f in all :: f.inode) == (set f | f in ls :: f.inode) + {file.inode};
    assert s.dir - {file.port} - PortSet(ls) == s.dir - PortSet(all);
    assert m.locked - (set f | f in ls :: f.inode) == s.locked - (set f | f in all :: f.inode);
    assert s.calls[a := c][a := c'] == s.calls[a := c'];
  }

  /** A call that cannot bind the ports, and not because they are in use, gives up its files and leaves with
      nothing. */
  lemma FailedBindLeavesNothing(s: State, a: Actor, c: Call, t: State)
    requires c == CallOf(s, a) && c.at == Trying && |c.locks| == 2 && c.unlink == None
    requires t == BackedOut(s, a, IDLE, c.locks).(guard := None, mutex := s.mutex - {a.process})
    ensures Gets(s, a, t)
  {
    var c1 := c.(at := Backing, file := None, resume := false);
    var c2, c3 := c1.(locks := []), c1.(locks := [], at := Leaving);
    var s1 := s.(calls := s.calls[a := c1]);
    var s2, s3 := BackedOut(s, a, c2, c.locks), BackedOut(s, a, c3, c.locks);
    StepGets(s, a, BindFails, s1);
    assert s1.calls[a := c2] == s2.calls && s2.calls[a := c3] == s3.calls && s3.calls[a := IDLE] == t.calls;
    BackAll(s1, a, c1, s2);
    StepGets(s2, a, BackDone, s3);
    Leave(s3, a, c3, t);
    GetsOn(s, a, s1, s2);
    GetsOn(s, a, s2, s3);
    GetsOn(s, a, s3, t);
  }
}
