/** The resource manager cache (pkg/resource/table_bucket/manager_factory.go): any number of
    concurrent ManagerFor calls over one map and one read-write lock. The lock is released
    between the lookup and the store, and the store does not look again. */
module ManagerCache {
  import opened Types

  datatype Args = Args(id: string, region: string, roleARN: string)

  /** `fmt.Sprintf("%s/%s/%s", id, region, roleARN)` */
  function Key(a: Args): string {
    a.id + "/" + a.region + "/" + a.roleARN
  }

  /** A manager object: `serial` tells apart objects that were built separately. */
  datatype Manager = Manager(serial: nat, builtFor: Args)

  /** Where a call is: the lock it holds, what its lookup found, what it returned. */
  datatype Phase =
    | Started
    | Reading
    | Looked(found: Option<Manager>)
    | Missed
    | Writing
    | Stored(m: Manager)
    | Returned(m: Manager)

  datatype Call = Call(args: Args, phase: Phase)

  datatype State = State(
    cache: map<string, Manager>, calls: map<nat, Call>, readers: set<nat>, writer: Option<nat>, built: nat)

  const EMPTY := State(map[], map[], {}, None, 0)

  /** A new call arrives, or an existing one takes its next step if the lock lets it. */
  datatype Event = Begin(c: nat, args: Args) | Advance(c: nat)

  function At(s: State, c: nat, phase: Phase): State
    requires c in s.calls
  {
    s.(calls := s.calls[c := s.calls[c].(phase := phase)])
  }

  function Advanced(s: State, c: nat): State
    requires c in s.calls
  {
    var key := Key(s.calls[c].args);
    match s.calls[c].phase
    case Started => if s.writer.None? then At(s, c, Reading).(readers := s.readers + {c}) else s
    case Reading => At(s, c, Looked(if key in s.cache then Some(s.cache[key]) else None))
    case Looked(found) =>
      At(s, c, if found.Some? then Returned(found.value) else Missed).(readers := s.readers - {c})
    case Missed => if s.writer.None? && s.readers == {} then At(s, c, Writing).(writer := Some(c)) else s
    case Writing =>
      var m := Manager(s.built, s.calls[c].args);
      At(s, c, Stored(m)).(cache := s.cache[key := m], built := s.built + 1)
    case Stored(m) => At(s, c, Returned(m)).(writer := None)
    case Returned(_) => s
  }

  function Next(s: State, e: Event): State {
    match e
    case Begin(c, args) => if c in s.calls then s else s.(calls := s.calls[c := Call(args, Started)])
    case Advance(c) => if c in s.calls then Advanced(s, c) else s
  }

  function After(s: State, events: seq<Event>): State
    decreases |events|
  {
    if events == [] then s else After(Next(s, events[0]), events[1..])
  }

  // ----- The invariant -----

  predicate HoldsRead(p: Phase) {
    p.Reading? || p.Looked?
  }

  predicate HoldsWrite(p: Phase) {
    p.Writing? || p.Stored?
  }

  /** The manager a call has got hold of, if any. */
  function Got(p: Phase): Option<Manager> {
    match p
    case Looked(found) => found
    case Stored(m) => Some(m)
    case Returned(m) => Some(m)
    case _ => None
  }

  ghost predicate CallValid(s: State, c: nat)
    requires c in s.calls
  {
    var p, key := s.calls[c].phase, Key(s.calls[c].args);
    && (c in s.readers <==> HoldsRead(p))
    && (s.writer == Some(c) <==> HoldsWrite(p))
    && (Got(p).Some? ==> key in s.cache && Key(Got(p).value.builtFor) == key && Got(p).value.serial < s.built)
    && (p.Stored? ==> s.cache[key] == p.m)
  }

  ghost predicate Valid(s: State) {
    && (forall c :: c in s.calls ==> CallValid(s, c))
    && s.readers <= s.calls.Keys
    && (s.writer.Some? ==> s.writer.value in s.calls && s.readers == {})
    && (forall k :: k in s.cache ==> Key(s.cache[k].builtFor) == k && s.cache[k].serial < s.built)
  }

  /** What never happens: a key leaves the cache, a call disappears or changes its arguments, a
      returned manager is taken back. */
  ghost predicate Keeps(s: State, s': State) {
    && s.cache.Keys <= s'.cache.Keys
    && (forall c :: c in s.calls ==>
          && c in s'.calls
          && s'.calls[c].args == s.calls[c].args
          && (s.calls[c].phase.Returned? ==> s'.calls[c].phase == s.calls[c].phase))
  }

  lemma BeginIsSound(s: State, c: nat, args: Args)
    requires Valid(s) && c !in s.calls
    ensures Valid(s.(calls := s.calls[c := Call(args, Started)]))
  {
  }

  lemma AdvanceIsSound(s: State, c: nat)
    requires Valid(s) && c in s.calls
    ensures Valid(Advanced(s, c))
    ensures Keeps(s, Advanced(s, c))
  {
    hide Key;
    var s' := Advanced(s, c);
    assert CallValid(s, c);
    forall d | d in s'.calls
      ensures CallValid(s', d)
    {
      OthersStayValid(s, c, d);
    }
  }

  lemma OthersStayValid(s: State, c: nat, d: nat)
    requires c in s.calls && d in s.calls && CallValid(s, c) && CallValid(s, d)
    requires s.writer.Some? ==> s.readers == {}
    requires forall k :: k in s.cache ==> Key(s.cache[k].builtFor) == k && s.cache[k].serial < s.built
    ensures CallValid(Advanced(s, c), d)
  {
    hide Key;
  }

  lemma StepIsSound(s: State, e: Event)
    requires Valid(s)
    ensures Valid(Next(s, e)) && Keeps(s, Next(s, e))
  {
    hide Key, Valid, Advanced;
    match e
    case Begin(c, args) =>
      if c !in s.calls {
        BeginIsSound(s, c, args);
      }
    case Advance(c) =>
      if c in s.calls {
        AdvanceIsSound(s, c);
      }
  }

  /** Over every interleaving of any number of calls: each cached manager was built for the key
      it is cached under, each manager a call got hold of was built for that call's key, nobody
      reads while somebody writes, no key leaves the cache, and a returned manager stays returned. */
  lemma {:induction false} RunsAreValid(s: State, events: seq<Event>)
    requires Valid(s)
    ensures Valid(After(s, events)) && Keeps(s, After(s, events))
    decreases |events|
  {
    hide Key, Next, Valid;
    if events != [] {
      StepIsSound(s, events[0]);
      RunsAreValid(Next(s, events[0]), events[1..]);
    }
  }

  /** All of this holds of every state that calls can reach. */
  lemma ReachableIsValid(events: seq<Event>)
    ensures Valid(After(EMPTY, events))
  {
    assert Valid(EMPTY);
    RunsAreValid(EMPTY, events);
  }

  // ----- When an entry is final -----

  /** Call `c` has missed on `key` and has not stored yet. */
  ghost predicate MissOn(s: State, c: nat, key: string) {
    && c in s.calls
    && Key(s.calls[c].args) == key
    && (s.calls[c].phase == Looked(None) || s.calls[c].phase.Missed? || s.calls[c].phase.Writing?)
  }

  /** The entry for `key` is `m`, and no call that missed on `key` is in flight. */
  ghost predicate Settled(s: State, key: string, m: Manager) {
    key in s.cache && s.cache[key] == m && forall c :: !MissOn(s, c, key)
  }

  /** If call `c` is about `key`, it has no manager yet or has `m`. */
  ghost predicate Agrees(s: State, c: nat, key: string, m: Manager) {
    c in s.calls && Key(s.calls[c].args) == key ==> Got(s.calls[c].phase) in {None, Some(m)}
  }

  lemma NoNewMiss(s: State, e: Event, key: string, m: Manager, c: nat)
    requires Settled(s, key, m)
    ensures !MissOn(Next(s, e), c, key)
    ensures Agrees(s, c, key, m) ==> Agrees(Next(s, e), c, key, m)
  {
    hide Key;
    assert !MissOn(s, c, key);
  }

  lemma EntryStays(s: State, e: Event, key: string, m: Manager)
    requires Settled(s, key, m)
    ensures key in Next(s, e).cache && Next(s, e).cache[key] == m
  {
    hide Key;
    if e.Advance? {
      assert !MissOn(s, e.c, key);
    }
  }

  lemma SettledStep(s: State, e: Event, key: string, m: Manager)
    requires Settled(s, key, m)
    ensures Settled(Next(s, e), key, m)
  {
    hide Key, Next;
    EntryStays(s, e, key, m);
    forall c
      ensures !MissOn(Next(s, e), c, key)
    {
      NoNewMiss(s, e, key, m, c);
    }
  }

  /** Once no call that missed on a key is in flight, the key's entry never changes again,
      whatever calls arrive and however they interleave; and a call that has no manager for that
      key yet, or has not even begun, can only ever get that entry. */
  lemma {:induction false} SettledForever(s: State, events: seq<Event>, key: string, m: Manager, c: nat)
    requires Settled(s, key, m)
    ensures Settled(After(s, events), key, m)
    ensures Agrees(s, c, key, m) ==> Agrees(After(s, events), c, key, m)
    decreases |events|
  {
    hide Key, Next, Settled, Agrees;
    if events != [] {
      NoNewMiss(s, events[0], key, m, c);
      SettledStep(s, events[0], key, m);
      SettledForever(Next(s, events[0]), events[1..], key, m, c);
    }
  }

  // ----- And only then -----

  /** Call `c` still waits to write, nothing was taken back, and the serials only grew. */
  ghost predicate Waits(s: State, s': State, c: nat) {
    && Valid(s') && s.built <= s'.built
    && c in s.calls && c in s'.calls && s'.calls[c].args == s.calls[c].args && s'.calls[c].phase.Missed?
  }

  /** One step of another call leaves a waiting call waiting. */
  lemma OtherStep(s: State, c: nat, d: nat)
    requires Waits(s, s, c) && d in s.calls && d != c
    ensures Waits(s, Advanced(s, d), c)
  {
    hide Key, Valid;
    AdvanceIsSound(s, d);
  }

  lemma OneStep(s: State, c: nat)
    requires c in s.calls
    ensures After(s, [Advance(c)]) == Advanced(s, c)
  {
    hide Advanced;
    assert [Advance(c)][1..] == [];
    assert After(Advanced(s, c), []) == Advanced(s, c);
  }

  /** The writer stores and lets go. */
  lemma WriterLeaves(s: State, c: nat) returns (events: seq<Event>)
    requires Waits(s, s, c)
    ensures Waits(s, After(s, events), c) && After(s, events).writer.None?
  {
    hide Key;
    if s.writer.None? {
      return [];
    }
    var d := s.writer.value;
    assert CallValid(s, d) && CallValid(s, c);
    OtherStep(s, c, d);
    OneStep(s, d);
    var s1 := Advanced(s, d);
    if s.calls[d].phase.Stored? {
      return [Advance(d)];
    }
    OtherStep(s1, c, d);
    OneStep(s1, d);
    AfterAppend(s, [Advance(d)], [Advance(d)]);
    return [Advance(d)] + [Advance(d)];
  }

  /** The readers leave, one after the other. */
  lemma {:induction false} ReadersLeave(s: State, c: nat) returns (events: seq<Event>)
    requires Waits(s, s, c) && s.writer.None?
    ensures Waits(s, After(s, events), c) && After(s, events).writer.None? && After(s, events).readers == {}
    decreases s.readers
  {
    hide Key;
    if s.readers == {} {
      return [];
    }
    var d :| d in s.readers;
    assert CallValid(s, d) && CallValid(s, c);
    var first := ReaderLeaves(s, c, d);
    var s1 := After(s, first);
    var rest := ReadersLeave(s1, c);
    AfterAppend(s, first, rest);
    events := first + rest;
  }

  lemma ReaderLeaves(s: State, c: nat, d: nat) returns (events: seq<Event>)
    requires Waits(s, s, c) && s.writer.None? && d in s.readers && d in s.calls && d != c
    ensures var s' := After(s, events); Waits(s, s', c) && s'.writer.None? && s'.readers == s.readers - {d}
  {
    hide Key, After;
    assert CallValid(s, d);
    OtherStep(s, c, d);
    OneStep(s, d);
    if s.calls[d].phase.Looked? {
      return [Advance(d)];
    }
    var s1 := Advanced(s, d);
    OtherStep(s1, c, d);
    OneStep(s1, d);
    AfterAppend(s, [Advance(d)], [Advance(d)]);
    return [Advance(d)] + [Advance(d)];
  }

  /** A call that missed can always be led to store, and what it stores is new. */
  lemma MissStores(s: State, c: nat, key: string) returns (events: seq<Event>)
    requires Valid(s) && MissOn(s, c, key)
    ensures var s' := After(s, events); key in s'.cache && s'.cache[key].serial >= s.built
  {
    hide Key, After;
    assert CallValid(s, c);
    OneStep(s, c);
    if s.calls[c].phase.Writing? {
      return [Advance(c)];
    }
    var first: seq<Event>, s1 := [], s;
    if s.calls[c].phase.Looked? {
      first, s1 := [Advance(c)], Advanced(s, c);
      AdvanceIsSound(s, c);
    } else {
      NoEvents(s);
    }
    var second := WriterLeaves(s1, c);
    var s2 := After(s1, second);
    var third := ReadersLeave(s2, c);
    var s3 := After(s2, third);
    OneStep(s3, c);
    OneStep(Advanced(s3, c), c);
    AfterAppend(s3, [Advance(c)], [Advance(c)]);
    AfterAppend(s2, third, [Advance(c)] + [Advance(c)]);
    AfterAppend(s1, second, third + ([Advance(c)] + [Advance(c)]));
    AfterAppend(s, first, second + (third + ([Advance(c)] + [Advance(c)])));
    events := first + (second + (third + ([Advance(c)] + [Advance(c)])));
  }

  lemma NoEvents(s: State)
    ensures After(s, []) == s
  {
  }

  /** A cached entry is final, whatever happens next, exactly when no call that missed on its key
      is in flight. */
  lemma EntryIsFinalIff(s: State, key: string)
    requires Valid(s) && key in s.cache
    ensures (forall events :: key in After(s, events).cache && After(s, events).cache[key] == s.cache[key])
            <==> forall c :: !MissOn(s, c, key)
  {
    hide Key, After, Valid, Agrees, MissOn;
    if forall c :: !MissOn(s, c, key) {
      forall events
        ensures key in After(s, events).cache && After(s, events).cache[key] == s.cache[key]
      {
        SettledForever(s, events, key, s.cache[key], 0);
      }
    } else {
      var c :| MissOn(s, c, key);
      var events := MissStores(s, c, key);
      CachedIsOlder(s, key);
      assert After(s, events).cache[key] != s.cache[key];
    }
  }

  lemma CachedIsOlder(s: State, key: string)
    requires Valid(s) && key in s.cache
    ensures s.cache[key].serial < s.built
  {
  }

  // ----- Keys -----

  lemma SplitAtSlash(a: string, b: string, x: string, y: string)
    requires '/' !in a && '/' !in b && a + "/" + x == b + "/" + y
    ensures a == b && x == y
  {
    assert (a + "/" + x)[|a|] == '/' && (b + "/" + y)[|b|] == '/';
    assert |a| == |b|;
    assert a == (a + "/" + x)[..|a|] && b == (b + "/" + y)[..|b|];
    assert x == (a + "/" + x)[|a| + 1..] && y == (b + "/" + y)[|b| + 1..];
  }

  /** With no '/' in account ids and regions, equal keys mean equal arguments, so a call only
      ever gets a manager built for its own account, region and role. */
  lemma KeyIsInjective(a: Args, b: Args)
    requires '/' !in a.id && '/' !in b.id && '/' !in a.region && '/' !in b.region
    requires Key(a) == Key(b)
    ensures a == b
  {
    var x, y := a.region + "/" + a.roleARN, b.region + "/" + b.roleARN;
    assert Key(a) == a.id + "/" + x && Key(b) == b.id + "/" + y;
    SplitAtSlash(a.id, b.id, x, y);
    SplitAtSlash(a.region, b.region, a.roleARN, b.roleARN);
  }

  /** Calls 1 and 2, both for `args`, at these points, and nobody else. */
  function Two(args: Args, p1: Phase, p2: Phase): map<nat, Call> {
    map[1 := Call(args, p1), 2 := Call(args, p2)]
  }

  /** One key does not mean one manager: two calls that both miss each build one, and return
      different managers for the same arguments. */
  lemma TwoManagersForOneKey(args: Args) returns (events: seq<Event>)
    ensures var s := After(EMPTY, events);
            && 1 in s.calls && 2 in s.calls && s.calls[1].args == args && s.calls[2].args == args
            && s.calls[1].phase.Returned? && s.calls[2].phase.Returned?
            && s.calls[1].phase.m != s.calls[2].phase.m
  {
    hide Key, After;
    var begins, looks := [Begin(1, args), Begin(2, args)], [Advance(1), Advance(2)];
    var first, second := [Advance(1), Advance(1), Advance(1)], [Advance(2), Advance(2), Advance(2)];
    events := begins + (looks + (looks + (looks + (first + second))));
    AfterAppend(EMPTY, begins, looks + (looks + (looks + (first + second))));
    var s0 := State(map[], Two(args, Started, Started), {}, None, 0);
    TwoSteps(EMPTY, begins[0], begins[1]);
    assert After(EMPTY, begins) == s0;
    AfterAppend(s0, looks, looks + (looks + (first + second)));
    TwoSteps(s0, looks[0], looks[1]);
    var s1 := State(map[], Two(args, Reading, Reading), {1, 2}, None, 0);
    assert After(s0, looks) == s1;
    AfterAppend(s1, looks, looks + (first + second));
    TwoSteps(s1, looks[0], looks[1]);
    var s2 := State(map[], Two(args, Looked(None), Looked(None)), {1, 2}, None, 0);
    assert After(s1, looks) == s2;
    AfterAppend(s2, looks, first + second);
    TwoSteps(s2, looks[0], looks[1]);
    var s3 := State(map[], Two(args, Missed, Missed), {}, None, 0);
    assert After(s2, looks) == s3;
    AfterAppend(s3, first, second);
    StoreAlone(s3, 1);
    StoreAlone(After(s3, first), 2);
  }

  lemma TwoSteps(s: State, a: Event, b: Event)
    ensures After(s, [a, b]) == Next(Next(s, a), b)
  {
    hide Next;
    assert [a, b][1..] == [b] && [b][1..] == [];
    assert After(Next(s, a), [b]) == After(Next(Next(s, a), b), []);
  }

  /** A call that missed and has the lock to itself builds a new manager and returns it. */
  lemma StoreAlone(s: State, c: nat)
    requires c in s.calls && s.calls[c].phase.Missed? && s.readers == {} && s.writer.None?
    ensures var m := Manager(s.built, s.calls[c].args);
            After(s, [Advance(c), Advance(c), Advance(c)]) ==
            State(s.cache[Key(s.calls[c].args) := m], s.calls[c := Call(s.calls[c].args, Returned(m))],
                  {}, None, s.built + 1)
  {
    hide Key, After;
    ThreeSteps(s, c);
  }

  lemma {:induction false} AfterAppend(s: State, a: seq<Event>, b: seq<Event>)
    ensures After(s, a + b) == After(After(s, a), b)
    decreases |a|
  {
    if a == [] {
      assert a + b == b;
    } else {
      assert (a + b)[1..] == a[1..] + b;
      AfterAppend(Next(s, a[0]), a[1..], b);
    }
  }

  // ----- One call on its own -----

  class Factory {
    var rmCache: map<string, Manager>
    var built: nat

    constructor ()
      ensures rmCache == map[] && built == 0
    {
      rmCache, built := map[], 0;
    }

    /** ManagerFor when nothing runs beside it. */
    method ManagerFor(args: Args) returns (rm: Manager)
      modifies this
      ensures var key := Key(args);
              if key in old(rmCache) then
                rm == old(rmCache)[key] && rmCache == old(rmCache) && built == old(built)
              else
                rm == Manager(old(built), args) && rmCache == old(rmCache)[key := rm] && built == old(built) + 1
    {
      var rmId := Key(args);
      if rmId in rmCache {
        return rmCache[rmId];
      }
      rm := Manager(built, args);
      built := built + 1;
      rmCache := rmCache[rmId := rm];
    }
  }

  /** The steps of the concurrent machine, taken without interruption, are that method. */
  lemma AloneIsSequential(s: State, c: nat)
    requires c in s.calls && s.calls[c].phase.Started? && s.readers == {} && s.writer.None?
    ensures var args := s.calls[c].args;
            var key := Key(args);
            After(s, [Advance(c), Advance(c), Advance(c)] + [Advance(c), Advance(c), Advance(c)]) ==
            if key in s.cache then
              s.(calls := s.calls[c := Call(args, Returned(s.cache[key]))])
            else
              var m := Manager(s.built, args);
              s.(cache := s.cache[key := m], calls := s.calls[c := Call(args, Returned(m))], built := s.built + 1)
  {
    hide Key, After;
    var three := [Advance(c), Advance(c), Advance(c)];
    AfterAppend(s, three, three);
    ThreeSteps(s, c);
    var s' := After(s, three);
    if s'.calls[c].phase.Missed? {
      StoreAlone(s', c);
    } else {
      ThreeSteps(s', c);
    }
  }

  lemma ThreeSteps(s: State, c: nat)
    ensures var a := Advance(c); After(s, [a, a, a]) == Next(Next(Next(s, a), a), a)
  {
    hide Next;
    var a := Advance(c);
    assert [a, a, a][1..] == [a, a] && [a, a][1..] == [a] && [a][1..] == [];
    assert After(Next(s, a), [a, a]) == After(Next(Next(s, a), a), [a]);
    assert After(Next(Next(s, a), a), [a]) == After(Next(Next(Next(s, a), a), a), []);
  }
}
