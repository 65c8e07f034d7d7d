/** Safety of the controller's table writes over every interleaving with foreign writers and
    every pattern of failing or lost calls. */
module TableSafety {
  import opened Types
  import opened Tags
  import opened TableService
  import opened TablePass
  import opened TableDelta
  import D = Delta

  // ----- Tokens freeze tables -----

  /** Everything a version token stands for. */
  ghost predicate SameCore(a: Table, b: Table) {
    a.place == b.place && a.location == b.location && a.token == b.token
  }

  /** A table of `s` whose token was already issued in `s0` has not changed since. */
  ghost predicate Frozen(s0: State, s: State) {
    && s0.next <= s.next
    && forall a :: a in s.tables && s.tables[a].token < s0.next ==>
                     a in s0.tables && SameCore(s.tables[a], s0.tables[a])
  }

  lemma FrozenIsTransitive(s0: State, s1: State, s2: State)
    requires Frozen(s0, s1) && Frozen(s1, s2)
    ensures Frozen(s0, s2)
  {
  }

  lemma CreateIsSound(s: State, arn: string, place: Place, location: Option<string>, tags: AckTags, facts: Facts)
    requires Valid(s)
    ensures Valid(Create(s, arn, place, location, tags, facts))
    ensures Frozen(s, Create(s, arn, place, location, tags, facts))
  {
    var s' := Create(s, arn, place, location, tags, facts);
    if s' != s {
      assert s'.names.Keys == s.names.Keys + {place} && s'.tables.Keys == s.tables.Keys + {arn};
      assert NameValid(s', place) && TableValid(s', arn);
      OthersStayValid(s, s', arn, place);
    }
  }

  lemma MoveIsSound(s: State, arn: string, place: Place)
    requires Valid(s)
    ensures Valid(Move(s, arn, place)) && Frozen(s, Move(s, arn, place))
  {
    var s' := Move(s, arn, place);
    if s' != s {
      assert s'.names.Keys == s.names.Keys - {s.tables[arn].place} + {place};
      assert s'.tables.Keys == s.tables.Keys + {arn};
      assert NameValid(s', place) && TableValid(s', arn);
      OthersStayValid(s, s', arn, place);
    }
  }

  lemma CommitIsSound(s: State, arn: string, location: Option<string>)
    requires Valid(s)
    ensures Valid(Commit(s, arn, location)) && Frozen(s, Commit(s, arn, location))
  {
    var s' := Commit(s, arn, location);
    if s' != s {
      var place := s.tables[arn].place;
      assert TableValid(s, arn);
      assert NameValid(s', place) && TableValid(s', arn);
      OthersStayValid(s, s', arn, place);
    }
  }

  /** `arn`, and nothing else, was changed; it now is at `place` and has the next token. */
  ghost predicate Changed(s: State, s': State, arn: string, place: Place) {
    && s'.next == s.next + 1
    && s'.tables.Keys == s.tables.Keys + {arn}
    && (forall a :: a in s.tables && a != arn ==> s'.tables[a] == s.tables[a])
    && s'.names.Keys == s.names.Keys - (if arn in s.tables then {s.tables[arn].place} else {}) + {place}
    && (forall p :: p in s'.names && p != place ==> s'.names[p] == s.names[p])
    && (place in s.names ==> s.names[place] == arn)
    && s'.tables[arn].token == s.next && NameValid(s', place) && TableValid(s', arn)
  }

  lemma OthersStayValid(s: State, s': State, arn: string, place: Place)
    requires Valid(s) && Changed(s, s', arn, place)
    ensures Valid(s') && Frozen(s, s')
  {
    hide NameValid, TableValid;
    forall p | p in s'.names
      ensures NameValid(s', p)
    {
      if p != place {
        assert NameValid(s, p);
        OtherNameStays(s, s', arn, place, p);
      }
    }
    forall a | a in s'.tables
      ensures TableValid(s', a)
      ensures a != arn ==> s'.tables[a].token < s.next
    {
      if a != arn {
        assert TableValid(s, a);
        assert arn in s.tables ==> TableValid(s, arn);
        OtherTableStays(s, s', arn, place, a);
      }
    }
  }

  lemma OtherNameStays(s: State, s': State, arn: string, place: Place, p: Place)
    requires Changed(s, s', arn, place) && p in s'.names && p != place
    requires p in s.names && NameValid(s, p)
    ensures NameValid(s', p)
  {
  }

  lemma OtherTableStays(s: State, s': State, arn: string, place: Place, a: string)
    requires Changed(s, s', arn, place) && a in s.tables && a != arn
    requires TableValid(s, a) && (arn in s.tables ==> TableValid(s, arn))
    ensures TableValid(s', a) && s'.tables[a].token < s.next
  {
  }

  lemma DropIsSound(s: State, arn: string)
    requires Valid(s)
    ensures Valid(Drop(s, arn)) && Frozen(s, Drop(s, arn))
  {
    var s' := Drop(s, arn);
    if s' != s {
      assert TableValid(s, arn);
      forall p | p in s'.names
        ensures NameValid(s', p)
      {
        assert NameValid(s, p);
      }
      forall a | a in s'.tables
        ensures TableValid(s', a)
      {
        assert TableValid(s, a);
      }
    }
  }

  lemma RetagIsSound(s: State, arn: string, tags: AckTags)
    requires Valid(s)
    ensures Valid(Retag(s, arn, tags)) && Frozen(s, Retag(s, arn, tags))
  {
    var s' := Retag(s, arn, tags);
    if s' != s {
      assert s'.names == s.names && s'.tables.Keys == s.tables.Keys;
      forall p | p in s'.names
        ensures NameValid(s', p)
      {
        assert NameValid(s, p);
      }
      forall a | a in s'.tables
        ensures TableValid(s', a)
      {
        assert TableValid(s, a);
      }
    }
  }

  lemma ActIsSound(s: State, f: Foreign)
    requires Valid(s)
    ensures Valid(Act(s, f)) && Frozen(s, Act(s, f))
  {
    match f
    case FCreate(arn, place, location, tags, facts) => CreateIsSound(s, arn, place, location, tags, facts);
    case FMove(arn, to) => MoveIsSound(s, arn, to);
    case FCommit(arn, newLocation) => CommitIsSound(s, arn, newLocation);
    case FDrop(arn) => DropIsSound(s, arn);
    case FRetag(arn, newTags) => RetagIsSound(s, arn, newTags);
  }

  lemma ServeIsSound(s: State, call: Call)
    requires Valid(s)
    ensures Valid(Serve(s, call).0) && Frozen(s, Serve(s, call).0)
  {
    assert Frozen(s, s);
    hide Valid, Frozen, Move, Commit, Drop, Retag, Lookup, TokenMatches;
    if Guarded(call) && Admit(s, call.at, call.token).Ok? {
      var arn := Admit(s, call.at, call.token).value;
      match call {
        case RenameTable(at, newName, token) =>
          if newName.Some? {
            MoveIsSound(s, arn, s.tables[arn].place.(name := newName.value));
          }
        case UpdateLocation(at, location, token) => CommitIsSound(s, arn, Some(location));
        case DeleteTable(at, token) => DropIsSound(s, arn);
      }
    } else if call.UntagTable? && call.arn in s.tables {
      RetagIsSound(s, call.arn, s.tables[call.arn].tags - call.keys);
    } else if call.TagTable? && call.arn in s.tables {
      RetagIsSound(s, call.arn, s.tables[call.arn].tags + call.added);
    }
  }

  lemma {:induction false} ActAllIsSound(s: State, fs: seq<Foreign>)
    requires Valid(s)
    ensures Valid(ActAll(s, fs)) && Frozen(s, ActAll(s, fs))
    decreases |fs|
  {
    if fs != [] {
      ActIsSound(s, fs[0]);
      ActAllIsSound(Act(s, fs[0]), fs[1..]);
      FrozenIsTransitive(s, Act(s, fs[0]), ActAll(s, fs));
    }
  }

  lemma InvokeIsSound(env: Env, w: World, call: Call)
    requires Valid(w.state)
    ensures var w' := Invoke(env, w, call).0;
            && Valid(w'.state) && Frozen(w.state, w'.state)
            && w'.log == w.log + [w'.log[|w.log|]] && w'.log[|w.log|].call == call
            && w'.log[|w.log|].after == w'.state
            && Valid(w'.log[|w.log|].before) && Frozen(w.state, w'.log[|w.log|].before)
            && (w'.state == w'.log[|w.log|].before || w'.state == Serve(w'.log[|w.log|].before, call).0)
  {
    hide Valid, Serve;
    var s := ActAll(w.state, env.foreign(|w.log|));
    ActAllIsSound(w.state, env.foreign(|w.log|));
    ServeIsSound(s, call);
    FrozenIsTransitive(w.state, s, Serve(s, call).0);
  }

  // ----- One write -----

  ghost predicate OnlyTouches(arn: string, s: State, s': State) {
    forall a :: a != arn ==> (a in s.tables <==> a in s'.tables) && (a in s.tables ==> s'.tables[a] == s.tables[a])
  }

  /** Measured against the state `seen` that the controller last read: a write that takes
      effect does so on the table `arn` alone, and a guarded one only if that table still is
      what was read. */
  ghost predicate SafeWrite(seen: State, arn: string, e: Event) {
    IsWrite(e.call) && e.after != e.before ==>
      && OnlyTouches(arn, e.before, e.after)
      && (Guarded(e.call) ==>
            && arn in seen.tables && arn in e.before.tables
            && SameCore(e.before.tables[arn], seen.tables[arn]))
  }

  /** The token that a read of `t` reports, if it reports one. */
  function Token(told: bool, t: Table): Option<string> {
    if told then Some(TokenText(t.token)) else None
  }

  /** The calls an update of `arn` makes after reading `token`. */
  ghost predicate Aimed(call: Call, arn: string, token: Option<string>) {
    match call
    case RenameTable(at, newName, t) => t == token
    case UpdateLocation(at, location, t) => t == token
    case DeleteTable(at, t) => t == token
    case UntagTable(a, keys) => a == arn
    case TagTable(a, added) => a == arn
    case _ => false
  }

  /** A token issued by the time of `seen` is still the token of the same, unchanged table. */
  lemma TokenNames(seen: State, s: State, arn: string, hit: string)
    requires Valid(seen) && Frozen(seen, s) && arn in seen.tables && hit in s.tables
    requires TokenText(s.tables[hit].token) == TokenText(seen.tables[arn].token)
    ensures hit == arn && SameCore(s.tables[arn], seen.tables[arn])
  {
    assert |TokenText(s.tables[hit].token)| == |TokenText(seen.tables[arn].token)|;
    assert TableValid(seen, arn);
    assert s.tables[hit].token == seen.tables[arn].token;
  }

  lemma ServeTouches(s: State, call: Call)
    requires IsWrite(call) && Serve(s, call).0 != s
    ensures Guarded(call) ==>
      Admit(s, call.at, call.token).Ok? && OnlyTouches(Admit(s, call.at, call.token).value, s, Serve(s, call).0)
    ensures !Guarded(call) ==> OnlyTouches(call.arn, s, Serve(s, call).0)
  {
    hide Lookup, TokenMatches;
  }

  lemma AimedWriteIsSafe(seen: State, s: State, arn: string, call: Call)
    requires Valid(seen) && Valid(s) && Frozen(seen, s)
    requires arn in seen.tables && Aimed(call, arn, Token(true, seen.tables[arn]))
    ensures SafeWrite(seen, arn, Event(call, s, Serve(s, call).0))
  {
    hide Serve, Valid, Frozen, OnlyTouches, Lookup, SameCore;
    if Serve(s, call).0 != s {
      ServeTouches(s, call);
      if Guarded(call) {
        TokenNames(seen, s, arn, Admit(s, call.at, call.token).value);
      }
    }
  }

  /** A recorded deletion is guarded in the same way. */
  lemma DeleteIsSafe(seen: State, s: State, arn: string, ko: Ko)
    requires Valid(seen) && Valid(s) && Frozen(seen, s)
    requires arn in seen.tables && ko.status.versionToken == Some(TokenText(seen.tables[arn].token))
    ensures SafeWrite(seen, arn, Event(DeleteCall(ko), s, Serve(s, DeleteCall(ko)).0))
  {
    AimedWriteIsSafe(seen, s, arn, DeleteCall(ko));
  }

  // ----- Whole passes -----

  /** A guarded write carries a token exactly when the read before it was told one, and then, like
      every tag write, it is safe. */
  ghost predicate Safely(told: bool, seen: State, arn: string, e: Event) {
    && (Guarded(e.call) ==> (e.call.token.Some? <==> told))
    && (told || !Guarded(e.call) ==> SafeWrite(seen, arn, e))
  }

  lemma AimedWriteIsSafely(told: bool, seen: State, s: State, arn: string, call: Call)
    requires Valid(seen) && Valid(s) && Frozen(seen, s)
    requires arn in seen.tables && Aimed(call, arn, Token(told, seen.tables[arn]))
    ensures Safely(told, seen, arn, Event(call, s, Serve(s, call).0)) && Safely(told, seen, arn, Event(call, s, s))
  {
    hide Serve, Valid, Frozen, SafeWrite;
    NoEffectIsSafe(seen, arn, call, s);
    if told || !Guarded(call) {
      AimedWriteIsSafe(seen, s, arn, call);
    }
  }

  lemma {:induction false} ExecuteIsSafe(env: Env, w: World, plan: seq<Call>, seen: State, arn: string, told: bool)
    requires Valid(seen) && Valid(w.state) && Frozen(seen, w.state)
    requires arn in seen.tables && forall c :: c in plan ==> Aimed(c, arn, Token(told, seen.tables[arn]))
    ensures var w' := Execute(env, w, plan).0;
            && Valid(w'.state) && w.log <= w'.log
            && forall i :: |w.log| <= i < |w'.log| ==>
                 Safely(told, seen, arn, w'.log[i]) && !w'.log[i].call.Get?
    decreases |plan|
  {
    hide Valid, Frozen, Serve, Safely;
    if plan != [] {
      assert plan[0] in plan;
      var w1 := Invoke(env, w, plan[0]).0;
      var e := w1.log[|w.log|];
      InvokeIsSound(env, w, plan[0]);
      FrozenIsTransitive(seen, w.state, e.before);
      FrozenIsTransitive(seen, w.state, w1.state);
      AimedWriteIsSafely(told, seen, e.before, arn, plan[0]);
      assert e == Event(plan[0], e.before, w1.state);
      ExecuteIsSafe(env, w1, plan[1..], seen, arn, told);
    }
  }

  lemma NoEffectIsSafe(seen: State, arn: string, call: Call, s: State)
    ensures SafeWrite(seen, arn, Event(call, s, s))
  {
  }

  /** Since `from`, every write was preceded by an ARN-keyed read, with no other read in
      between, and was safe against the state that read saw if that read was told the token. */
  ghost predicate SafeLog(env: Env, log: seq<Event>, from: nat, arn: string) {
    forall i :: from <= i < |log| && IsWrite(log[i].call) ==>
      exists j :: from <= j < i && ReadFor(log, j, i, arn) && Safely(env.tells(j), log[j].before, arn, log[i])
  }

  /** Event j, a read by this ARN, is the last read of a table before event i. */
  ghost predicate ReadFor(log: seq<Event>, j: nat, i: nat, arn: string)
    requires j < i < |log|
  {
    log[j].call == GetByArn(arn) && forall k :: j < k < i ==> !log[k].call.Get?
  }

  lemma PlanIsAimed(d: Ko, l: Ko, differences: set<D.Segment>, arn: string)
    requires ArnOf(l.status) == Some(arn)
    ensures forall c :: c in UpdatePlan(d, l, differences) ==> Aimed(c, arn, l.status.versionToken)
  {
    hide ToAdd, ToRemove, ToAck;
  }

  lemma ObservedGuard(cfg: Config, ko: Ko, arn: string, t: Table, token: Option<string>, tags: AckTags)
    ensures var l := Observation(cfg, ko, arn, t, token, tags);
            && l.status.versionToken == token && ArnOf(l.status) == Some(arn)
            && ObservedTarget(l) == Target(ko.spec.tableBucketARN, Some(t.place.namespace), Some(t.place.name))
  {
  }

  /** The reads at the start of a pass: one by ARN, whose state `seen` the observation and its
      token come from, and one of the tags. */
  lemma FindSees(env: Env, cfg: Config, w: World, ko: Ko, arn: string)
    requires Valid(w.state) && ArnOf(ko.status) == Some(arn)
    ensures var (w', found) := Find(env, cfg, w, ko);
            && Valid(w'.state) && |w.log| < |w'.log| <= |w.log| + 2 && w.log <= w'.log
            && w'.log[|w.log|].call == GetByArn(arn)
            && (forall i :: |w.log| < i < |w'.log| ==> w'.log[i].call == ListTags(arn))
            && var seen := w'.log[|w.log|].before;
            && Valid(seen) && Frozen(seen, w'.state)
            && (found.Ok? ==>
                  && arn in seen.tables && ArnOf(found.value.status) == Some(arn)
                  && found.value.status.versionToken == Token(env.tells(|w.log|), seen.tables[arn])
                  && var place := seen.tables[arn].place;
                     ObservedTarget(found.value) ==
                     Target(ko.spec.tableBucketARN, Some(place.namespace), Some(place.name)))
  {
    hide Valid, Frozen, Serve, ActAll, Invoke, Observation;
    var (w1, got) := Invoke(env, w, GetByArn(arn));
    InvokeIsSound(env, w, GetByArn(arn));
    ReadSees(env, w, arn);
    var seen := w1.log[|w.log|].before;
    if got.Ok? {
      InvokeIsSound(env, w1, ListTags(arn));
      var (w2, listed) := Invoke(env, w1, ListTags(arn));
      FrozenIsTransitive(seen, w1.state, w2.state);
      assert w2.log[|w.log|] == w1.log[|w.log|];
      if listed.Ok? && listed.value.TagsOf? {
        ObservedGuard(cfg, ko, arn, seen.tables[arn], got.value.token, listed.value.tags);
      }
    }
  }

  lemma PassIsSafe(env: Env, cfg: Config, w: World, ko: Ko, arn: string)
    requires Valid(w.state) && ArnOf(ko.status) == Some(arn)
    ensures var r := Pass(env, cfg, w, ko);
            && Valid(r.world.state) && w.log <= r.world.log && SafeLog(env, r.world.log, |w.log|, arn)
            && ArnOf(r.stored.status) == Some(arn)
  {
    hide Valid, Frozen, Safely, Serve, Differences, UpdatePlan, Execute, Find, SafeLog, Aimed, ObservedTarget,
      Concluded, Reported;
    var asked := Desired(cfg, ko);
    FindSees(env, cfg, w, asked, arn);
    var (w2, found) := Find(env, cfg, w, asked);
    var seen := w2.log[|w.log|].before;
    UpdateIsSafe(env, w, w2, [], seen, arn);
    NoCalls(env, w2);
    if found.Err? {
      ConclusionsKeep(cfg, asked, Some(found.error));
    } else {
      var latest := Concluded(cfg, found.value, None);
      ConclusionsKeep(cfg, found.value, None);
      var d := Mirror(asked, latest);
      var plan := UpdatePlan(d, latest, Differences(d.spec, latest.spec));
      PlanIsAimed(d, latest, Differences(d.spec, latest.spec), arn);
      UpdateIsSafe(env, w, w2, plan, seen, arn);
      ConclusionsKeep(cfg, latest, Execute(env, w2, plan).1);
      ConclusionsKeep(cfg, Ko(d.spec, latest.status), None);
    }
  }

  lemma NoCalls(env: Env, w: World)
    ensures Execute(env, w, []) == (w, None)
  {
  }

  lemma UpdateIsSafe(env: Env, w: World, w2: World, plan: seq<Call>, seen: State, arn: string)
    requires Valid(seen) && Valid(w2.state) && Frozen(seen, w2.state)
    requires |w.log| < |w2.log| && w.log <= w2.log
    requires w2.log[|w.log|].call == GetByArn(arn) && w2.log[|w.log|].before == seen
    requires forall i :: |w.log| < i < |w2.log| ==> w2.log[i].call == ListTags(arn)
    requires plan != [] ==>
      arn in seen.tables && forall c :: c in plan ==> Aimed(c, arn, Token(env.tells(|w.log|), seen.tables[arn]))
    ensures var w3 := Execute(env, w2, plan).0;
            Valid(w3.state) && w.log <= w3.log && SafeLog(env, w3.log, |w.log|, arn)
  {
    hide Valid, Frozen, Safely, Aimed, Token;
    var w3 := Execute(env, w2, plan).0;
    if plan != [] {
      ExecuteIsSafe(env, w2, plan, seen, arn, env.tells(|w.log|));
    }
    forall i | |w.log| <= i < |w3.log| && IsWrite(w3.log[i].call)
      ensures ReadFor(w3.log, |w.log|, i, arn)
      ensures Safely(env.tells(|w.log|), w3.log[|w.log|].before, arn, w3.log[i])
    {
      assert forall k :: 0 <= k < |w2.log| ==> w3.log[k] == w2.log[k];
      assert i >= |w2.log|;
    }
  }

  lemma ReadSees(env: Env, w: World, arn: string)
    requires Valid(w.state)
    ensures var (w1, got) := Invoke(env, w, GetByArn(arn));
            var seen := w1.log[|w.log|].before;
            && w1.state == seen && Valid(seen) && Frozen(seen, seen)
            && (got.Ok? ==>
                  && arn in seen.tables
                  && got.value == Found(arn, seen.tables[arn], Token(env.tells(|w.log|), seen.tables[arn])))
  {
    InvokeIsSound(env, w, GetByArn(arn));
  }

  // ----- Whole runs -----

  /** Any number of passes. */
  ghost function Run(env: Env, cfg: Config, w: World, ko: Ko, passes: nat): (World, Ko)
    decreases passes
  {
    if passes == 0 then (w, ko)
    else
      var r := Pass(env, cfg, w, ko);
      Run(env, cfg, r.world, r.stored, passes - 1)
  }

  /** Once the ARN is recorded: over every run, whatever foreign writers do between any two
      calls and whichever calls fail, no tag write lands on another table, and no write that
      carries a token lands on another table or on one that changed since the controller last
      read it. A write goes without a token just when that read was not told one. */
  lemma {:induction false} RunIsSafe(env: Env, cfg: Config, w: World, ko: Ko, passes: nat, arn: string)
    requires Valid(w.state) && ArnOf(ko.status) == Some(arn)
    ensures var (w', _) := Run(env, cfg, w, ko, passes);
            Valid(w'.state) && w.log <= w'.log && SafeLog(env, w'.log, |w.log|, arn)
    decreases passes
  {
    hide Valid, Pass, Safely;
    if passes > 0 {
      var r := Pass(env, cfg, w, ko);
      PassIsSafe(env, cfg, w, ko, arn);
      RunIsSafe(env, cfg, r.world, r.stored, passes - 1, arn);
      var (w', _) := Run(env, cfg, r.world, r.stored, passes - 1);
      SafeLogsJoin(env, r.world.log, w'.log, |w.log|, arn);
    }
  }

  /** Where every read is told the token, every write of every run is safe. */
  lemma ToldRunIsSafe(env: Env, cfg: Config, w: World, ko: Ko, passes: nat, arn: string)
    requires Valid(w.state) && ArnOf(ko.status) == Some(arn) && forall n :: env.tells(n)
    ensures var log := Run(env, cfg, w, ko, passes).0.log;
            && w.log <= log
            && forall i :: |w.log| <= i < |log| && IsWrite(log[i].call) ==>
                 exists j :: |w.log| <= j < i && ReadFor(log, j, i, arn) && SafeWrite(log[j].before, arn, log[i])
  {
    hide Run, SafeWrite;
    RunIsSafe(env, cfg, w, ko, passes, arn);
  }

  lemma SafeLogsJoin(env: Env, log: seq<Event>, longer: seq<Event>, from: nat, arn: string)
    requires from <= |log| && log <= longer
    requires SafeLog(env, log, from, arn) && SafeLog(env, longer, |log|, arn)
    ensures SafeLog(env, longer, from, arn)
  {
  }
}
