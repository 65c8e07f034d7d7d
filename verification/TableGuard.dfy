/** What the version token of a rename, location write or deletion is worth: with it the write
    cannot go wrong, and exactly without it some interleaving makes it go wrong. */
module TableGuard {
  import opened Types
  import opened Tags
  import opened TableService
  import opened TablePass
  import opened TableDelta
  import opened TableSafety
  import opened TableConvergence
  import D = Delta

  function At(p: Place): Target {
    Target(Some(p.bucket), Some(p.namespace), Some(p.name))
  }

  /** `l` is what a read of `arn` in state `seen` can have shown, with or without the token. */
  ghost predicate Observed(l: Ko, seen: State, arn: string) {
    && Valid(seen) && arn in seen.tables && ArnOf(l.status) == Some(arn)
    && ObservedTarget(l) == At(seen.tables[arn].place)
    && exists told :: l.status.versionToken == Token(told, seen.tables[arn])
  }

  /** The guarded calls the controller derives from an observation. */
  ghost predicate Derived(call: Call, d: Ko, l: Ko) {
    call in NamePlan(d, l) + LocationPlan(d, l) || call == DeleteCall(l)
  }

  /** Whatever other clients do between the read and the call. */
  ghost predicate AlwaysSafe(seen: State, arn: string, call: Call) {
    forall fs :: SafeWrite(seen, arn, Event(call, ActAll(seen, fs), Serve(ActAll(seen, fs), call).0))
  }

  /** A rename to no name, or to the name the request already gives. */
  predicate RenamesNothing(call: Call) {
    call.RenameTable? && (call.newName.None? || call.newName == call.at.name)
  }

  /** A call derived from an observation is safe whatever happens in between exactly when it
      carries the token, or is a rename that cannot take effect. */
  lemma GuardProtectsIff(d: Ko, l: Ko, seen: State, arn: string, call: Call)
    requires Observed(l, seen, arn) && Derived(call, d, l)
    ensures AlwaysSafe(seen, arn, call) <==> call.token.Some? || RenamesNothing(call)
  {
    if call.token.Some? || RenamesNothing(call) {
      forall fs
        ensures SafeWrite(seen, arn, Event(call, ActAll(seen, fs), Serve(ActAll(seen, fs), call).0))
      {
        ActAllIsSound(seen, fs);
        if call.token.Some? {
          AimedWriteIsSafe(seen, ActAll(seen, fs), arn, call);
        } else {
          RenamingNothing(ActAll(seen, fs), call);
          NoEffectIsSafe(seen, arn, call, ActAll(seen, fs));
        }
      }
    } else {
      var fs := Interference(seen, arn, call);
      assert !SafeWrite(seen, arn, Event(call, ActAll(seen, fs), Serve(ActAll(seen, fs), call).0));
    }
  }

  lemma RenamingNothing(s: State, call: Call)
    requires Valid(s) && RenamesNothing(call)
    ensures Serve(s, call).0 == s
  {
    var arn := Lookup(s, call.at);
    if arn.Some? {
      assert NameValid(s, Place(call.at.bucket.value, call.at.namespace.value, call.at.name.value));
    }
  }

  /** An unguarded write overwrites a commit it never saw; a rename also needs its new name freed. */
  lemma Interference(seen: State, arn: string, call: Call) returns (fs: seq<Foreign>)
    requires Valid(seen) && arn in seen.tables && Guarded(call) && call.token.None?
    requires call.at == At(seen.tables[arn].place) && !RenamesNothing(call)
    ensures !SafeWrite(seen, arn, Event(call, ActAll(seen, fs), Serve(ActAll(seen, fs), call).0))
  {
    var first, commit := [], FCommit(arn, None);
    if call.RenameTable? {
      first := FreeName(seen, arn, seen.tables[arn].place.(name := call.newName.value));
    } else {
      assert ActAll(seen, first) == seen;
    }
    ActInOrder(seen, first, commit);
    fs := first + [commit];
    OverwritesCommit(seen, ActAll(seen, first), arn, call);
  }

  lemma FreeName(s: State, arn: string, place: Place) returns (first: seq<Foreign>)
    requires Valid(s) && arn in s.tables && place != s.tables[arn].place
    ensures |first| <= 1
    ensures var s' := ActAll(s, first);
            Valid(s') && arn in s'.tables && s'.tables[arn] == s.tables[arn] && place !in s'.names && s'.next == s.next
  {
    first := [];
    assert ActAll(s, []) == s;
    if place in s.names {
      assert NameValid(s, place);
      var drop := FDrop(s.names[place]);
      first := [drop];
      ActInOrder(s, [], drop);
      assert [] + [drop] == [drop];
      DropIsSound(s, s.names[place]);
    }
  }

  lemma OverwritesCommit(seen: State, s: State, arn: string, call: Call)
    requires Valid(seen) && Valid(s) && s.next == seen.next
    requires arn in seen.tables && arn in s.tables && s.tables[arn] == seen.tables[arn]
    requires Guarded(call) && call.token.None? && call.at == At(s.tables[arn].place) && !RenamesNothing(call)
    requires call.RenameTable? ==> s.tables[arn].place.(name := call.newName.value) !in s.names
    ensures var s1 := Act(s, FCommit(arn, None)); !SafeWrite(seen, arn, Event(call, s1, Serve(s1, call).0))
  {
    assert TableValid(seen, arn) && TableValid(s, arn);
  }

  lemma ActInOrder(s: State, first: seq<Foreign>, f: Foreign)
    requires |first| <= 1
    ensures ActAll(s, first) == if first == [] then s else Act(s, first[0])
    ensures ActAll(s, first + [f]) == Act(ActAll(s, first), f)
  {
    hide Act;
    assert first + [f] == if first == [] then [f] else [first[0], f];
    assert [f][1..] == [];
    if first != [] {
      assert first == [first[0]] && [first[0], f][1..] == [f] && first[1..] == [];
      assert ActAll(Act(s, first[0]), [f]) == ActAll(Act(Act(s, first[0]), f), []);
    } else {
      assert ActAll(s, [f]) == ActAll(Act(s, f), []);
    }
  }

  // ----- In whole passes -----

  /** The reads of a pass give an observation to which all this applies, with the token just
      when the reply had it. */
  lemma ReadsObserve(env: Env, cfg: Config, w: World, ko: Ko, arn: string)
    requires Valid(w.state) && ArnOf(ko.status) == Some(arn)
    ensures var (w', found) := Find(env, cfg, w, ko);
            && |w.log| < |w'.log|
            && var seen := w'.log[|w.log|].before;
               found.Ok? ==>
                 && arn in seen.tables
                 && (ko.spec.tableBucketARN == Some(seen.tables[arn].place.bucket) ==> Observed(found.value, seen, arn))
                 && (found.value.status.versionToken.Some? <==> env.tells(|w.log|))
  {
    hide Find, Valid, Frozen;
    FindSees(env, cfg, w, ko, arn);
  }

  /** What happens in between: the table moves away and another one takes its place. */
  function Swap(arn: string, place: Place, b: string, q: Place): seq<Foreign> {
    [FMove(arn, q), FCreate(b, place, None, map[], Facts(None, None, "", "", None, None, None))]
  }

  function Swapping(from: nat, fs: seq<Foreign>): Env {
    Env(_ => NoFault, n => if n == from + 2 then fs else [], _ => false)
  }

  lemma SwapHits(s: State, arn: string, b: string, q: Place, call: Call)
    requires Valid(s) && arn in s.tables && b !in s.tables && q !in s.names
    requires call.UpdateLocation? && call.token.None? && call.at == At(s.tables[arn].place)
    ensures var before := ActAll(s, Swap(arn, s.tables[arn].place, b, q));
            var after := Serve(before, call).0;
            && b in before.tables && before.tables[b].location.None?
            && OnlyTouches(b, before, after)
            && b in after.tables && after.tables[b].location == Some(call.location)
            && Serve(before, call).1.Ok?
  {
    Swapped(s, arn, b, q);
    hide Valid, ActAll, Swap, Act, NameValid, TableValid;
    var before := ActAll(s, Swap(arn, s.tables[arn].place, b, q));
    assert Lookup(before, call.at) == Some(b);
    assert Serve(before, call) == (Commit(before, b, Some(call.location)), Ok(Done));
    hide Serve, Lookup;
  }

  /** After the swap the place is that of table `b`, which has no location. */
  lemma Swapped(s: State, arn: string, b: string, q: Place)
    requires Valid(s) && arn in s.tables && b !in s.tables && q !in s.names
    ensures var place := s.tables[arn].place;
            var before := ActAll(s, Swap(arn, place, b, q));
            && place in before.names && before.names[place] == b
            && b in before.tables && before.tables[b].location.None?
  {
    var place := s.tables[arn].place;
    var fs := Swap(arn, place, b, q);
    assert place != q by { assert TableValid(s, arn); }
    hide Valid, NameValid, TableValid;
    assert fs == [fs[0]] + [fs[1]];
    ActInOrder(s, [fs[0]], fs[1]);
    hide ActAll;
    var moved := Move(s, arn, q);
    assert place !in moved.names && b !in moved.tables;
  }

  lemma {:induction false} LogGrows(env: Env, w: World, plan: seq<Call>)
    ensures w.log <= Execute(env, w, plan).0.log
    decreases |plan|
  {
    hide Serve, ActAll;
    if plan != [] {
      LogGrows(env, Invoke(env, w, plan[0]).0, plan[1..]);
    }
  }

  /** Event n writes the location `location` into table `b`, which had none. */
  ghost predicate WritesInto(log: seq<Event>, n: nat, b: string, location: Option<string>) {
    && n < |log|
    && var e := log[n];
       && e.call.UpdateLocation? && OnlyTouches(b, e.before, e.after)
       && b in e.before.tables && e.before.tables[b].location.None?
       && b in e.after.tables && e.after.tables[b].location == location
  }

  lemma SwappedWrite(env: Env, w: World, plan: seq<Call>, arn: string, b: string, q: Place)
    requires Valid(w.state) && arn in w.state.tables && b !in w.state.tables && q !in w.state.names
    requires plan != [] && plan[0].UpdateLocation? && plan[0].token.None? && plan[0].at == At(w.state.tables[arn].place)
    requires env.fault(|w.log|).NoFault? && env.foreign(|w.log|) == Swap(arn, w.state.tables[arn].place, b, q)
    ensures var log := Execute(env, w, plan).0.log;
            w.log <= log && WritesInto(log, |w.log|, b, Some(plan[0].location))
  {
    SwapHits(w.state, arn, b, q, plan[0]);
    hide Valid, Serve, ActAll, OnlyTouches, Swap;
    var (w1, reply) := Invoke(env, w, plan[0]);
    LogGrows(env, w1, plan[1..]);
    assert Execute(env, w, plan).0.log[|w.log|] == w1.log[|w.log|];
  }

  /** For every table whose declared location differs and whose token the read does not report,
      there are foreign writers that make the pass write the location into another table, one
      that did not exist when the controller read. */
  lemma UntoldPassHitsAnotherTable(cfg: Config, w: World, ko: Ko, arn: string, b: string, q: Place) returns (env: Env)
    requires Manages(ko, w.state, arn)
    requires !NameDiffers(ko, w.state.tables[arn]) && LocationDiffers(ko, w.state.tables[arn])
    requires b !in w.state.tables && q !in w.state.names
    ensures !env.tells(|w.log|) && forall n :: env.fault(n).NoFault?
    ensures var log := Pass(env, cfg, w, ko).world.log;
            w.log <= log && WritesInto(log, |w.log| + 2, b, ko.spec.metadataLocation)
  {
    hide Valid, Plan, Find, Serve, ActAll, OnlyTouches, Swap, Pass, WritesInto, TagCallsFor, Execute, Invoke,
      Observation;
    var t := w.state.tables[arn];
    env := Swapping(|w.log|, Swap(arn, t.place, b, q));
    assert Quiet(env, |w.log|) && Quiet(env, |w.log| + 1);
    var asked := Desired(cfg, ko);
    FindsItself(env, cfg, w, asked, arn);
    PassIs(env, cfg, w, ko, arn);
    PlanIs(cfg, ko, arn, t, false);
    var plan := Plan(cfg, ko, arn, t, false);
    assert plan[0] == UpdateLocation(At(t.place), ko.spec.metadataLocation.value, None);
    SwappedWrite(env, Find(env, cfg, w, asked).0, plan, arn, b, q);
  }
}
