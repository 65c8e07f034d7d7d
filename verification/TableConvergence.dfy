/** Convergence of the Table reconcile pass when nobody interferes: what one pass reaches, why
    two are sometimes needed, and that a settled table is left alone. */
module TableConvergence {
  import opened Types
  import opened Tags
  import opened TableService
  import opened TablePass
  import opened TableDelta
  import opened TableSafety
  import C = Conditions
  import D = Delta

  /** Call n does not fail and no other client writes just before it. */
  ghost predicate Quiet(env: Env, n: nat) {
    env.fault(n).NoFault? && env.foreign(n) == []
  }

  ghost predicate Undisturbed(env: Env, from: nat) {
    forall n :: n >= from ==> Quiet(env, n)
  }

  ghost predicate NoWrites(log: seq<Event>, from: nat) {
    forall i :: from <= i < |log| ==> !IsWrite(log[i].call)
  }

  function TargetTags(cfg: Config, ko: Ko): AckTags {
    Merge(ToAck(ko.spec.tags), cfg.defaultTags)
  }

  /** The stored object manages the table: its ARN is recorded, and its bucket and name are
      declared, the bucket being the table's own. */
  ghost predicate Manages(ko: Ko, s: State, arn: string) {
    && Valid(s) && arn in s.tables && ArnOf(ko.status) == Some(arn)
    && ko.spec.tableBucketARN == Some(s.tables[arn].place.bucket) && ko.spec.name.Some?
  }

  ghost function WantedPlace(ko: Ko, t: Table): Place
    requires ko.spec.name.Some?
  {
    t.place.(name := ko.spec.name.value)
  }

  ghost predicate NameDiffers(ko: Ko, t: Table) {
    ko.spec.name != Some(t.place.name)
  }

  /** Only a declared location is ever written. */
  ghost predicate LocationDiffers(ko: Ko, t: Table) {
    ko.spec.metadataLocation.Some? && ko.spec.metadataLocation != t.location
  }

  ghost predicate Reached(cfg: Config, ko: Ko, t: Table) {
    !NameDiffers(ko, t) && !LocationDiffers(ko, t) && Pending(TargetTags(cfg, ko), t.tags) == {}
  }

  /** What an undisturbed pass does, in the three cases that exist. */
  ghost predicate Outcome(cfg: Config, ko: Ko, arn: string, s: State, r: PassResult)
    requires Manages(ko, s, arn)
  {
    var t := s.tables[arn];
    Manages(r.stored, r.world.state, arn) && r.stored.spec == ko.spec &&
    if NameDiffers(ko, t) && WantedPlace(ko, t) in s.names then
      r.err == Some(CONFLICT) && r.world.state == s
    else if NameDiffers(ko, t) && LocationDiffers(ko, t) then
      && r.err == Some(MISSING)
      && r.world.state == Move(s, arn, WantedPlace(ko, t))
    else
      r.err.None? && Reached(cfg, ko, r.world.state.tables[arn])
  }

  lemma Serves(env: Env, w: World, call: Call)
    requires Quiet(env, |w.log|)
    ensures Invoke(env, w, call) ==
      (World(Serve(w.state, call).0, w.log + [Event(call, w.state, Serve(w.state, call).0)]),
       Told(Serve(w.state, call).1, env.tells(|w.log|)))
  {
  }

  lemma FindsItself(env: Env, cfg: Config, w: World, ko: Ko, arn: string)
    requires Quiet(env, |w.log|) && Quiet(env, |w.log| + 1) && arn in w.state.tables && ArnOf(ko.status) == Some(arn)
    ensures var (w', found) := Find(env, cfg, w, ko);
            var t := w.state.tables[arn];
            && w'.state == w.state && w.log <= w'.log && |w'.log| == |w.log| + 2 && NoWrites(w'.log, |w.log|)
            && found == Ok(Observation(cfg, ko, arn, t, Token(env.tells(|w.log|), t), t.tags))
  {
    hide Observation;
    Serves(env, w, GetByArn(arn));
    var w1 := Invoke(env, w, GetByArn(arn)).0;
    Serves(env, w1, ListTags(arn));
  }

  /** What is compared: the desired object with the AWS tags mirrored into it, against the
      observation. */
  lemma ComparedSpecs(cfg: Config, ko: Ko, arn: string, t: Table, told: bool)
    requires ArnOf(ko.status) == Some(arn)
    ensures var latest := Observation(cfg, Desired(cfg, ko), arn, t, Token(told, t), t.tags);
            var d := Mirror(Desired(cfg, ko), latest);
            && d.spec.name == ko.spec.name && latest.spec.name == Some(t.place.name)
            && d.spec.metadataLocation == ko.spec.metadataLocation && latest.spec.metadataLocation == t.location
            && latest.spec.tags == FromService(t.tags)
            && d.spec.tags == MirroredTags(EnsuredTags(ko.spec.tags, cfg.defaultTags), FromService(t.tags))
            && ObservedTarget(latest) == Target(ko.spec.tableBucketARN, Some(t.place.namespace), Some(t.place.name))
            && latest.status.versionToken == Token(told, t) && ArnOf(latest.status) == Some(arn)
  {
  }

  lemma ComparedTags(cfg: Config, ko: Ko, t: Table)
    ensures ToAck(FromService(t.tags)) == t.tags
    ensures ToAck(MirroredTags(EnsuredTags(ko.spec.tags, cfg.defaultTags), FromService(t.tags)))
         == Mirrored(TargetTags(cfg, ko), t.tags)
    ensures Pending(TargetTags(cfg, ko), t.tags) == {} <==> Mirrored(TargetTags(cfg, ko), t.tags) == t.tags
  {
    var target := TargetTags(cfg, ko);
    assert ToAck(FromService(t.tags)) == t.tags;
    FromAckToAck(target);
    FromAckToAck(Mirrored(target, t.tags));
    PendingIsTheDifference(target, t.tags);
    hide Pending, Mirrored, ToAck, FromAck, Merge;
  }

  /** A table that has what its spec declares can still differ from it for ever: of the fields
      an update can change, only the metadata location is left, and exactly when the spec leaves
      it out while the service has one. */
  lemma UnsetLocationDeltaStays(cfg: Config, ko: Ko, arn: string, t: Table, told: bool)
    requires ArnOf(ko.status) == Some(arn) && Reached(cfg, ko, t)
    ensures var latest := Observation(cfg, Desired(cfg, ko), arn, t, Token(told, t), t.tags);
            var d := Mirror(Desired(cfg, ko), latest);
            var differences := Differences(d.spec, latest.spec);
            && D.Name !in differences && D.Tags !in differences
            && (D.MetadataLocation in differences <==> ko.spec.metadataLocation.None? && t.location.Some?)
            && UpdatePlan(d, latest, differences) == []
  {
    var latest := Observation(cfg, Desired(cfg, ko), arn, t, Token(told, t), t.tags);
    var d := Mirror(Desired(cfg, ko), latest);
    ComparedSpecs(cfg, ko, arn, t, told);
    ComparedTags(cfg, ko, t);
    InDifferences(d.spec, latest.spec);
    hide Observation, Desired, Mirror, Differences, ToAck, Mirrored, MirroredTags, EnsuredTags, FromService, Pending,
      Token;
  }

  // ----- Executing an undisturbed update -----

  lemma ServesRename(s: State, arn: string, at: Target, newName: string, told: bool)
    requires Valid(s) && arn in s.tables
    requires var p := s.tables[arn].place; at == Target(Some(p.bucket), Some(p.namespace), Some(p.name))
    ensures var to := s.tables[arn].place.(name := newName);
            Serve(s, RenameTable(at, Some(newName), Token(told, s.tables[arn])))
            == if to in s.names then (s, Err(CONFLICT)) else (Move(s, arn, to), Ok(Done))
  {
  }

  lemma ServesUpdate(s: State, arn: string, at: Target, location: string, told: bool)
    requires Valid(s) && arn in s.tables
    requires var p := s.tables[arn].place; at == Target(Some(p.bucket), Some(p.namespace), Some(p.name))
    ensures Serve(s, UpdateLocation(at, location, Token(told, s.tables[arn])))
         == (Commit(s, arn, Some(location)), Ok(Done))
  {
  }

  /** After a rename the old name resolves to nothing, so a write that still names it fails. */
  lemma OldNameIsGone(s: State, arn: string, newName: string, call: Call)
    requires Valid(s) && arn in s.tables && s.tables[arn].place.name != newName
    requires s.tables[arn].place.(name := newName) !in s.names
    requires call.UpdateLocation?
    requires var p := s.tables[arn].place; call.at == Target(Some(p.bucket), Some(p.namespace), Some(p.name))
    ensures var s' := Move(s, arn, s.tables[arn].place.(name := newName)); Serve(s', call) == (s', Err(MISSING))
  {
  }

  lemma MoveSets(s: State, arn: string, place: Place)
    requires arn in s.tables && place !in s.names
    ensures arn in Move(s, arn, place).tables
    ensures Move(s, arn, place).tables[arn] == s.tables[arn].(place := place, token := s.next)
  {
  }

  lemma CommitSets(s: State, arn: string, location: Option<string>)
    requires arn in s.tables
    ensures arn in Commit(s, arn, location).tables
    ensures Commit(s, arn, location).tables[arn] == s.tables[arn].(location := location, token := s.next)
  {
  }

  lemma RetagSets(s: State, arn: string, tags: AckTags)
    requires arn in s.tables
    ensures arn in Retag(s, arn, tags).tables && Retag(s, arn, tags).tables[arn] == s.tables[arn].(tags := tags)
    ensures Retag(s, arn, s.tables[arn].tags) == s
    ensures forall more :: Retag(Retag(s, arn, tags), arn, more) == Retag(s, arn, more)
  {
  }

  ghost function TagCallsFor(arn: string, target: AckTags, tags: AckTags): seq<Call> {
    var to := Mirrored(target, tags);
    (if ToRemove(tags, to) == {} then [] else [UntagTable(arn, ToRemove(tags, to))]) +
    (if ToAdd(tags, to) == map[] then [] else [TagTable(arn, ToAdd(tags, to))])
  }

  /** The tag calls of an undisturbed update. */
  lemma SettlesTags(env: Env, w: World, arn: string, target: AckTags)
    requires Undisturbed(env, |w.log|) && arn in w.state.tables
    ensures var tags := w.state.tables[arn].tags;
            var plan := TagCallsFor(arn, target, tags);
            var (w', err) := Execute(env, w, plan);
            && err.None? && w.log <= w'.log
            && w'.state == Retag(w.state, arn, Mirrored(target, tags))
            && (if plan == [] then w' == w else !NoWrites(w'.log, |w.log|))
            && (plan == [] <==> Mirrored(target, tags) == tags)
  {
    var tags := w.state.tables[arn].tags;
    var to := Mirrored(target, tags);
    SyncTagsReachesDesired(tags, to);
    var removed, added := ToRemove(tags, to), ToAdd(tags, to);
    RetagSets(w.state, arn, tags - removed);
    hide Mirrored, ToRemove, ToAdd, Serve, Invoke, Retag, Execute, NoWrites;
    var untag, tag := UntagTable(arn, removed), TagTable(arn, added);
    ExecuteAppend(env, w, if removed == {} then [] else [untag], if added == map[] then [] else [tag]);
    MaybeTagCall(env, w, arn, untag, removed == {});
    var w1 := Execute(env, w, if removed == {} then [] else [untag]).0;
    MaybeTagCall(env, w1, arn, tag, added == map[]);
    LongerLogsKeepWrites(w, w1, Execute(env, w1, if added == map[] then [] else [tag]).0);
  }

  /** One tag call that is left out just when it has nothing to do. */
  lemma MaybeTagCall(env: Env, w: World, arn: string, call: Call, nothing: bool)
    requires Undisturbed(env, |w.log|) && arn in w.state.tables
    requires (call.UntagTable? || call.TagTable?) && call.arn == arn
    requires nothing == if call.UntagTable? then call.keys == {} else call.added == map[]
    ensures var tags := w.state.tables[arn].tags;
            var (w', err) := Execute(env, w, if nothing then [] else [call]);
            && err.None? && w.log <= w'.log
            && w'.state == Retag(w.state, arn, if call.UntagTable? then tags - call.keys else tags + call.added)
            && arn in w'.state.tables
            && w'.state.tables[arn].tags == (if call.UntagTable? then tags - call.keys else tags + call.added)
            && (if nothing then w' == w && NoWrites(w'.log, |w.log|) else !NoWrites(w'.log, |w.log|))
  {
    var tags := w.state.tables[arn].tags;
    RetagSets(w.state, arn, if call.UntagTable? then tags - call.keys else tags + call.added);
    hide Serve, Invoke, Retag;
    if nothing {
      assert tags - {} == tags && tags + map[] == tags;
    } else {
      TagCallServes(env, w, arn, call);
      assert Execute(env, w, [call]).0.log[|w.log|].call == call;
    }
  }

  lemma TagCallServes(env: Env, w: World, arn: string, call: Call)
    requires Undisturbed(env, |w.log|) && arn in w.state.tables
    requires (call.UntagTable? || call.TagTable?) && call.arn == arn
    ensures var (w', err) := Execute(env, w, [call]);
            && err.None? && w'.log == w.log + [Event(call, w.state, w'.state)]
            && w'.state == Retag(w.state, arn, if call.UntagTable? then w.state.tables[arn].tags - call.keys
                                               else w.state.tables[arn].tags + call.added)
  {
    Serves(env, w, call);
    assert [call][1..] == [];
  }

  // ----- One pass -----

  ghost function Plan(cfg: Config, ko: Ko, arn: string, t: Table, told: bool): seq<Call>
    requires ArnOf(ko.status) == Some(arn)
  {
    var latest := Observation(cfg, Desired(cfg, ko), arn, t, Token(told, t), t.tags);
    var d := Mirror(Desired(cfg, ko), latest);
    UpdatePlan(d, latest, Differences(d.spec, latest.spec))
  }

  lemma PlanIs(cfg: Config, ko: Ko, arn: string, t: Table, told: bool)
    requires ArnOf(ko.status) == Some(arn) && ko.spec.name.Some?
    ensures var at := Target(ko.spec.tableBucketARN, Some(t.place.namespace), Some(t.place.name));
            var token := Token(told, t);
            Plan(cfg, ko, arn, t, told) ==
              (if NameDiffers(ko, t) then [RenameTable(at, ko.spec.name, token)] else []) +
              (if LocationDiffers(ko, t) then [UpdateLocation(at, ko.spec.metadataLocation.value, token)] else []) +
              TagCallsFor(arn, TargetTags(cfg, ko), t.tags)
  {
    var latest := Observation(cfg, Desired(cfg, ko), arn, t, Token(told, t), t.tags);
    var d := Mirror(Desired(cfg, ko), latest);
    ComparedSpecs(cfg, ko, arn, t, told);
    ComparedTags(cfg, ko, t);
    InDifferences(d.spec, latest.spec);
    SyncTagsReachesDesired(t.tags, Mirrored(TargetTags(cfg, ko), t.tags));
    hide Observation, Desired, Mirror, Differences, ToAck, Mirrored, ToRemove, ToAdd, MirroredTags, EnsuredTags,
      FromService, Pending, Token;
  }

  lemma MirroredSettles(target: AckTags, tags: AckTags)
    ensures Pending(target, Mirrored(target, tags)) == {}
  {
  }

  ghost function Renaming(ko: Ko, t: Table, told: bool): seq<Call>
    requires ko.spec.name.Some?
  {
    if NameDiffers(ko, t) then
      [RenameTable(Target(ko.spec.tableBucketARN, Some(t.place.namespace), Some(t.place.name)), ko.spec.name,
                   Token(told, t))]
    else []
  }

  ghost function Relocating(ko: Ko, t: Table, told: bool): seq<Call> {
    if LocationDiffers(ko, t) then
      [UpdateLocation(Target(ko.spec.tableBucketARN, Some(t.place.namespace), Some(t.place.name)),
                      ko.spec.metadataLocation.value, Token(told, t))]
    else []
  }

  lemma RenamingOutcome(env: Env, w: World, ko: Ko, arn: string, told: bool)
    requires Manages(ko, w.state, arn) && Undisturbed(env, |w.log|)
    ensures var t := w.state.tables[arn];
            var (w', err) := Execute(env, w, Renaming(ko, t, told));
            && w.log <= w'.log && (if NameDiffers(ko, t) then !NoWrites(w'.log, |w.log|) else w' == w)
            && w'.state == (if NameDiffers(ko, t) && WantedPlace(ko, t) !in w.state.names
                            then Move(w.state, arn, WantedPlace(ko, t)) else w.state)
            && err == if NameDiffers(ko, t) && WantedPlace(ko, t) in w.state.names then Some(CONFLICT) else None
  {
    var t := w.state.tables[arn];
    if NameDiffers(ko, t) {
      var call := Renaming(ko, t, told)[0];
      ServesRename(w.state, arn, call.at, ko.spec.name.value, told);
      hide Serve, Move, Valid;
      Serves(env, w, call);
      assert Renaming(ko, t, told)[1..] == [];
      assert Invoke(env, w, call).0.log[|w.log|].call == call;
    }
  }

  /** `t` is what was observed before the rename, if there was one. */
  lemma RelocatingOutcome(env: Env, w: World, ko: Ko, arn: string, s: State, moved: bool, told: bool)
    requires Manages(ko, s, arn) && Undisturbed(env, |w.log|)
    requires if moved then NameDiffers(ko, s.tables[arn]) && WantedPlace(ko, s.tables[arn]) !in s.names
                           && w.state == Move(s, arn, WantedPlace(ko, s.tables[arn]))
             else w.state == s
    ensures var t := s.tables[arn];
            var (w', err) := Execute(env, w, Relocating(ko, t, told));
            && w.log <= w'.log && (if LocationDiffers(ko, t) then !NoWrites(w'.log, |w.log|) else w' == w)
            && w'.state == (if LocationDiffers(ko, t) && !moved then Commit(s, arn, ko.spec.metadataLocation)
                            else w.state)
            && err == if LocationDiffers(ko, t) && moved then Some(MISSING) else None
  {
    var t := s.tables[arn];
    if LocationDiffers(ko, t) {
      var call := Relocating(ko, t, told)[0];
      if moved {
        OldNameIsGone(s, arn, ko.spec.name.value, call);
      } else {
        ServesUpdate(s, arn, call.at, call.location, told);
      }
      hide Serve, Move, Commit, Valid;
      Serves(env, w, call);
      assert Relocating(ko, t, told)[1..] == [];
      assert Invoke(env, w, call).0.log[|w.log|].call == call;
    }
  }

  lemma LongerLogsKeepWrites(w0: World, w1: World, w2: World)
    requires w0.log <= w1.log <= w2.log
    ensures !NoWrites(w1.log, |w0.log|) ==> !NoWrites(w2.log, |w0.log|)
    ensures NoWrites(w1.log, |w0.log|) ==> (NoWrites(w2.log, |w0.log|) <==> NoWrites(w2.log, |w1.log|))
  {
  }

  /** The state an undisturbed update that does not stop leaves. */
  ghost function Updated(cfg: Config, ko: Ko, arn: string, s: State): State
    requires Manages(ko, s, arn)
  {
    var t := s.tables[arn];
    var s1 := if NameDiffers(ko, t) then Move(s, arn, WantedPlace(ko, t)) else s;
    var s2 := if LocationDiffers(ko, t) then Commit(s1, arn, ko.spec.metadataLocation) else s1;
    Retag(s2, arn, Mirrored(TargetTags(cfg, ko), t.tags))
  }

  lemma UpdatedIsReached(cfg: Config, ko: Ko, arn: string, s: State)
    requires Manages(ko, s, arn)
    requires NameDiffers(ko, s.tables[arn]) ==> WantedPlace(ko, s.tables[arn]) !in s.names
    ensures var s' := Updated(cfg, ko, arn, s);
            Valid(s') && arn in s'.tables && Reached(cfg, ko, s'.tables[arn]) &&
            s'.tables[arn].place.bucket == s.tables[arn].place.bucket
    ensures Reached(cfg, ko, s.tables[arn]) ==> Updated(cfg, ko, arn, s) == s
  {
    hide Valid, Frozen, Mirrored, Pending, TargetTags, Move, Commit, Retag;
    var t := s.tables[arn];
    var place, location := WantedPlace(ko, t), ko.spec.metadataLocation;
    var s1 := if NameDiffers(ko, t) then Move(s, arn, place) else s;
    MoveIsSound(s, arn, place);
    if NameDiffers(ko, t) {
      MoveSets(s, arn, place);
    }
    var s2 := if LocationDiffers(ko, t) then Commit(s1, arn, location) else s1;
    CommitIsSound(s1, arn, location);
    CommitSets(s1, arn, location);
    var to := Mirrored(TargetTags(cfg, ko), t.tags);
    RetagIsSound(s2, arn, to);
    RetagSets(s2, arn, to);
    MirroredSettles(TargetTags(cfg, ko), t.tags);
    PendingIsTheDifference(TargetTags(cfg, ko), t.tags);
  }

  lemma PassIs(env: Env, cfg: Config, w: World, ko: Ko, arn: string)
    requires Quiet(env, |w.log|) && Quiet(env, |w.log| + 1) && arn in w.state.tables && ArnOf(ko.status) == Some(arn)
    ensures var t, told := w.state.tables[arn], env.tells(|w.log|);
            var (w2, err) := Execute(env, Find(env, cfg, w, Desired(cfg, ko)).0, Plan(cfg, ko, arn, t, told));
            var r := Pass(env, cfg, w, ko);
            r.world == w2 && r.err == err && r.stored.spec == ko.spec && ArnOf(r.stored.status) == Some(arn)
  {
    var asked := Desired(cfg, ko);
    FindsItself(env, cfg, w, asked, arn);
    var t, told := w.state.tables[arn], env.tells(|w.log|);
    var observed := Observation(cfg, asked, arn, t, Token(told, t), t.tags);
    ObservedGuard(cfg, asked, arn, t, Token(told, t), t.tags);
    hide Differences, Observation, Find, EnsuredTags, MirroredTags, C.Concluded, TagPlan, Reported, Invoke;
    ConclusionsKeep(cfg, observed, None);
    var latest := Concluded(cfg, observed, None);
    var d := Mirror(asked, latest);
    SamePlan(d, observed, latest, Differences(d.spec, latest.spec));
    var (w2, err) := Execute(env, Find(env, cfg, w, asked).0, Plan(cfg, ko, arn, t, told));
    ConclusionsKeep(cfg, latest, err);
    ConclusionsKeep(cfg, Ko(d.spec, latest.status), None);
  }

  lemma SamePlan(d: Ko, l: Ko, l': Ko, differences: set<D.Segment>)
    requires l.spec == l'.spec && ArnOf(l.status) == ArnOf(l'.status) && l.status.versionToken == l'.status.versionToken
    ensures UpdatePlan(d, l, differences) == UpdatePlan(d, l', differences)
    ensures UpdatePlan(d, l, {}) == []
  {
    hide ToAck, ToAdd, ToRemove;
  }

  /** The three cases, from any state with no foreign writer and no failures. */
  lemma PassOutcome(env: Env, cfg: Config, w: World, ko: Ko, arn: string)
    requires Manages(ko, w.state, arn) && Undisturbed(env, |w.log|)
    ensures var r := Pass(env, cfg, w, ko);
            && Outcome(cfg, ko, arn, w.state, r)
            && w.log <= r.world.log
            && (NoWrites(r.world.log, |w.log|) <==> Reached(cfg, ko, w.state.tables[arn]))
            && (Reached(cfg, ko, w.state.tables[arn]) ==> r.world.state == w.state)
  {
    hide Valid, Differences, Observation, Execute, Pending, Mirrored, Find, UpdatePlan, Move, EnsuredTags, MirroredTags,
      Mirror, Plan, Pass, NoWrites, Outcome, Reached, TargetTags, Updated, TagCallsFor;
    var s, t, told := w.state, w.state.tables[arn], env.tells(|w.log|);
    var asked := Desired(cfg, ko);
    FindsItself(env, cfg, w, asked, arn);
    PlanIs(cfg, ko, arn, t, told);
    ComparedSpecs(cfg, ko, arn, t, told);
    var w1 := Find(env, cfg, w, asked).0;
    UpdateOutcome(env, cfg, w1, ko, arn, told);
    var plan := Plan(cfg, ko, arn, t, told);
    var w2 := Execute(env, w1, plan).0;
    PassIs(env, cfg, w, ko, arn);
    LongerLogsKeepWrites(w, w1, w2);
    OutcomeHolds(cfg, ko, arn, s, Pass(env, cfg, w, ko));
  }

  lemma OutcomeHolds(cfg: Config, ko: Ko, arn: string, s: State, r: PassResult)
    requires Manages(ko, s, arn) && r.stored.spec == ko.spec && ArnOf(r.stored.status) == Some(arn)
    requires var t := s.tables[arn];
             if NameDiffers(ko, t) && WantedPlace(ko, t) in s.names then r.err == Some(CONFLICT) && r.world.state == s
             else if NameDiffers(ko, t) && LocationDiffers(ko, t) then
               r.err == Some(MISSING) && r.world.state == Move(s, arn, WantedPlace(ko, t))
             else r.err.None? && r.world.state == Updated(cfg, ko, arn, s)
    ensures Outcome(cfg, ko, arn, s, r)
    ensures Reached(cfg, ko, s.tables[arn]) ==> r.world.state == s
  {
    var t := s.tables[arn];
    MoveIsSound(s, arn, WantedPlace(ko, t));
    if NameDiffers(ko, t) ==> WantedPlace(ko, t) !in s.names {
      UpdatedIsReached(cfg, ko, arn, s);
    }
    hide Valid, Frozen, Updated, Pending, TargetTags;
  }

  lemma UpdateOutcome(env: Env, cfg: Config, w: World, ko: Ko, arn: string, told: bool)
    requires Manages(ko, w.state, arn) && Undisturbed(env, |w.log|)
    ensures var s, t := w.state, w.state.tables[arn];
            var plan := Renaming(ko, t, told) + Relocating(ko, t, told) + TagCallsFor(arn, TargetTags(cfg, ko), t.tags);
            var (w', err) := Execute(env, w, plan);
            && w.log <= w'.log
            && (NoWrites(w'.log, |w.log|) <==> Reached(cfg, ko, t))
            && if NameDiffers(ko, t) && WantedPlace(ko, t) in s.names then err == Some(CONFLICT) && w'.state == s
               else if NameDiffers(ko, t) && LocationDiffers(ko, t) then
                 err == Some(MISSING) && w'.state == Move(s, arn, WantedPlace(ko, t))
               else err.None? && w'.state == Updated(cfg, ko, arn, s)
  {
    hide Execute, Renaming, Relocating, TagCallsFor, Pending, Mirrored, Valid, NoWrites, TargetTags, Move, Commit,
      Retag;
    var s, t := w.state, w.state.tables[arn];
    var p1, p2, p3 := Renaming(ko, t, told), Relocating(ko, t, told), TagCallsFor(arn, TargetTags(cfg, ko), t.tags);
    var moved := NameDiffers(ko, t) && WantedPlace(ko, t) !in s.names;
    ComparedTags(cfg, ko, t);
    ExecuteAppend(env, w, p1 + p2, p3);
    ExecuteAppend(env, w, p1, p2);
    RenamingOutcome(env, w, ko, arn, told);
    if moved {
      MoveSets(s, arn, WantedPlace(ko, t));
    }
    CommitSets(s, arn, ko.spec.metadataLocation);
    var (w1, e1) := Execute(env, w, p1);
    if e1.None? {
      RelocatingOutcome(env, w1, ko, arn, s, moved, told);
      var (w2, e2) := Execute(env, w1, p2);
      LongerLogsKeepWrites(w, w1, w2);
      if e2.None? {
        SettlesTags(env, w2, arn, TargetTags(cfg, ko));
        var w3 := Execute(env, w2, p3).0;
        LongerLogsKeepWrites(w, w2, w3);
        LongerLogsKeepWrites(w1, w2, w3);
        NothingYet(w);
      }
    }
  }

  lemma NothingYet(w: World)
    ensures NoWrites(w.log, |w.log|)
  {
  }

  // ----- Runs -----

  /** A table that has what its spec declares is never written again. */
  lemma {:induction false} ReachedStaysQuiet(env: Env, cfg: Config, w: World, ko: Ko, arn: string, passes: nat)
    requires Manages(ko, w.state, arn) && Undisturbed(env, |w.log|) && Reached(cfg, ko, w.state.tables[arn])
    ensures var (w', _) := Run(env, cfg, w, ko, passes);
            w.log <= w'.log && NoWrites(w'.log, |w.log|) && w'.state == w.state
    decreases passes
  {
    hide Valid, Pass, Pending, TargetTags;
    if passes > 0 {
      var r := Pass(env, cfg, w, ko);
      PassOutcome(env, cfg, w, ko, arn);
      assert Reached(cfg, r.stored, r.world.state.tables[arn]) by {
        SameTarget(cfg, ko, r.stored, w.state.tables[arn]);
      }
      ReachedStaysQuiet(env, cfg, r.world, r.stored, arn, passes - 1);
      LongerLogsKeepWrites(w, r.world, Run(env, cfg, r.world, r.stored, passes - 1).0);
    }
  }

  lemma SameTarget(cfg: Config, ko: Ko, ko': Ko, t: Table)
    requires ko'.spec == ko.spec
    ensures Reached(cfg, ko, t) == Reached(cfg, ko', t)
  {
  }

  /** Unless another table holds the wanted name, two undisturbed passes bring the table to its
      declared name, location and tags, and no later pass issues a write. The first pass alone
      is enough exactly when not both the name and a declared location differ: otherwise its
      metadata write still names the table by its old name and fails. */
  lemma TwoPassesSuffice(env: Env, cfg: Config, w: World, ko: Ko, arn: string, later: nat)
    requires Manages(ko, w.state, arn) && Undisturbed(env, |w.log|)
    requires NameDiffers(ko, w.state.tables[arn]) ==> WantedPlace(ko, w.state.tables[arn]) !in w.state.names
    ensures var r1 := Pass(env, cfg, w, ko);
            var t := w.state.tables[arn];
            && (r1.err.None? <==> !(NameDiffers(ko, t) && LocationDiffers(ko, t)))
            && Manages(r1.stored, r1.world.state, arn)
            && (r1.err.None? <==> Reached(cfg, ko, r1.world.state.tables[arn]))
    ensures var r1 := Pass(env, cfg, w, ko);
            var r2 := Pass(env, cfg, r1.world, r1.stored);
            var (w', _) := Run(env, cfg, r2.world, r2.stored, later);
            && r2.err.None? && Manages(r2.stored, r2.world.state, arn)
            && Reached(cfg, ko, r2.world.state.tables[arn])
            && r2.world.log <= w'.log && NoWrites(w'.log, |r2.world.log|) && w'.state == r2.world.state
  {
    hide Valid, Pass, Pending, TargetTags, Run;
    var s, t := w.state, w.state.tables[arn];
    var r1 := Pass(env, cfg, w, ko);
    PassOutcome(env, cfg, w, ko, arn);
    var t1 := r1.world.state.tables[arn];
    PassOutcome(env, cfg, r1.world, r1.stored, arn);
    var r2 := Pass(env, cfg, r1.world, r1.stored);
    SameTarget(cfg, ko, r2.stored, r2.world.state.tables[arn]);
    SameTarget(cfg, ko, r1.stored, r2.world.state.tables[arn]);
    ReachedStaysQuiet(env, cfg, r2.world, r2.stored, arn, later);
  }

  /** While another table holds the wanted name, every pass ends in the same conflict and
      changes nothing. */
  lemma TakenNameBlocks(env: Env, cfg: Config, w: World, ko: Ko, arn: string)
    requires Manages(ko, w.state, arn) && Undisturbed(env, |w.log|)
    ensures var t := w.state.tables[arn];
            NameDiffers(ko, t) && WantedPlace(ko, t) in w.state.names <==> Pass(env, cfg, w, ko).err == Some(CONFLICT)
    ensures Pass(env, cfg, w, ko).err == Some(CONFLICT) ==> Pass(env, cfg, w, ko).world.state == w.state
  {
    hide Valid, Pass, Reached;
    PassOutcome(env, cfg, w, ko, arn);
    assert CONFLICT != MISSING;
  }
}
