/** Whole passes and whole runs of passes of the TableBucket reconciler. */
module BucketRuns {
  import opened Types
  import opened Tags
  import opened Maintenance
  import opened BucketService
  import opened BucketPass
  import opened BucketConvergence
  import C = Conditions

  // ----- Reads -----

  ghost predicate OnlyReads(plan: seq<Item>) {
    forall i :: i in plan ==> i.Send? && !IsWrite(i.call)
  }

  lemma ReadChangesNothing(env: Env, cfg: Config, d: TableBucketSpec, w: World, call: Call)
    requires !IsWrite(call)
    ensures var w' := Invoke(env, w, call).0;
            Progress(cfg, d, w, w') && w'.Now() == w.Now() && NoWrites(w', |w.log|) && |w'.log| == |w.log| + 1
  {
    hide Pend, SameSetting;
    var w' := Invoke(env, w, call).0;
    assert w'.At(|w.log|) == w.Now() && w'.Now() == w.Now();
    SameSettingIsReflexive(w.Now());
    assert forall s :: !Writes(call, s);
    hide Invoke, Writes;
  }

  lemma {:induction false} ReadsChangeNothing(env: Env, cfg: Config, d: TableBucketSpec, w: World, plan: seq<Item>)
    requires OnlyReads(plan)
    ensures var (w', err) := Execute(env, w, plan);
            && Progress(cfg, d, w, w') && w'.Now() == w.Now() && NoWrites(w', |w.log|)
            && (NoFaults(env, |w.log|) ==> err.None?)
    decreases |plan|
  {
    hide Pend, Advances;
    if plan != [] {
      assert plan[0] in plan;
      var call := plan[0].call;
      var w1 := Invoke(env, w, call).0;
      ReadChangesNothing(env, cfg, d, w, call);
      ReadsChangeNothing(env, cfg, d, w1, plan[1..]);
      ProgressIsTransitive(cfg, d, w, w1, Execute(env, w1, plan[1..]).0);
    }
  }

  lemma FindChangesNothing(env: Env, cfg: Config, d: TableBucketSpec, w: World, ko: Ko)
    ensures var (w', found) := Find(env, cfg, w, ko);
            && Progress(cfg, d, w, w') && w'.Now() == w.Now() && NoWrites(w', |w.log|)
            && (found.Ok? ==> found.value == Observation(cfg, ko, w.Now()))
            && (NoFaults(env, |w.log|) && ArnOf(ko.status).Some? ==> found.Ok?)
  {
    hide Pend, Advances, Observation, Execute;
    if ArnOf(ko.status).Some? {
      ReadChangesNothing(env, cfg, d, w, GetTableBucket);
      var w1 := Invoke(env, w, GetTableBucket).0;
      ReadsChangeNothing(env, cfg, d, w1, CONFIGURATION_READS);
      ProgressIsTransitive(cfg, d, w, w1, Execute(env, w1, CONFIGURATION_READS).0);
    }
  }

  // ----- What a run can write in total -----

  /** The writes to `setting` that took effect. */
  ghost function Taken(setting: Setting, events: seq<Event>): nat {
    if events == [] then 0
    else
      var last := events[|events| - 1];
      Taken(setting, events[..|events| - 1]) + if last.took && Writes(last.call, setting) then 1 else 0
  }

  lemma {:induction false} TakenAppend(setting: Setting, a: seq<Event>, b: seq<Event>)
    ensures Taken(setting, a + b) == Taken(setting, a) + Taken(setting, b)
  {
    if b == [] {
      assert a + b == a;
    } else {
      assert (a + b)[..|a + b| - 1] == a + b[..|b| - 1];
      TakenAppend(setting, a, b[..|b| - 1]);
    }
  }

  /** The measure pays for every write that takes effect; a setting nobody writes to keeps its
      value. */
  lemma {:induction false} ProgressPays(cfg: Config, d: TableBucketSpec, w: World, w': World, s: Setting)
    requires Progress(cfg, d, w, w')
    ensures Pend(cfg, s, d, w'.Now()) + Taken(s, w'.log[|w.log|..]) <= Pend(cfg, s, d, w.Now())
    ensures Taken(s, w'.log[|w.log|..]) == 0 ==> SameSetting(s, w.Now(), w'.Now())
    decreases |w'.log|
  {
    hide Pend, Advances, Writes;
    if |w'.log| == |w.log| {
      assert w'.log == w.log;
    } else {
      var n := |w'.log| - 1;
      var w1 := World(w'.start, w'.log[..n]);
      Shorter(cfg, d, w, w', w1);
      ProgressPays(cfg, d, w, w1, s);
      var taken := w'.log[|w.log|..];
      assert w1.log[|w.log|..] == taken[..|taken| - 1] && taken[|taken| - 1] == w'.log[n];
      SameSettingSamePend(cfg, d, s, w1.Now(), w'.log[n]);
    }
  }

  lemma Shorter(cfg: Config, d: TableBucketSpec, w: World, w': World, w1: World)
    requires Progress(cfg, d, w, w') && |w'.log| > |w.log|
    requires w1 == World(w'.start, w'.log[..|w'.log| - 1])
    ensures Progress(cfg, d, w, w1) && Advances(cfg, d, w1.Now(), w'.log[|w'.log| - 1])
  {
    hide Advances;
    assert forall i :: 0 <= i <= |w1.log| ==> w1.At(i) == w'.At(i);
  }

  lemma SameSettingSamePend(cfg: Config, d: TableBucketSpec, s: Setting, before: Bucket, e: Event)
    requires Advances(cfg, d, before, e)
    ensures if e.took && Writes(e.call, s) then Pend(cfg, s, d, e.after) < Pend(cfg, s, d, before)
            else SameSetting(s, before, e.after) && Pend(cfg, s, d, e.after) == Pend(cfg, s, d, before)
  {
  }

  // ----- One pass -----

  /** Late-initialising from an observation never leaves more to write. */
  lemma LateInitPends(cfg: Config, ko: Ko, status: TableBucketStatus, b: Bucket, s: Setting)
    ensures var stored := LateInitialized(Observation(cfg, Ko(ko.spec, status), b).spec, ko.spec);
            && Pend(cfg, s, stored, b) <= Pend(cfg, s, ko.spec, b)
            && (Echoable(cfg, s, ko.spec) ==> Echoable(cfg, s, stored) || Pend(cfg, s, stored, b) == 0)
  {
  }

  ghost predicate PassSound(env: Env, cfg: Config, w: World, ko: Ko, r: PassResult) {
    && Progress(cfg, ko.spec, w, r.world)
    && (forall s :: Pend(cfg, s, r.stored.spec, r.world.Now()) <= Pend(cfg, s, ko.spec, r.world.Now()))
    && Fine(cfg, r.stored.spec, r.world.Now())
    && (r.err.None? ==> Settled(cfg, ko.spec, r.world.Now()))
    && (NoFaults(env, |w.log|) && ArnOf(ko.status).Some? ==> r.err.None?)
    && (Settled(cfg, ko.spec, w.Now()) ==> NoWrites(r.world, |w.log|))
    && (r.err.None? && NoWrites(r.world, |w.log|) ==> Settled(cfg, ko.spec, w.Now()))
    && (ArnOf(ko.status).Some? ==> ArnOf(r.stored.status).Some?)
  }

  lemma FineIsKept(cfg: Config, d: TableBucketSpec, w: World, w': World)
    requires Fine(cfg, d, w.Now()) && Progress(cfg, d, w, w')
    ensures Fine(cfg, d, w'.Now())
    ensures Settled(cfg, d, w.Now()) ==> Settled(cfg, d, w'.Now())
  {
    hide Pend, Echoable, Advances;
    forall s
      ensures Echoable(cfg, s, d) || Pend(cfg, s, d, w'.Now()) == 0
      ensures Pend(cfg, s, d, w.Now()) == 0 ==> Pend(cfg, s, d, w'.Now()) == 0
    {
      assert Echoable(cfg, s, d) || Pend(cfg, s, d, w.Now()) == 0;
      ProgressPays(cfg, d, w, w', s);
    }
  }

  lemma SettledIsFine(cfg: Config, d: TableBucketSpec, b: Bucket)
    requires Settled(cfg, d, b)
    ensures Fine(cfg, d, b)
  {
  }

  lemma WritesAdd(w0: World, w1: World, w2: World)
    requires w0.log <= w1.log <= w2.log
    ensures NoWrites(w2, |w0.log|) <==> NoWrites(w1, |w0.log|) && NoWrites(w2, |w1.log|)
  {
  }

  lemma FinishIsSound(env: Env, cfg: Config, w0: World, w: World, ko: Ko, latest: Ko, changed: bool)
    requires Settled(cfg, ko.spec, w.Now()) && ArnOf(latest.status).Some?
    requires Progress(cfg, ko.spec, w0, w)
    requires Settled(cfg, ko.spec, w0.Now()) <==> NoWrites(w, |w0.log|)
    ensures PassSound(env, cfg, w0, ko, Finish(env, cfg, w, ko, latest, changed))
  {
    hide Pend, Echoable, Advances, NoWrites, Observation, LateInitialized, Find, C.Concluded, C.Set;
    var r := Finish(env, cfg, w, ko, latest, changed);
    FindChangesNothing(env, cfg, ko.spec, w, latest);
    ProgressIsTransitive(cfg, ko.spec, w0, w, r.world);
    WritesAdd(w0, w, r.world);
    forall s
      ensures Pend(cfg, s, r.stored.spec, r.world.Now()) <= Pend(cfg, s, ko.spec, r.world.Now())
    {
      if r.err.None? && changed {
        LateInitPends(cfg, ko, latest.status, w.Now(), s);
        SameLateInit(cfg, ko.spec, latest, w.Now());
        var (_, again) := Find(env, cfg, w, latest);
        assert r.stored.spec == LateInitialized(again.value.spec, ko.spec);
      }
    }
  }

  lemma SameLateInit(cfg: Config, spec: TableBucketSpec, latest: Ko, b: Bucket)
    ensures LateInitialized(Observation(cfg, latest, b).spec, spec)
         == LateInitialized(Observation(cfg, Ko(spec, latest.status), b).spec, spec)
  {
  }

  lemma ObservedArn(cfg: Config, ko: Ko, b: Bucket)
    ensures ArnOf(Observation(cfg, ko, b).status) == Some(b.arn)
  {
  }

  /** A pass that stops on an error keeps the stored spec. */
  lemma StoppedIsSound(env: Env, cfg: Config, w0: World, w: World, ko: Ko, r: PassResult)
    requires Fine(cfg, ko.spec, w.Now())
    requires Progress(cfg, ko.spec, w0, w)
    requires Settled(cfg, ko.spec, w0.Now()) ==> NoWrites(w, |w0.log|)
    requires !(NoFaults(env, |w0.log|) && ArnOf(ko.status).Some?)
    requires r.world == w && r.stored.spec == ko.spec && r.err.Some?
    requires ArnOf(ko.status).Some? ==> ArnOf(r.stored.status).Some?
    ensures PassSound(env, cfg, w0, ko, r)
  {
  }

  lemma ConclusionsKeep(cfg: Config, ko: Ko, outcome: Option<Error>)
    ensures Concluded(cfg, ko, outcome).spec == ko.spec && ArnOf(Concluded(cfg, ko, outcome).status) == ArnOf(ko.status)
    ensures ArnOf(LateInitFailed(ko.status)) == ArnOf(LateInitDone(ko.status)) == ArnOf(ko.status)
  {
    hide C.Concluded, C.Set;
  }

  /** The update, run right after the reads that `w1` ends with. */
  lemma UpdateIsSound(env: Env, cfg: Config, w0: World, w1: World, ko: Ko, order: seq<string>)
    requires Enumerates(order, Entries(ko.spec.maintenance).Keys)
    requires Fine(cfg, ko.spec, w1.Now())
    requires Progress(cfg, ko.spec, w0, w1) && w0.Now() == w1.Now() && NoWrites(w1, |w0.log|)
    ensures var latest := Observation(cfg, Desired(cfg, ko), w1.Now());
            var d := Mirror(Desired(cfg, ko), latest);
            var changes := Compared(cfg, d.spec, latest.spec);
            var (w2, err) := Execute(env, w1, UpdatePlan(d.spec, latest.spec, changes, order));
            && Progress(cfg, ko.spec, w0, w2)
            && Fine(cfg, ko.spec, w2.Now())
            && (err.None? ==> Settled(cfg, ko.spec, w2.Now()))
            && (NoFaults(env, |w0.log|) ==> err.None?)
            && (Settled(cfg, ko.spec, w0.Now()) <==> NoWrites(w2, |w0.log|))
            && (!changes.Any() ==> w2 == w1 && err.None?)
  {
    hide Pend, Echoable, Advances, NoWrites, Compared, StagePlans, StagePlan, Observation, SameSetting;
    var latest := Observation(cfg, Desired(cfg, ko), w1.Now());
    var d := Mirror(Desired(cfg, ko), latest);
    var changes := Compared(cfg, d.spec, latest.spec);
    SameSettingIsReflexive(w1.Now());
    assert forall s :: Echoable(cfg, s, ko.spec) || Pend(cfg, s, ko.spec, w1.Now()) == 0;
    StagesSettle(env, cfg, ALL_SETTINGS, ko.spec, w1.Now(), w1, order);
    UpdatePlanIsStages(cfg, ko, w1.Now(), order);
    var plan := UpdatePlan(d.spec, latest.spec, changes, order);
    assert !changes.Any() ==> plan == [];
    hide UpdatePlan, Execute;
    var (w2, err) := Execute(env, w1, plan);
    ProgressIsTransitive(cfg, ko.spec, w0, w1, w2);
    FineIsKept(cfg, ko.spec, w1, w2);
    WritesAdd(w0, w1, w2);
    AllSettings();
  }

  lemma AllSettings()
    ensures forall s :: s in ALL_SETTINGS
  {
    forall s: Setting
      ensures s in ALL_SETTINGS
    {
      match s {
        case Encryption => assert ALL_SETTINGS[0] == s;
        case StorageClass => assert ALL_SETTINGS[1] == s;
        case TagSet => assert ALL_SETTINGS[2] == s;
        case Policy => assert ALL_SETTINGS[3] == s;
        case MaintenanceConfig => assert ALL_SETTINGS[4] == s;
      }
    }
  }

  lemma SameSettingIsReflexive(b: Bucket)
    ensures forall s :: SameSetting(s, b, b)
  {
  }

  /** For every spec whose declared settings can be echoed, every service state and every
      pattern of failing calls. */
  lemma PassIsSound(env: Env, cfg: Config, w: World, ko: Ko, order: seq<string>)
    requires Fine(cfg, ko.spec, w.Now())
    requires Enumerates(order, Entries(ko.spec.maintenance).Keys)
    ensures PassSound(env, cfg, w, ko, Pass(env, cfg, w, ko, order))
  {
    hide Pend, Echoable, Advances, NoWrites, Find, Finish, Compared, UpdatePlan, Execute, StagePlans, Fine, Settled,
      PassSound, Observation, Concluded, Reported, C.IsRaised;
    var d0 := Desired(cfg, ko);
    FindChangesNothing(env, cfg, ko.spec, w, d0);
    var (w1, found) := Find(env, cfg, w, d0);
    FineIsKept(cfg, ko.spec, w, w1);
    if found.Err? {
      ConclusionsKeep(cfg, d0, Some(found.error));
      StoppedIsSound(env, cfg, w, w1, ko, Pass(env, cfg, w, ko, order));
    } else {
      ObservedArn(cfg, d0, w1.Now());
      ConclusionsKeep(cfg, found.value, None);
      var latest := Concluded(cfg, found.value, None);
      var d := Mirror(d0, latest);
      var changes := Compared(cfg, d.spec, latest.spec);
      UpdateIsSound(env, cfg, w, w1, ko, order);
      var (w2, err) := Execute(env, w1, UpdatePlan(d.spec, latest.spec, changes, order));
      if !changes.Any() {
        FinishIsSound(env, cfg, w, w1, ko, latest, false);
      } else if err.Some? {
        ConclusionsKeep(cfg, latest, err);
        StoppedIsSound(env, cfg, w, w2, ko, Pass(env, cfg, w, ko, order));
      } else {
        var updated := Ko(d.spec, latest.status);
        ConclusionsKeep(cfg, updated, None);
        FinishIsSound(env, cfg, w, w2, ko, Concluded(cfg, updated, None), true);
      }
    }
  }

  // ----- Runs of passes -----

  datatype RunResult = RunResult(world: World, stored: Ko)

  /** Any number of passes; `orders[i]` is the order in which pass i visits the declared
      maintenance types. */
  ghost function Run(env: Env, cfg: Config, w: World, ko: Ko, orders: seq<seq<string>>): RunResult
    requires Visits(env, cfg, w, ko, orders)
    decreases |orders|
  {
    if orders == [] then RunResult(w, ko)
    else
      var r := Pass(env, cfg, w, ko, orders[0]);
      Run(env, cfg, r.world, r.stored, orders[1..])
  }

  ghost predicate Visits(env: Env, cfg: Config, w: World, ko: Ko, orders: seq<seq<string>>)
    decreases |orders|
  {
    orders != [] ==>
      && Enumerates(orders[0], Entries(ko.spec.maintenance).Keys)
      && var r := Pass(env, cfg, w, ko, orders[0]);
         Visits(env, cfg, r.world, r.stored, orders[1..])
  }

  /** Some pass of the run ends without an error. */
  ghost predicate SomePassSucceeds(env: Env, cfg: Config, w: World, ko: Ko, orders: seq<seq<string>>)
    requires Visits(env, cfg, w, ko, orders)
    decreases |orders|
  {
    orders != [] &&
    var r := Pass(env, cfg, w, ko, orders[0]);
    r.err.None? || SomePassSucceeds(env, cfg, r.world, r.stored, orders[1..])
  }

  /** Over any run with any failures, the writes to a setting that take effect never number
      more than what was pending at the start, and what is still pending is the difference. */
  lemma {:induction false} RunIsBounded(env: Env, cfg: Config, w: World, ko: Ko, orders: seq<seq<string>>, s: Setting)
    requires Visits(env, cfg, w, ko, orders)
    requires Fine(cfg, ko.spec, w.Now())
    ensures var r := Run(env, cfg, w, ko, orders);
            && r.world.start == w.start && w.log <= r.world.log
            && Pend(cfg, s, r.stored.spec, r.world.Now()) + Taken(s, r.world.log[|w.log|..])
               <= Pend(cfg, s, ko.spec, w.Now())
            && (Taken(s, r.world.log[|w.log|..]) == 0 ==> SameSetting(s, w.Now(), r.world.Now()))
            && Fine(cfg, r.stored.spec, r.world.Now())
    decreases |orders|
  {
    hide Pend, Pass, Fine, Settled, NoWrites, NoFaults, Advances;
    if orders == [] {
      assert w.log[|w.log|..] == [];
    } else {
      var p := Pass(env, cfg, w, ko, orders[0]);
      PassIsSound(env, cfg, w, ko, orders[0]);
      ProgressPays(cfg, ko.spec, w, p.world, s);
      RunIsBounded(env, cfg, p.world, p.stored, orders[1..], s);
      var r := Run(env, cfg, p.world, p.stored, orders[1..]);
      assert r.world.log[|w.log|..] == p.world.log[|w.log|..] + r.world.log[|p.world.log|..];
      TakenAppend(s, p.world.log[|w.log|..], r.world.log[|p.world.log|..]);
    }
  }

  /** Once everything is settled, no pass of any later run issues a write, not even one that
      fails. */
  lemma {:induction false} SettledStaysQuiet(env: Env, cfg: Config, w: World, ko: Ko, orders: seq<seq<string>>)
    requires Visits(env, cfg, w, ko, orders)
    requires Settled(cfg, ko.spec, w.Now())
    ensures var r := Run(env, cfg, w, ko, orders);
            w.log <= r.world.log && NoWrites(r.world, |w.log|) && Settled(cfg, r.stored.spec, r.world.Now())
    decreases |orders|
  {
    hide Pend, Pass, Fine, NoFaults, Advances;
    assert Fine(cfg, ko.spec, w.Now()) by {
      SettledIsFine(cfg, ko.spec, w.Now());
    }
    if orders != [] {
      var p := Pass(env, cfg, w, ko, orders[0]);
      PassIsSound(env, cfg, w, ko, orders[0]);
      FineIsKept(cfg, ko.spec, w, p.world);
      SettledStaysQuiet(env, cfg, p.world, p.stored, orders[1..]);
      WritesAdd(w, p.world, Run(env, cfg, p.world, p.stored, orders[1..]).world);
    }
  }

  /** One pass without an error is enough, whatever failed before it and whatever fails
      after it. */
  lemma {:induction false} RunSettles(env: Env, cfg: Config, w: World, ko: Ko, orders: seq<seq<string>>)
    requires Visits(env, cfg, w, ko, orders)
    requires Fine(cfg, ko.spec, w.Now())
    requires SomePassSucceeds(env, cfg, w, ko, orders)
    ensures var r := Run(env, cfg, w, ko, orders); Settled(cfg, r.stored.spec, r.world.Now())
    decreases |orders|
  {
    hide Pend, Pass, Fine, NoFaults, Advances, NoWrites;
    var p := Pass(env, cfg, w, ko, orders[0]);
    PassIsSound(env, cfg, w, ko, orders[0]);
    if p.err.None? {
      SettledStaysQuiet(env, cfg, p.world, p.stored, orders[1..]);
    } else {
      RunSettles(env, cfg, p.world, p.stored, orders[1..]);
    }
  }

  /** As soon as calls stop failing, the next pass settles everything. */
  lemma NextPassSettles(env: Env, cfg: Config, w: World, ko: Ko, order: seq<string>)
    requires Enumerates(order, Entries(ko.spec.maintenance).Keys)
    requires Fine(cfg, ko.spec, w.Now())
    requires ArnOf(ko.status).Some? && NoFaults(env, |w.log|)
    ensures var r := Pass(env, cfg, w, ko, order);
            && r.err.None?
            && Measure(cfg, r.stored.spec, r.world.Now()) == 0
            && (NoWrites(r.world, |w.log|) <==> Measure(cfg, ko.spec, w.Now()) == 0)
  {
    hide Pend, Pass;
    PassIsSound(env, cfg, w, ko, order);
    MeasureIsZeroIff(cfg, ko.spec, w.Now());
    var r := Pass(env, cfg, w, ko, order);
    assert Settled(cfg, r.stored.spec, r.world.Now());
    MeasureIsZeroIff(cfg, r.stored.spec, r.world.Now());
  }

  lemma MeasureIsZeroIff(cfg: Config, d: TableBucketSpec, b: Bucket)
    ensures Measure(cfg, d, b) == 0 <==> Settled(cfg, d, b)
  {
  }

  /** A setting the spec leaves unset keeps the service's value through every run. */
  lemma UnsetSettingsArePreserved(env: Env, cfg: Config, w: World, ko: Ko, orders: seq<seq<string>>)
    requires Visits(env, cfg, w, ko, orders)
    requires Fine(cfg, ko.spec, w.Now())
    ensures var after := Run(env, cfg, w, ko, orders).world.Now();
            && (ko.spec.encryption.None? ==> after.encryption == w.Now().encryption)
            && (ko.spec.storageClass.None? ==> after.storageClass == w.Now().storageClass)
            && (ko.spec.maintenance.None? ==> after.maintenance == w.Now().maintenance)
  {
    RunIsBounded(env, cfg, w, ko, orders, Encryption);
    RunIsBounded(env, cfg, w, ko, orders, StorageClass);
    RunIsBounded(env, cfg, w, ko, orders, MaintenanceConfig);
    UnsetIsNotPending(cfg, ko.spec, w.Now());
    hide Pend, Fine, Run, Visits;
  }

  lemma UnsetIsNotPending(cfg: Config, d: TableBucketSpec, b: Bucket)
    ensures d.encryption.None? ==> Pend(cfg, Encryption, d, b) == 0
    ensures d.storageClass.None? ==> Pend(cfg, StorageClass, d, b) == 0
    ensures d.maintenance.None? ==> Pend(cfg, MaintenanceConfig, d, b) == 0
  {
  }
}
