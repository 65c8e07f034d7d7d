/** The limits of the TableBucket reconciler: maintenance types a spec does not declare are
    never touched by any run, and a pass settles everything exactly for well-formed specs. */
module BucketExactness {
  import opened Types
  import opened Tags
  import opened Maintenance
  import opened BucketService
  import opened BucketPass
  import opened BucketConvergence
  import opened BucketRuns
  import C = Conditions
  import D = Delta

  // ----- Undeclared maintenance types -----

  /** The maintenance configuration has the same entry, or none, at `t`. */
  ghost predicate SameAt(t: string, a: Bucket, b: Bucket) {
    if t in a.maintenance then t in b.maintenance && b.maintenance[t] == a.maintenance[t] else t !in b.maintenance
  }

  ghost predicate NeverPuts(plan: seq<Item>, t: string) {
    forall item :: item in plan && item.Send? && item.call.PutMaintenance? ==> item.call.jobType != t
  }

  lemma {:induction false} ExecuteKeepsType(env: Env, w: World, plan: seq<Item>, t: string)
    requires NeverPuts(plan, t)
    ensures SameAt(t, w.Now(), Execute(env, w, plan).0.Now())
    decreases |plan|
  {
    if plan != [] && plan[0].Send? {
      assert plan[0] in plan;
      var w1 := Invoke(env, w, plan[0].call).0;
      assert SameAt(t, w.Now(), w1.Now());
      ExecuteKeepsType(env, w1, plan[1..], t);
    }
  }

  /** The spec declares nothing for `t`, or nothing that is not in place already. */
  ghost predicate LeavesAlone(m: MaintenanceMap, b: Bucket, t: string) {
    t !in Entries(m) || Covered(m, Observed(b.maintenance))
  }

  lemma UpdateNeverPuts(cfg: Config, ko: Ko, b: Bucket, order: seq<string>, t: string)
    requires Enumerates(order, Entries(ko.spec.maintenance).Keys)
    requires LeavesAlone(ko.spec.maintenance, b, t)
    ensures var latest := Observation(cfg, Desired(cfg, ko), b);
            var d := Mirror(Desired(cfg, ko), latest);
            NeverPuts(UpdatePlan(d.spec, latest.spec, Compared(cfg, d.spec, latest.spec), order), t)
  {
    UpdatePlanIsStages(cfg, ko, b, order);
    FiveStages(cfg, ko.spec, b, order);
    StageNeverPuts(cfg, Encryption, ko.spec, b, order, t);
    StageNeverPuts(cfg, StorageClass, ko.spec, b, order, t);
    StageNeverPuts(cfg, TagSet, ko.spec, b, order, t);
    StageNeverPuts(cfg, Policy, ko.spec, b, order, t);
    StageNeverPuts(cfg, MaintenanceConfig, ko.spec, b, order, t);
    hide StagePlan, StagePlans, UpdatePlan, Compared, Observation, LeavesAlone;
  }

  lemma StageNeverPuts(cfg: Config, setting: Setting, d: TableBucketSpec, b: Bucket, order: seq<string>, t: string)
    requires Enumerates(order, Entries(d.maintenance).Keys)
    requires LeavesAlone(d.maintenance, b, t)
    ensures NeverPuts(StagePlan(cfg, setting, d, b, order), t)
  {
    if setting != MaintenanceConfig {
      StageShape(cfg, setting, d, b, order);
      hide StagePlan, OnlySends;
    } else if !Covered(d.maintenance, Observed(b.maintenance)) {
      MaintenanceShape(Entries(d.maintenance), order);
      hide MaintenancePlan, Covered;
    }
  }

  ghost predicate OnlyWrites(plan: seq<Item>, setting: Setting) {
    forall item :: item in plan && item.Send? ==> Writes(item.call, setting)
  }

  ghost predicate OnlySends(plan: seq<Item>) {
    forall item :: item in plan ==> item.Send?
  }

  lemma MaintenanceShape(d: map<string, Option<MaintenanceValue>>, order: seq<string>)
    requires forall k :: k in order ==> k in d
    ensures OnlyWrites(MaintenancePlan(d, order), MaintenanceConfig)
    ensures forall t :: t !in order ==> NeverPuts(MaintenancePlan(d, order), t)
  {
    forall item | item in MaintenancePlan(d, order) && item.Send?
      ensures item.call.PutMaintenance? && item.call.jobType in order
    {
      OnlyDeclaredTypesArePut(d, order, item.call);
    }
    hide MaintenancePlan;
  }

  lemma TagShape(d: TagMap, l: TagMap)
    ensures OnlyWrites(TagPlan(d, l), TagSet) && OnlySends(TagPlan(d, l))
  {
    hide ToAck, ToAdd, ToRemove;
  }

  lemma PlainShapes(d: TableBucketSpec)
    ensures OnlyWrites(EncryptionPlan(d), Encryption) && OnlySends(EncryptionPlan(d))
    ensures OnlyWrites(StorageClassPlan(d), StorageClass) && OnlySends(StorageClassPlan(d))
    ensures OnlyWrites(PolicyPlan(d), Policy) && OnlySends(PolicyPlan(d))
  {
  }

  /** A stage writes to its own setting only, and only the last one can give up. */
  lemma StageShape(cfg: Config, setting: Setting, d: TableBucketSpec, b: Bucket, order: seq<string>)
    requires Enumerates(order, Entries(d.maintenance).Keys)
    ensures var plan := StagePlan(cfg, setting, d, b, order);
            OnlyWrites(plan, setting) && (setting != MaintenanceConfig ==> OnlySends(plan))
  {
    hide Covered, D.EncryptionDiffers, ToAck, TagPlan, PolicyDiffers, MaintenancePlan, FromService, MirroredTags,
      EnsuredTags, Observed, ObservedEncryption, ObservedStorageClass, NeverPuts, OnlyWrites, OnlySends, EncryptionPlan,
      StorageClassPlan, PolicyPlan;
    NothingShape(setting);
    match setting {
      case Encryption => PlainShapes(d);
      case StorageClass => PlainShapes(d);
      case TagSet =>
        var observed := FromService(b.tags);
        TagShape(MirroredTags(EnsuredTags(d.tags, cfg.defaultTags), observed), observed);
      case Policy => PlainShapes(d);
      case MaintenanceConfig => MaintenanceShape(Entries(d.maintenance), order);
    }
  }

  lemma NothingShape(setting: Setting)
    ensures OnlyWrites([], setting) && OnlySends([])
  {
  }

  /** One pass, whether or not its spec is well-formed. */
  lemma PassKeepsType(env: Env, cfg: Config, w: World, ko: Ko, order: seq<string>, t: string)
    requires Enumerates(order, Entries(ko.spec.maintenance).Keys)
    requires LeavesAlone(ko.spec.maintenance, w.Now(), t)
    ensures var r := Pass(env, cfg, w, ko, order);
            && SameAt(t, w.Now(), r.world.Now())
            && (r.stored.spec.maintenance == ko.spec.maintenance ||
                (ko.spec.maintenance.None? && r.stored.spec.maintenance == Observed(r.world.Now().maintenance)))
  {
    hide Find, Observation, Compared, UpdatePlan, Execute, LeavesAlone, SameAt, NeverPuts, Finish, EnsuredTags,
      MirroredTags, Progress, NoWrites, Concluded, Reported;
    var d0 := Desired(cfg, ko);
    FindChangesNothing(env, cfg, ko.spec, w, d0);
    var (w1, found) := Find(env, cfg, w, d0);
    SameAtIsReflexive(t, w.Now());
    if found.Ok? {
      ConclusionsKeep(cfg, found.value, None);
      var latest := Concluded(cfg, found.value, None);
      var d := Mirror(d0, latest);
      var changes := Compared(cfg, d.spec, latest.spec);
      UpdateNeverPuts(cfg, ko, w.Now(), order, t);
      var plan := UpdatePlan(d.spec, latest.spec, changes, order);
      ExecuteKeepsType(env, w1, plan, t);
      var (w2, err) := Execute(env, w1, plan);
      var updated := Concluded(cfg, Ko(d.spec, latest.status), None);
      if !changes.Any() {
        FinishKeeps(env, cfg, w1, ko, latest, false);
      } else if ArnOf(latest.status).None? {
        FinishKeeps(env, cfg, w1, ko, updated, true);
      } else if err.None? {
        FinishKeeps(env, cfg, w2, ko, updated, true);
      }
    }
  }

  lemma SameAtIsReflexive(t: string, b: Bucket)
    ensures SameAt(t, b, b)
  {
  }

  lemma FinishKeeps(env: Env, cfg: Config, w: World, ko: Ko, latest: Ko, changed: bool)
    ensures var r := Finish(env, cfg, w, ko, latest, changed);
            && r.world.Now() == w.Now()
            && (r.stored.spec.maintenance == ko.spec.maintenance ||
                (ko.spec.maintenance.None? && r.stored.spec.maintenance == Observed(w.Now().maintenance)))
  {
    hide Find, Progress, NoWrites, Observed, C.Concluded, C.Set;
    FindChangesNothing(env, cfg, ko.spec, w, latest);
    var (w1, again) := Find(env, cfg, w, latest);
    assert again.Ok? ==> again.value.spec.maintenance == Observed(w.Now().maintenance);
  }

  /** Once what is declared is in place, maintenance is never written again. */
  lemma {:induction false} CoveredIsKept(env: Env, cfg: Config, w: World, ko: Ko, orders: seq<seq<string>>, t: string)
    requires Visits(env, cfg, w, ko, orders)
    requires Covered(ko.spec.maintenance, Observed(w.Now().maintenance))
    ensures SameAt(t, w.Now(), Run(env, cfg, w, ko, orders).world.Now())
    decreases |orders|
  {
    hide Pass, Covered, Observed;
    SameAtIsReflexive(t, w.Now());
    if orders != [] {
      var p := Pass(env, cfg, w, ko, orders[0]);
      AllTypesKept(env, cfg, w, ko, orders[0]);
      CoveredIsReflexive(Observed(p.world.Now().maintenance));
      PassKeepsType(env, cfg, w, ko, orders[0], t);
      CoveredIsKept(env, cfg, p.world, p.stored, orders[1..], t);
    }
  }

  lemma AllTypesKept(env: Env, cfg: Config, w: World, ko: Ko, order: seq<string>)
    requires Enumerates(order, Entries(ko.spec.maintenance).Keys)
    requires Covered(ko.spec.maintenance, Observed(w.Now().maintenance))
    ensures Pass(env, cfg, w, ko, order).world.Now().maintenance == w.Now().maintenance
  {
    hide Pass, Covered, Observed;
    forall t
      ensures SameAt(t, w.Now(), Pass(env, cfg, w, ko, order).world.Now())
    {
      PassKeepsType(env, cfg, w, ko, order, t);
    }
    SameEverywhere(w.Now(), Pass(env, cfg, w, ko, order).world.Now());
  }

  lemma SameEverywhere(a: Bucket, b: Bucket)
    requires forall t :: SameAt(t, a, b)
    ensures a.maintenance == b.maintenance
  {
    forall t
      ensures t in a.maintenance <==> t in b.maintenance
      ensures t in a.maintenance ==> a.maintenance[t] == b.maintenance[t]
    {
      assert SameAt(t, a, b);
    }
  }

  /** Over every run, of any spec and with any failures, the service keeps its configuration for
      every maintenance type that the spec does not declare. */
  lemma {:induction false} UndeclaredTypesAreKept(
    env: Env, cfg: Config, w: World, ko: Ko, orders: seq<seq<string>>, t: string)
    requires Visits(env, cfg, w, ko, orders)
    requires t !in Entries(ko.spec.maintenance)
    ensures SameAt(t, w.Now(), Run(env, cfg, w, ko, orders).world.Now())
    decreases |orders|
  {
    if ko.spec.maintenance.None? {
      CoveredIsKept(env, cfg, w, ko, orders, t);
    } else {
      hide Pass, Covered, Observed;
      if orders != [] {
        var p := Pass(env, cfg, w, ko, orders[0]);
        PassKeepsType(env, cfg, w, ko, orders[0], t);
        UndeclaredTypesAreKept(env, cfg, p.world, p.stored, orders[1..], t);
      }
    }
  }

  // ----- What a pass settles -----

  ghost predicate Unsettled(cfg: Config, setting: Setting, d: TableBucketSpec, b: Bucket) {
    !Echoable(cfg, setting, d) && Pend(cfg, setting, d, b) > 0
  }

  lemma {:induction false} ExecuteStaysInside(env: Env, w: World, plan: seq<Item>, setting: Setting)
    requires OnlyWrites(plan, setting)
    ensures var (w', err) := Execute(env, w, plan);
            && (forall s :: s != setting ==> SameSetting(s, w.Now(), w'.Now()))
            && |w.log| <= |w'.log|
            && (NoFaults(env, |w.log|) && OnlySends(plan) ==> err.None?)
    decreases |plan|
  {
    SameSettingIsReflexive(w.Now());
    if plan != [] && plan[0].Send? {
      assert plan[0] in plan;
      var call := plan[0].call;
      var w1 := Invoke(env, w, call).0;
      ExecuteStaysInside(env, w1, plan[1..], setting);
      WriteStaysInside(env, w, call, setting);
      var w2 := Execute(env, w1, plan[1..]).0;
      hide Invoke, Execute, Writes;
      forall s | s != setting
        ensures SameSetting(s, w.Now(), w2.Now())
      {
        assert SameSetting(s, w.Now(), w1.Now()) && SameSetting(s, w1.Now(), w2.Now());
      }
    }
  }

  lemma WriteStaysInside(env: Env, w: World, call: Call, setting: Setting)
    requires Writes(call, setting)
    ensures var (w1, err) := Invoke(env, w, call);
            && |w1.log| == |w.log| + 1
            && (forall s :: s != setting ==> SameSetting(s, w.Now(), w1.Now()))
            && (NoFaults(env, |w.log|) ==> err.None? && w1.Now() == Apply(w.Now(), call, env.fill(|w.log|)))
  {
  }

  /** A setting that cannot be echoed is as far from settled after its stage as before. */
  lemma StageLeavesUnsettled(
    env: Env, cfg: Config, setting: Setting, d: TableBucketSpec, b: Bucket, w: World, order: seq<string>)
    requires Enumerates(order, Entries(d.maintenance).Keys)
    requires NoFaults(env, |w.log|) && SameSetting(setting, b, w.Now()) && Unsettled(cfg, setting, d, b)
    ensures Unsettled(cfg, setting, d, Execute(env, w, StagePlan(cfg, setting, d, b, order)).0.Now())
  {
    var plan := StagePlan(cfg, setting, d, b, order);
    match setting {
      case Encryption =>
        OneCall(env, w, plan);
        EncryptionSettlesIff(cfg, d, w.Now(), env.fill(|w.log|));
      case StorageClass =>
        OneCall(env, w, plan);
        StorageClassSettlesIff(cfg, d, w.Now(), env.fill(|w.log|));
      case TagSet =>
      case Policy =>
        OneCall(env, w, plan);
        PolicySettlesIff(cfg, d, w.Now(), env.fill(|w.log|));
      case MaintenanceConfig => MaintenanceLeavesUnsettled(env, cfg, d, b, w, order);
    }
  }

  lemma OneCall(env: Env, w: World, plan: seq<Item>)
    requires |plan| == 1 && plan[0].Send? && NoFaults(env, |w.log|)
    ensures Execute(env, w, plan).0.Now() == Apply(w.Now(), plan[0].call, env.fill(|w.log|))
  {
    assert plan[1..] == [];
  }

  lemma MaintenanceLeavesUnsettled(
    env: Env, cfg: Config, d: TableBucketSpec, b: Bucket, w: World, order: seq<string>)
    requires Enumerates(order, Entries(d.maintenance).Keys)
    requires b.maintenance == w.Now().maintenance && Unsettled(cfg, MaintenanceConfig, d, b)
    ensures var after := Execute(env, w, MaintenancePlan(Entries(d.maintenance), order)).0.Now();
            Unsettled(cfg, MaintenanceConfig, d, after)
  {
    var entries := Entries(d.maintenance);
    var after := Execute(env, w, MaintenancePlan(entries, order)).0.Now();
    if Covered(d.maintenance, Observed(after.maintenance)) {
      forall t | t in entries && entries[t].Some?
        ensures t == RECOGNISED_TYPE && entries[t].value.status != Some("")
      {
        assert EntryCovered(Some(entries[t].value), t, Observed(after.maintenance));
        EverCoveredIff(t, entries[t].value);
      }
      var t :| t in entries && entries[t].Some? && !(t == RECOGNISED_TYPE && Settles(entries[t].value));
      NarrowingSucceedsIff(entries[t].value);
      OnlyOnePut(entries, order, t);
    }
  }

  /** Stages that never give up, with maintenance as the last. */
  ghost predicate LastMaintenance(settings: seq<Setting>) {
    && (forall i, j :: 0 <= i < j < |settings| ==> settings[i] != settings[j])
    && (forall i :: 0 <= i < |settings| - 1 ==> settings[i] != MaintenanceConfig)
  }

  lemma {:induction false} StagesLeaveUnsettled(
    env: Env, cfg: Config, settings: seq<Setting>, s: Setting, d: TableBucketSpec, b: Bucket, w: World,
    order: seq<string>)
    requires Enumerates(order, Entries(d.maintenance).Keys)
    requires LastMaintenance(settings) && s in settings && NoFaults(env, |w.log|)
    requires SameSetting(s, b, w.Now()) && Unsettled(cfg, s, d, b)
    ensures Unsettled(cfg, s, d, Execute(env, w, StagePlans(cfg, settings, d, b, order)).0.Now())
    decreases |settings|
  {
    hide Unsettled, SameSetting, StagePlan, OnlyWrites, OnlySends, Execute;
    var s0, rest := settings[0], settings[1..];
    var plan, plans := StagePlan(cfg, s0, d, b, order), StagePlans(cfg, rest, d, b, order);
    StageShape(cfg, s0, d, b, order);
    ExecuteStaysInside(env, w, plan, s0);
    ExecuteAppend(env, w, plan, plans);
    var (w1, err) := Execute(env, w, plan);
    if s == s0 {
      StageLeavesUnsettled(env, cfg, s, d, b, w, order);
      if err.None? {
        OthersLeaveUnsettled(env, cfg, rest, s, d, b, w1, order);
      }
    } else {
      SameSettingChains(s, b, w.Now(), w1.Now());
      assert s in rest;
      StagesLeaveUnsettled(env, cfg, rest, s, d, b, w1, order);
    }
  }

  lemma SameSettingChains(s: Setting, a: Bucket, b: Bucket, c: Bucket)
    requires SameSetting(s, a, b) && SameSetting(s, b, c)
    ensures SameSetting(s, a, c)
  {
  }

  lemma {:induction false} OthersLeaveUnsettled(
    env: Env, cfg: Config, settings: seq<Setting>, s: Setting, d: TableBucketSpec, b: Bucket, w: World,
    order: seq<string>)
    requires Enumerates(order, Entries(d.maintenance).Keys)
    requires s !in settings && Unsettled(cfg, s, d, w.Now())
    ensures Unsettled(cfg, s, d, Execute(env, w, StagePlans(cfg, settings, d, b, order)).0.Now())
    decreases |settings|
  {
    hide Pend, SameSetting, StagePlan, OnlyWrites, OnlySends;
    if settings != [] {
      var plan, plans := StagePlan(cfg, settings[0], d, b, order), StagePlans(cfg, settings[1..], d, b, order);
      StageShape(cfg, settings[0], d, b, order);
      ExecuteStaysInside(env, w, plan, settings[0]);
      ExecuteAppend(env, w, plan, plans);
      var (w1, err) := Execute(env, w, plan);
      StageFrame(cfg, s, d, w.Now(), w1.Now(), order);
      if err.None? {
        OthersLeaveUnsettled(env, cfg, settings[1..], s, d, b, w1, order);
      }
    }
  }

  lemma UpdateLeavesUnsettled(env: Env, cfg: Config, w: World, ko: Ko, order: seq<string>, s: Setting)
    requires Enumerates(order, Entries(ko.spec.maintenance).Keys)
    requires NoFaults(env, |w.log|) && Unsettled(cfg, s, ko.spec, w.Now())
    ensures var latest := Observation(cfg, Desired(cfg, ko), w.Now());
            var d := Mirror(Desired(cfg, ko), latest);
            var plan := UpdatePlan(d.spec, latest.spec, Compared(cfg, d.spec, latest.spec), order);
            Unsettled(cfg, s, ko.spec, Execute(env, w, plan).0.Now())
  {
    hide Unsettled, SameSetting, StagePlans, UpdatePlan, Observation, Compared, Execute;
    AllSettings();
    SameSettingIsReflexive(w.Now());
    UpdatePlanIsStages(cfg, ko, w.Now(), order);
    StagesLeaveUnsettled(env, cfg, ALL_SETTINGS, s, ko.spec, w.Now(), w, order);
  }

  /** With its ARN recorded and no failing call, a pass leaves everything settled exactly for a
      well-formed spec: a setting that cannot be echoed is still pending after it. */
  lemma PassSettlesIff(env: Env, cfg: Config, w: World, ko: Ko, order: seq<string>)
    requires Enumerates(order, Entries(ko.spec.maintenance).Keys)
    requires ArnOf(ko.status).Some? && NoFaults(env, |w.log|)
    ensures Settled(cfg, ko.spec, Pass(env, cfg, w, ko, order).world.Now()) <==> Fine(cfg, ko.spec, w.Now())
  {
    var r := Pass(env, cfg, w, ko, order);
    if Fine(cfg, ko.spec, w.Now()) {
      hide Pend, Pass, Fine;
      PassIsSound(env, cfg, w, ko, order);
      FineIsKept(cfg, ko.spec, w, r.world);
    } else {
      var s :| !Echoable(cfg, s, ko.spec) && Pend(cfg, s, ko.spec, w.Now()) != 0;
      PassLeavesUnsettled(env, cfg, w, ko, order, s);
      hide Pend, Pass, Echoable;
    }
  }

  lemma PassLeavesUnsettled(env: Env, cfg: Config, w: World, ko: Ko, order: seq<string>, s: Setting)
    requires Enumerates(order, Entries(ko.spec.maintenance).Keys)
    requires ArnOf(ko.status).Some? && NoFaults(env, |w.log|) && Unsettled(cfg, s, ko.spec, w.Now())
    ensures Unsettled(cfg, s, ko.spec, Pass(env, cfg, w, ko, order).world.Now())
  {
    hide Find, Observation, Compared, UpdatePlan, Execute, Unsettled, Finish, EnsuredTags, MirroredTags, Advances,
      NoWrites, Concluded, Reported;
    var d0 := Desired(cfg, ko);
    FindChangesNothing(env, cfg, ko.spec, w, d0);
    var (w1, found) := Find(env, cfg, w, d0);
    ConclusionsKeep(cfg, found.value, None);
    var latest := Concluded(cfg, found.value, None);
    var d := Mirror(d0, latest);
    var changes := Compared(cfg, d.spec, latest.spec);
    UpdateLeavesUnsettled(env, cfg, w1, ko, order, s);
    ObservedArn(cfg, d0, w1.Now());
    var w2 := Execute(env, w1, UpdatePlan(d.spec, latest.spec, changes, order)).0;
    FinishKeeps(env, cfg, w1, ko, latest, false);
    FinishKeeps(env, cfg, w2, ko, Concluded(cfg, Ko(d.spec, latest.status), None), true);
  }
}
