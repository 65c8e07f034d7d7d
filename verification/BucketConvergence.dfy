/** Convergence of the TableBucket reconcile pass, over every service state, every pattern of
    failing calls and every run of passes: each setting has a measure of what is still to be
    written, no call ever raises it, and every write that takes effect lowers its own. */
module BucketConvergence {
  import opened Types
  import opened Tags
  import opened Maintenance
  import opened BucketService
  import opened BucketPass
  import D = Delta

  // ----- The measure -----

  /** What is still to be written to `setting` for the stored spec `d`. */
  ghost function Pend(cfg: Config, setting: Setting, d: TableBucketSpec, b: Bucket): nat {
    match setting
    case Encryption =>
      if d.encryption.Some? && D.EncryptionDiffers(d.encryption, ObservedEncryption(b.encryption)) then 1 else 0
    case StorageClass =>
      if d.storageClass.Some? && d.storageClass.value.storageClass.Some? &&
         d.storageClass != ObservedStorageClass(b.storageClass) then 1 else 0
    case TagSet => |Pending(Merge(ToAck(d.tags), cfg.defaultTags), b.tags)|
    case Policy => if PolicyDiffers(cfg.parse, d.policy, b.policy) then 1 else 0
    case MaintenanceConfig => if Covered(d.maintenance, Observed(b.maintenance)) then 0 else 1
  }

  ghost function Measure(cfg: Config, d: TableBucketSpec, b: Bucket): nat {
    Pend(cfg, Encryption, d, b) + Pend(cfg, StorageClass, d, b) + Pend(cfg, TagSet, d, b) +
    Pend(cfg, Policy, d, b) + Pend(cfg, MaintenanceConfig, d, b)
  }

  ghost predicate Settled(cfg: Config, d: TableBucketSpec, b: Bucket) {
    forall s :: Pend(cfg, s, d, b) == 0
  }

  /** The declared value of a setting is one that the service can echo. */
  ghost predicate Echoable(cfg: Config, setting: Setting, d: TableBucketSpec) {
    match setting
    case Encryption => d.encryption.Some? ==> d.encryption.value.sseAlgorithm != Some("")
    case StorageClass => d.storageClass.Some? ==> d.storageClass.value.storageClass != Some("")
    case TagSet => true
    case Policy => d.policy.Some? ==> d.policy.value != "" && cfg.parse(d.policy.value).Some?
    case MaintenanceConfig => WellFormed(d.maintenance)
  }

  /** Every setting is echoable, or has nothing left to write. */
  ghost predicate Fine(cfg: Config, d: TableBucketSpec, b: Bucket) {
    forall s :: Echoable(cfg, s, d) || Pend(cfg, s, d, b) == 0
  }

  // ----- A declared value settles exactly when it is echoable -----

  lemma EncryptionSettlesIff(cfg: Config, d: TableBucketSpec, b: Bucket, fill: SdkMaintenance)
    requires d.encryption.Some?
    ensures Pend(cfg, Encryption, d, Apply(b, PutEncryption(EncryptionRequest(d.encryption.value)), fill)) == 0
            <==> Echoable(cfg, Encryption, d)
  {
  }

  lemma StorageClassSettlesIff(cfg: Config, d: TableBucketSpec, b: Bucket, fill: SdkMaintenance)
    requires d.storageClass.Some? && d.storageClass.value.storageClass.Some?
    ensures Pend(cfg, StorageClass, d, Apply(b, PutStorageClass(d.storageClass.value.storageClass.value), fill)) == 0
            <==> Echoable(cfg, StorageClass, d)
  {
  }

  lemma PolicySettlesIff(cfg: Config, d: TableBucketSpec, b: Bucket, fill: SdkMaintenance)
    ensures Pend(cfg, Policy, d, Apply(b, PolicyPlan(d)[0].call, fill)) == 0 <==> Echoable(cfg, Policy, d)
  {
  }

  // ----- Plans that settle one setting -----

  ghost predicate SameSetting(setting: Setting, a: Bucket, b: Bucket) {
    match setting
    case Encryption => a.encryption == b.encryption
    case StorageClass => a.storageClass == b.storageClass
    case TagSet => a.tags == b.tags
    case Policy => a.policy == b.policy
    case MaintenanceConfig => a.maintenance == b.maintenance
  }

  /** A write that takes effect lowers the measure of its own setting and leaves the other
      settings alone; any other event changes nothing. */
  ghost predicate Advances(cfg: Config, d: TableBucketSpec, before: Bucket, e: Event) {
    forall s :: if e.took && Writes(e.call, s) then Pend(cfg, s, d, e.after) < Pend(cfg, s, d, before)
                else SameSetting(s, before, e.after)
  }

  /** Run from `b` without a failure, `plan` writes only to `setting`, each write lowers the
      measure, and at the end nothing is pending. */
  ghost predicate Settling(cfg: Config, setting: Setting, d: TableBucketSpec, b: Bucket, plan: seq<Item>)
    decreases |plan|
  {
    if plan == [] then Pend(cfg, setting, d, b) == 0
    else
      && plan[0].Send? && Writes(plan[0].call, setting)
      && forall fill :: Pend(cfg, setting, d, Apply(b, plan[0].call, fill)) < Pend(cfg, setting, d, b)
                     && Settling(cfg, setting, d, Apply(b, plan[0].call, fill), plan[1..])
  }

  ghost predicate Progress(cfg: Config, d: TableBucketSpec, w: World, w': World) {
    && w.start == w'.start
    && w.log <= w'.log
    && forall i :: |w.log| <= i < |w'.log| ==> Advances(cfg, d, w'.At(i), w'.log[i])
  }

  lemma ProgressIsTransitive(cfg: Config, d: TableBucketSpec, w: World, w1: World, w2: World)
    requires Progress(cfg, d, w, w1) && Progress(cfg, d, w1, w2)
    ensures Progress(cfg, d, w, w2)
  {
  }

  ghost predicate NoFaults(env: Env, from: nat) {
    forall n :: n >= from ==> env.fault(n).NoFault?
  }

  /** The calls made since `from` that were writes. */
  ghost predicate NoWrites(w: World, from: nat) {
    forall i :: from <= i < |w.log| ==> !IsWrite(w.log[i].call)
  }

  lemma {:induction false} ExecuteSettles(
    env: Env, cfg: Config, setting: Setting, d: TableBucketSpec, w: World, plan: seq<Item>)
    requires Settling(cfg, setting, d, w.Now(), plan)
    ensures var (w', err) := Execute(env, w, plan);
            && Progress(cfg, d, w, w')
            && (forall s :: s != setting ==> SameSetting(s, w.Now(), w'.Now()))
            && (err.None? ==> Pend(cfg, setting, d, w'.Now()) == 0)
            && (NoFaults(env, |w.log|) ==> err.None?)
            && (plan == [] <==> w' == w)
            && (plan != [] ==> !NoWrites(w', |w.log|))
    decreases |plan|
  {
    hide Pend, Apply;
    if plan != [] {
      var call := plan[0].call;
      var (w1, err) := Invoke(env, w, call);
      InvokeAdvances(env, cfg, setting, d, w, call);
      if err.None? {
        assert w1.Now() == Apply(w.Now(), call, env.fill(|w.log|));
        ExecuteSettles(env, cfg, setting, d, w1, plan[1..]);
        var w2 := Execute(env, w1, plan[1..]).0;
        ProgressIsTransitive(cfg, d, w, w1, w2);
        assert w2.log[|w.log|] == w1.log[|w.log|];
        forall s | s != setting
          ensures SameSetting(s, w.Now(), w2.Now())
        {
          assert SameSetting(s, w.Now(), w1.Now()) && SameSetting(s, w1.Now(), w2.Now());
        }
      }
    }
  }

  lemma InvokeAdvances(env: Env, cfg: Config, setting: Setting, d: TableBucketSpec, w: World, call: Call)
    requires Writes(call, setting)
    requires Pend(cfg, setting, d, Apply(w.Now(), call, env.fill(|w.log|))) < Pend(cfg, setting, d, w.Now())
    ensures var w1 := Invoke(env, w, call).0;
            && Progress(cfg, d, w, w1)
            && (forall s :: s != setting ==> SameSetting(s, w.Now(), w1.Now()))
            && |w1.log| == |w.log| + 1 && w1.log[|w.log|].call == call && IsWrite(call)
  {
    var w1 := Invoke(env, w, call).0;
    var e := w1.log[|w.log|];
    assert w1.Now() == e.after && w1.At(|w.log|) == w.Now();
    forall s
      ensures if e.took && Writes(call, s) then Pend(cfg, s, d, e.after) < Pend(cfg, s, d, w.Now())
              else SameSetting(s, w.Now(), e.after)
    {
      assert Writes(call, s) ==> s == setting;
    }
  }

  lemma OneCallSettles(cfg: Config, setting: Setting, d: TableBucketSpec, b: Bucket, call: Call, rest: seq<Item>)
    requires Writes(call, setting)
    requires forall fill :: Pend(cfg, setting, d, Apply(b, call, fill)) < Pend(cfg, setting, d, b)
                         && Settling(cfg, setting, d, Apply(b, call, fill), rest)
    ensures Settling(cfg, setting, d, b, [Send(call)] + rest)
    ensures rest == [] ==> Settling(cfg, setting, d, b, [Send(call)])
  {
  }

  lemma NothingToSettle(cfg: Config, setting: Setting, d: TableBucketSpec, b: Bucket)
    requires Pend(cfg, setting, d, b) == 0
    ensures Settling(cfg, setting, d, b, [])
  {
  }

  // ----- The five stages of customUpdateTableBucket -----

  lemma EncryptionStage(cfg: Config, d: TableBucketSpec, b: Bucket)
    requires Echoable(cfg, Encryption, d) || Pend(cfg, Encryption, d, b) == 0
    ensures Settling(cfg, Encryption, d, b,
              if D.EncryptionDiffers(d.encryption, ObservedEncryption(b.encryption)) then EncryptionPlan(d) else [])
  {
    if d.encryption.Some? && D.EncryptionDiffers(d.encryption, ObservedEncryption(b.encryption)) {
      OneCallSettles(cfg, Encryption, d, b, PutEncryption(EncryptionRequest(d.encryption.value)), []);
    }
  }

  lemma StorageClassStage(cfg: Config, d: TableBucketSpec, b: Bucket)
    requires Echoable(cfg, StorageClass, d) || Pend(cfg, StorageClass, d, b) == 0
    ensures Settling(cfg, StorageClass, d, b,
              if d.storageClass != ObservedStorageClass(b.storageClass) then StorageClassPlan(d) else [])
  {
    if StorageClassPlan(d) != [] && d.storageClass != ObservedStorageClass(b.storageClass) {
      OneCallSettles(cfg, StorageClass, d, b, PutStorageClass(d.storageClass.value.storageClass.value), []);
    }
  }

  lemma PolicyStage(cfg: Config, d: TableBucketSpec, b: Bucket)
    requires Echoable(cfg, Policy, d) || Pend(cfg, Policy, d, b) == 0
    ensures Settling(cfg, Policy, d, b, if PolicyDiffers(cfg.parse, d.policy, b.policy) then PolicyPlan(d) else [])
  {
    if PolicyDiffers(cfg.parse, d.policy, b.policy) {
      OneCallSettles(cfg, Policy, d, b, PolicyPlan(d)[0].call, []);
    }
  }

  lemma TagStage(cfg: Config, d: TableBucketSpec, b: Bucket)
    ensures var observed := FromService(b.tags);
            var desired := MirroredTags(EnsuredTags(d.tags, cfg.defaultTags), observed);
            Settling(cfg, TagSet, d, b, if ToAck(desired) != ToAck(observed) then TagPlan(desired, observed) else [])
  {
    hide Pending, Mirrored, ToRemove, ToAdd, Settling, Merge, ToAck, FromAck, FromService;
    var target := Merge(ToAck(d.tags), cfg.defaultTags);
    var to := Mirrored(target, b.tags);
    FromServiceToAck(b.tags);
    FromAckToAck(target);
    FromAckToAck(to);
    PendingIsTheDifference(target, b.tags);
    if to != b.tags {
      TagPlanSettles(cfg, d, b, target);
    } else {
      NothingToSettle(cfg, TagSet, d, b);
    }
  }

  lemma TagPlanSettles(cfg: Config, d: TableBucketSpec, b: Bucket, target: AckTags)
    requires target == Merge(ToAck(d.tags), cfg.defaultTags)
    requires Mirrored(target, b.tags) != b.tags
    ensures var to := Mirrored(target, b.tags);
            var removed, added := ToRemove(b.tags, to), ToAdd(b.tags, to);
            Settling(cfg, TagSet, d, b, (if removed == {} then [] else [Send(UntagResource(removed))]) +
                                        (if added == map[] then [] else [Send(TagResource(added))]))
  {
    hide Pending, Mirrored, ToRemove, ToAdd, Settling, Merge, ToAck;
    var to := Mirrored(target, b.tags);
    var removed, added := ToRemove(b.tags, to), ToAdd(b.tags, to);
    var b1 := b.(tags := b.tags - removed);
    var b2 := b1.(tags := b1.tags + added);
    TagMeasures(cfg, d, b, target);
    var second := if added == map[] then [] else [Send(TagResource(added))];
    assert Settling(cfg, TagSet, d, b1, second) by {
      hide Pend;
      if added == map[] {
        assert b2.tags == b1.tags;
        assert b2 == b1;
        NothingToSettle(cfg, TagSet, d, b1);
      } else {
        NothingToSettle(cfg, TagSet, d, b2);
        assert forall fill :: Apply(b1, TagResource(added), fill) == b2;
        OneCallSettles(cfg, TagSet, d, b1, TagResource(added), []);
      }
    }
    hide Pend;
    if removed == {} {
      assert b1.tags == b.tags;
      assert b1 == b && [] + second == second;
    } else {
      assert forall fill :: Apply(b, UntagResource(removed), fill) == b1;
      OneCallSettles(cfg, TagSet, d, b, UntagResource(removed), second);
    }
  }

  lemma TagMeasures(cfg: Config, d: TableBucketSpec, b: Bucket, target: AckTags)
    requires target == Merge(ToAck(d.tags), cfg.defaultTags)
    ensures var to := Mirrored(target, b.tags);
            var removed, added := ToRemove(b.tags, to), ToAdd(b.tags, to);
            var b1 := b.(tags := b.tags - removed);
            var b2 := b1.(tags := b1.tags + added);
            && (removed != {} ==> Pend(cfg, TagSet, d, b1) < Pend(cfg, TagSet, d, b))
            && (added != map[] ==> Pend(cfg, TagSet, d, b2) < Pend(cfg, TagSet, d, b1))
            && Pend(cfg, TagSet, d, b2) == 0
  {
    hide Mirrored, ToRemove, ToAdd, Pending, Merge, ToAck, Covered, Observed, ObservedEncryption, ObservedStorageClass,
      PolicyDiffers, D.EncryptionDiffers;
    var to := Mirrored(target, b.tags);
    var removed, added := ToRemove(b.tags, to), ToAdd(b.tags, to);
    PendingIsTheDifference(target, b.tags);
    TagCallsShrinkPending(target, b.tags);
    SyncTagsReachesDesired(b.tags, to);
    Smaller(Pending(target, b.tags), removed);
    Smaller(Pending(target, b.tags - removed), added.Keys);
    if added != map[] {
      var k :| k in added;
      assert k in Pending(target, b.tags - removed);
    }
  }

  lemma Smaller<T>(a: set<T>, gone: set<T>)
    ensures gone <= a ==> |a - gone| == |a| - |gone|
    ensures gone != {} ==> |gone| > 0
  {
  }

  lemma MaintenanceStage(cfg: Config, d: TableBucketSpec, b: Bucket, order: seq<string>)
    requires Echoable(cfg, MaintenanceConfig, d) || Pend(cfg, MaintenanceConfig, d, b) == 0
    requires Enumerates(order, Entries(d.maintenance).Keys)
    ensures Settling(cfg, MaintenanceConfig, d, b,
              if Covered(d.maintenance, Observed(b.maintenance)) then []
              else MaintenancePlan(Entries(d.maintenance), order))
  {
    var entries := Entries(d.maintenance);
    if !Covered(d.maintenance, Observed(b.maintenance)) {
      var t :| t in entries && !EntryCovered(entries[t], t, Observed(b.maintenance));
      assert t == RECOGNISED_TYPE && Settles(entries[t].value);
      var value := entries[t].value;
      NarrowingSucceedsIff(value);
      forall fill
        ensures Covered(d.maintenance, Observed(b.maintenance[t := Stored(ToSdk(value).value, fill)]))
      {
        RoundTripIff(t, value, b.maintenance, fill);
      }
      OnlyOnePut(entries, order, t);
      OneCallSettles(cfg, MaintenanceConfig, d, b, PutMaintenance(t, ToSdk(value).value), []);
    }
  }

  /** With a single declared entry that is not nil, the plan is its one Put. */
  lemma {:induction false} OnlyOnePut(d: map<string, Option<MaintenanceValue>>, order: seq<string>, t: string)
    requires forall k :: k in order ==> k in d
    requires forall i, j :: 0 <= i < j < |order| ==> order[i] != order[j]
    requires t in d && forall k :: k in d && k != t ==> d[k].None?
    ensures MaintenancePlan(d, order) == if t in order then MaintenanceItem(t, d[t]) else []
  {
    if order != [] {
      var init, last := order[..|order| - 1], order[|order| - 1];
      assert order == init + [last];
      OnlyOnePut(d, init, t);
    }
  }

  /** Whatever the order and the values, syncMaintenance never names a type the spec does not
      declare. */
  lemma {:induction false} OnlyDeclaredTypesArePut(
    d: map<string, Option<MaintenanceValue>>, order: seq<string>, call: Call)
    requires forall k :: k in order ==> k in d
    requires Send(call) in MaintenancePlan(d, order)
    ensures call.PutMaintenance? && call.jobType in order && d[call.jobType].Some?
    ensures ToSdk(d[call.jobType].value) == Ok(call.value)
  {
    var init, last := order[..|order| - 1], order[|order| - 1];
    if Send(call) in MaintenancePlan(d, init) {
      OnlyDeclaredTypesArePut(d, init, call);
      assert call.jobType in init;
    }
  }

  // ----- The update as a whole -----

  /** The part of the update that concerns one setting, for the stored spec `d`. */
  ghost function StagePlan(cfg: Config, setting: Setting, d: TableBucketSpec, b: Bucket, order: seq<string>): seq<Item>
    requires Enumerates(order, Entries(d.maintenance).Keys)
  {
    match setting
    case Encryption =>
      if D.EncryptionDiffers(d.encryption, ObservedEncryption(b.encryption)) then EncryptionPlan(d) else []
    case StorageClass => if d.storageClass != ObservedStorageClass(b.storageClass) then StorageClassPlan(d) else []
    case TagSet =>
      var observed := FromService(b.tags);
      var desired := MirroredTags(EnsuredTags(d.tags, cfg.defaultTags), observed);
      if ToAck(desired) != ToAck(observed) then TagPlan(desired, observed) else []
    case Policy => if PolicyDiffers(cfg.parse, d.policy, b.policy) then PolicyPlan(d) else []
    case MaintenanceConfig =>
      if Covered(d.maintenance, Observed(b.maintenance)) then [] else MaintenancePlan(Entries(d.maintenance), order)
  }

  lemma StageSettles(cfg: Config, setting: Setting, d: TableBucketSpec, b: Bucket, order: seq<string>)
    requires Echoable(cfg, setting, d) || Pend(cfg, setting, d, b) == 0
    requires Enumerates(order, Entries(d.maintenance).Keys)
    ensures Settling(cfg, setting, d, b, StagePlan(cfg, setting, d, b, order))
  {
    match setting
    case Encryption => EncryptionStage(cfg, d, b);
    case StorageClass => StorageClassStage(cfg, d, b);
    case TagSet => TagStage(cfg, d, b);
    case Policy => PolicyStage(cfg, d, b);
    case MaintenanceConfig => MaintenanceStage(cfg, d, b, order);
  }

  /** A stage depends on nothing but its own setting. */
  lemma StageFrame(cfg: Config, setting: Setting, d: TableBucketSpec, b: Bucket, b': Bucket, order: seq<string>)
    requires SameSetting(setting, b, b')
    requires Enumerates(order, Entries(d.maintenance).Keys)
    ensures StagePlan(cfg, setting, d, b, order) == StagePlan(cfg, setting, d, b', order)
    ensures Pend(cfg, setting, d, b) == Pend(cfg, setting, d, b')
  {
  }

  ghost function StagePlans(
    cfg: Config, settings: seq<Setting>, d: TableBucketSpec, b: Bucket, order: seq<string>): seq<Item>
    requires Enumerates(order, Entries(d.maintenance).Keys)
  {
    if settings == [] then []
    else StagePlan(cfg, settings[0], d, b, order) + StagePlans(cfg, settings[1..], d, b, order)
  }

  /** Running the stages one after the other, from any state that still has the observed
      values of the settings to come. */
  lemma {:induction false} StagesSettle(
    env: Env, cfg: Config, settings: seq<Setting>, d: TableBucketSpec, b: Bucket, w: World, order: seq<string>)
    requires Enumerates(order, Entries(d.maintenance).Keys)
    requires forall i, j :: 0 <= i < j < |settings| ==> settings[i] != settings[j]
    requires forall s :: s in settings ==>
      SameSetting(s, b, w.Now()) && (Echoable(cfg, s, d) || Pend(cfg, s, d, b) == 0)
    ensures var (w', err) := Execute(env, w, StagePlans(cfg, settings, d, b, order));
            && Progress(cfg, d, w, w')
            && (err.None? ==> forall s :: s in settings ==> Pend(cfg, s, d, w'.Now()) == 0)
            && (forall s :: s !in settings ==> SameSetting(s, w.Now(), w'.Now()))
            && (NoFaults(env, |w.log|) ==> err.None?)
            && ((forall s :: s in settings ==> Pend(cfg, s, d, w.Now()) == 0) <==> w' == w)
            && (NoWrites(w', |w.log|) <==> w' == w)
  {
    hide Pend, Settling, StagePlan, Echoable, Advances;
    if settings != [] {
      var s0, rest := settings[0], settings[1..];
      var plan, plans := StagePlan(cfg, s0, d, b, order), StagePlans(cfg, rest, d, b, order);
      assert forall s :: s in settings <==> s == s0 || s in rest;
      StageFrame(cfg, s0, d, b, w.Now(), order);
      StageSettles(cfg, s0, d, w.Now(), order);
      ExecuteAppend(env, w, plan, plans);
      ExecuteSettles(env, cfg, s0, d, w, plan);
      var (w1, e1) := Execute(env, w, plan);
      StillPending(cfg, s0, d, w.Now(), plan);
      if e1.None? {
        forall s | s in rest
          ensures SameSetting(s, b, w1.Now()) && (Echoable(cfg, s, d) || Pend(cfg, s, d, b) == 0)
        {
          assert s in settings && s != s0;
          assert SameSetting(s, w.Now(), w1.Now());
        }
        StagesSettle(env, cfg, rest, d, b, w1, order);
        var w2 := Execute(env, w1, plans).0;
        ProgressIsTransitive(cfg, d, w, w1, w2);
        forall s
          ensures s !in settings ==> SameSetting(s, w.Now(), w2.Now())
          ensures s in rest ==> Pend(cfg, s, d, w1.Now()) == Pend(cfg, s, d, w.Now())
          ensures s == s0 ==> Pend(cfg, s, d, w2.Now()) == Pend(cfg, s, d, w1.Now())
        {
          if s != s0 {
            assert SameSetting(s, w.Now(), w1.Now());
            StageFrame(cfg, s, d, w.Now(), w1.Now(), order);
          } else {
            StageFrame(cfg, s, d, w1.Now(), w2.Now(), order);
          }
        }
        if !NoWrites(w1, |w.log|) {
          var i :| |w.log| <= i < |w1.log| && IsWrite(w1.log[i].call);
          assert w2.log[i] == w1.log[i];
        }
      }
    }
  }

  lemma StillPending(cfg: Config, setting: Setting, d: TableBucketSpec, b: Bucket, plan: seq<Item>)
    requires Settling(cfg, setting, d, b, plan)
    ensures plan == [] <==> Pend(cfg, setting, d, b) == 0
  {
    if plan != [] {
      var fill := SdkMaintenance("", NoSettings);
      assert Pend(cfg, setting, d, Apply(b, plan[0].call, fill)) < Pend(cfg, setting, d, b);
    }
  }

  const ALL_SETTINGS: seq<Setting> := [Encryption, StorageClass, TagSet, Policy, MaintenanceConfig]

  lemma FiveStages(cfg: Config, d: TableBucketSpec, b: Bucket, order: seq<string>)
    requires Enumerates(order, Entries(d.maintenance).Keys)
    ensures StagePlans(cfg, ALL_SETTINGS, d, b, order)
         == StagePlan(cfg, Encryption, d, b, order) + (StagePlan(cfg, StorageClass, d, b, order) + (
            StagePlan(cfg, TagSet, d, b, order) + (StagePlan(cfg, Policy, d, b, order) +
            StagePlan(cfg, MaintenanceConfig, d, b, order))))
  {
    hide StagePlan, Enumerates;
    var s1, s2, s3, s4 := ALL_SETTINGS[1..], ALL_SETTINGS[2..], ALL_SETTINGS[3..], ALL_SETTINGS[4..];
    assert s1[1..] == s2 && s2[1..] == s3 && s3[1..] == s4 && s4[1..] == [];
    assert StagePlans(cfg, s4, d, b, order) == StagePlan(cfg, MaintenanceConfig, d, b, order) + [];
    assert StagePlans(cfg, s3, d, b, order) == StagePlan(cfg, Policy, d, b, order) + StagePlans(cfg, s4, d, b, order);
    assert StagePlans(cfg, s2, d, b, order) == StagePlan(cfg, TagSet, d, b, order) + StagePlans(cfg, s3, d, b, order);
  }

  lemma UpdatePlanIsStages(cfg: Config, ko: Ko, b: Bucket, order: seq<string>)
    requires Enumerates(order, Entries(ko.spec.maintenance).Keys)
    ensures var latest := Observation(cfg, Desired(cfg, ko), b);
            var d := Mirror(Desired(cfg, ko), latest);
            UpdatePlan(d.spec, latest.spec, Compared(cfg, d.spec, latest.spec), order)
            == StagePlans(cfg, ALL_SETTINGS, ko.spec, b, order)
  {
    var latest := Observation(cfg, Desired(cfg, ko), b);
    var d := Mirror(Desired(cfg, ko), latest);
    var changes := Compared(cfg, d.spec, latest.spec);
    ComparedFields(cfg, ko, b);
    StagePieces(cfg, ko, b, order, d.spec, latest.spec, changes);
    FiveStages(cfg, ko.spec, b, order);
    hide *;
  }

  lemma StagePieces(
    cfg: Config, ko: Ko, b: Bucket, order: seq<string>, d: TableBucketSpec, l: TableBucketSpec, changes: Changes)
    requires Enumerates(order, Entries(ko.spec.maintenance).Keys)
    requires changes.encryption == D.EncryptionDiffers(ko.spec.encryption, ObservedEncryption(b.encryption))
    requires changes.storageClass == (ko.spec.storageClass != ObservedStorageClass(b.storageClass))
    requires changes.tags == (ToAck(d.tags) != ToAck(l.tags))
    requires changes.policy == PolicyDiffers(cfg.parse, ko.spec.policy, b.policy)
    requires changes.maintenance == !Covered(ko.spec.maintenance, Observed(b.maintenance))
    requires d == ko.spec.(tags := MirroredTags(EnsuredTags(ko.spec.tags, cfg.defaultTags), l.tags))
    requires l.tags == FromService(b.tags)
    ensures UpdatePlan(d, l, changes, order)
         == StagePlan(cfg, Encryption, ko.spec, b, order) + (StagePlan(cfg, StorageClass, ko.spec, b, order) + (
            StagePlan(cfg, TagSet, ko.spec, b, order) + (StagePlan(cfg, Policy, ko.spec, b, order) +
            StagePlan(cfg, MaintenanceConfig, ko.spec, b, order))))
  {
    hide Covered, MaintenancePlan, TagPlan, ToAck, EnsuredTags, MirroredTags, FromService, D.EncryptionDiffers,
      PolicyDiffers, Observed, ObservedEncryption, ObservedStorageClass;
  }

  lemma ComparedFields(cfg: Config, ko: Ko, b: Bucket)
    ensures var latest := Observation(cfg, Desired(cfg, ko), b);
            var d := Mirror(Desired(cfg, ko), latest);
            var changes := Compared(cfg, d.spec, latest.spec);
            && changes.encryption == D.EncryptionDiffers(ko.spec.encryption, ObservedEncryption(b.encryption))
            && changes.storageClass == (ko.spec.storageClass != ObservedStorageClass(b.storageClass))
            && changes.tags == (ToAck(d.spec.tags) != ToAck(latest.spec.tags))
            && changes.policy == PolicyDiffers(cfg.parse, ko.spec.policy, b.policy)
            && changes.maintenance == !Covered(ko.spec.maintenance, Observed(b.maintenance))
            && d.spec == ko.spec.(tags := MirroredTags(EnsuredTags(ko.spec.tags, cfg.defaultTags), latest.spec.tags))
            && latest.spec.tags == FromService(b.tags)
  {
  }
}
