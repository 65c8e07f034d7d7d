/** What settled, different, read, written and stored mean for a table bucket, said of the spec,
    the service's state and the calls themselves. */
module BucketMeaning {
  import opened Types
  import opened Tags
  import opened Maintenance
  import opened BucketService
  import opened BucketPass
  import opened BucketConvergence
  import opened BucketRuns
  import C = Conditions
  import D = Delta

  // ----- Settled -----

  ghost predicate EncryptionInPlace(e: EncryptionConfiguration, b: Option<SdkEncryption>) {
    && b.Some?
    && e.kmsKeyARN == b.value.kmsKeyArn
    && if e.sseAlgorithm.None? then b.value.sseAlgorithm == ""
       else e.sseAlgorithm.value != "" && b.value.sseAlgorithm == e.sseAlgorithm.value
  }

  /** The value a tag should have: the declared one, nil meaning "", before the controller's. */
  function Wanted(declared: map<string, Option<string>>, defaults: AckTags, key: string): Option<string> {
    if key in declared then (if declared[key].Some? then declared[key] else Some(""))
    else if key in defaults then Some(defaults[key])
    else None
  }

  ghost predicate TagInPlace(declared: map<string, Option<string>>, defaults: AckTags, tags: AckTags, k: string) {
    var wanted := Wanted(declared, defaults, k);
    if "aws:" <= k then wanted.Some? ==> k in tags
    else if k in tags then wanted == Some(tags[k]) else wanted.None?
  }

  /** The service has exactly the wanted tags, apart from "aws:" tags, which only have to exist. */
  ghost predicate TagsInPlace(declared: map<string, Option<string>>, defaults: AckTags, tags: AckTags) {
    forall k :: TagInPlace(declared, defaults, tags, k)
  }

  ghost predicate PolicyInPlace(parse: string -> Option<nat>, d: Option<string>, b: Option<string>) {
    if d.None? then b.None?
    else b.Some? && parse(d.value).Some? && parse(b.value).Some? && parse(d.value) == parse(b.value)
  }

  ghost predicate ValueInPlace(v: MaintenanceValue, b: SdkMaintenance) {
    && (v.status.Some? ==> v.status.value != "" && b.status == v.status.value)
    && (v.settings.Some? && v.settings.value.iceberg.Some? ==>
          var s := v.settings.value.iceberg.value;
          && b.settings.IcebergMember?
          && (s.nonCurrentDays.Some? ==> SameDays(s.nonCurrentDays, b.settings.nonCurrentDays))
          && (s.unreferencedDays.Some? ==> SameDays(s.unreferencedDays, b.settings.unreferencedDays)))
  }

  /** Every declared part is as declared in the service's state. */
  ghost predicate MaintenanceInPlace(m: MaintenanceMap, b: map<string, SdkMaintenance>) {
    m.Some? ==> forall t :: t in m.value && m.value[t].Some? ==>
      t == "icebergUnreferencedFileRemoval" && t in b && ValueInPlace(m.value[t].value, b[t])
  }

  ghost predicate InPlace(cfg: Config, d: TableBucketSpec, b: Bucket) {
    && (d.encryption.Some? ==> EncryptionInPlace(d.encryption.value, b.encryption))
    && (d.storageClass.Some? && d.storageClass.value.storageClass.Some? ==>
          d.storageClass.value.storageClass.value != "" && b.storageClass == d.storageClass.value.storageClass)
    && TagsInPlace(if d.tags.Some? then d.tags.value else map[], cfg.defaultTags, b.tags)
    && PolicyInPlace(cfg.parse, d.policy, b.policy)
    && MaintenanceInPlace(d.maintenance, b.maintenance)
  }

  lemma TagsInPlaceIff(cfg: Config, d: TableBucketSpec, b: Bucket)
    ensures Pend(cfg, TagSet, d, b) == 0 <==>
      TagsInPlace(if d.tags.Some? then d.tags.value else map[], cfg.defaultTags, b.tags)
  {
    var declared := if d.tags.Some? then d.tags.value else map[];
    var target := Merge(ToAck(d.tags), cfg.defaultTags);
    var pending := Pending(target, b.tags);
    forall k
      ensures k !in pending <==> TagInPlace(declared, cfg.defaultTags, b.tags, k)
    {
      TagAt(d.tags, cfg.defaultTags, k);
    }
    hide TagInPlace;
    if pending == {} {
      assert forall k :: k !in pending;
    } else {
      var k :| k in pending;
      assert !TagInPlace(declared, cfg.defaultTags, b.tags, k);
    }
  }

  lemma TagAt(tags: TagMap, defaults: AckTags, k: string)
    ensures var declared := if tags.Some? then tags.value else map[];
            var target := Merge(ToAck(tags), defaults);
            Wanted(declared, defaults, k) == if k in target then Some(target[k]) else None
  {
  }

  lemma MaintenanceInPlaceIff(m: MaintenanceMap, b: map<string, SdkMaintenance>)
    ensures Covered(m, Observed(b)) <==> MaintenanceInPlace(m, b)
  {
    var entries := Entries(m);
    forall t | t in entries && entries[t].Some?
      ensures EntryCovered(entries[t], t, Observed(b)) <==>
        t == "icebergUnreferencedFileRemoval" && t in b && ValueInPlace(entries[t].value, b[t])
    {
    }
    hide EntryCovered, ValueInPlace, Observed;
  }

  /** Settled means that everything the spec declares is in place at the service. */
  lemma SettledIff(cfg: Config, d: TableBucketSpec, b: Bucket)
    ensures Settled(cfg, d, b) <==> InPlace(cfg, d, b)
  {
    TagsInPlaceIff(cfg, d, b);
    MaintenanceInPlaceIff(d.maintenance, b.maintenance);
    hide TagsInPlace, MaintenanceInPlace, Covered, Pending, Observed, ToAck, Merge;
    assert Pend(cfg, Encryption, d, b) == 0 <==>
      (d.encryption.Some? ==> EncryptionInPlace(d.encryption.value, b.encryption));
    assert Pend(cfg, StorageClass, d, b) == 0 <==>
      (d.storageClass.Some? && d.storageClass.value.storageClass.Some? ==>
         d.storageClass.value.storageClass.value != "" && b.storageClass == d.storageClass.value.storageClass);
    assert Pend(cfg, Policy, d, b) == 0 <==> PolicyInPlace(cfg.parse, d.policy, b.policy);
    assert Pend(cfg, MaintenanceConfig, d, b) == 0 <==> MaintenanceInPlace(d.maintenance, b.maintenance);
    hide Pend, EncryptionInPlace, PolicyInPlace;
    MeasureIsZeroIff(cfg, d, b);
  }

  /** A pass without failures puts everything a well-formed spec declares in place at the service,
      and it writes exactly when not everything was. */
  lemma NextPassPutsInPlace(env: Env, cfg: Config, w: World, ko: Ko, order: seq<string>)
    requires Enumerates(order, Entries(ko.spec.maintenance).Keys)
    requires Fine(cfg, ko.spec, w.Now())
    requires ArnOf(ko.status).Some? && NoFaults(env, |w.log|)
    ensures var r := Pass(env, cfg, w, ko, order);
            && r.err.None? && InPlace(cfg, ko.spec, r.world.Now())
            && (NoWrites(r.world, |w.log|) <==> InPlace(cfg, ko.spec, w.Now()))
  {
    hide Pend, Pass, Fine, InPlace;
    var r := Pass(env, cfg, w, ko, order);
    PassIsSound(env, cfg, w, ko, order);
    SettledIff(cfg, ko.spec, w.Now());
    SettledIff(cfg, ko.spec, r.world.Now());
  }

  // ----- Different -----

  ghost predicate DeclaresMore(a: MaintenanceValue, b: MaintenanceValue) {
    || (a.status.Some? && b.status != a.status)
    || (a.settings.Some? && a.settings.value.iceberg.Some? &&
        var s := a.settings.value.iceberg.value;
        || b.settings.None? || b.settings.value.iceberg.None?
        || (s.nonCurrentDays.Some? && b.settings.value.iceberg.value.nonCurrentDays != s.nonCurrentDays)
        || (s.unreferencedDays.Some? && b.settings.value.iceberg.value.unreferencedDays != s.unreferencedDays))
  }

  /** A declared entry is not observed, or not with everything it declares. */
  ghost predicate Misses(v: Option<MaintenanceValue>, t: string, b: MaintenanceMap) {
    v.Some? &&
    (b.None? || t !in b.value || b.value[t].None? || DeclaresMore(v.value, b.value[t].value))
  }

  /** When the delta shows each field: encryption up to the key reference, tags up to nil against
      "", policies as documents, and maintenance when something declared is not observed. */
  lemma ComparedIs(cfg: Config, a: TableBucketSpec, b: TableBucketSpec)
    ensures var c := Compared(cfg, a, b);
            && (c.encryption <==>
                  (a.encryption.Some? != b.encryption.Some?) ||
                  (a.encryption.Some? &&
                   (a.encryption.value.kmsKeyARN != b.encryption.value.kmsKeyARN ||
                    a.encryption.value.sseAlgorithm != b.encryption.value.sseAlgorithm)))
            && (c.name <==> a.name != b.name)
            && (c.policy <==> !PolicyInPlace(cfg.parse, a.policy, b.policy))
            && (c.storageClass <==> a.storageClass != b.storageClass)
            && (c.tags <==> !SameTags(a.tags, b.tags))
            && (c.maintenance <==>
                  a.maintenance.Some? &&
                  exists t :: t in a.maintenance.value && Misses(a.maintenance.value[t], t, b.maintenance))
  {
    SameTagsIff(a.tags, b.tags);
    CoveredIff(a.maintenance, b.maintenance);
    hide ToAck, Covered, SameTags, Misses;
  }

  lemma CoveredIff(a: MaintenanceMap, b: MaintenanceMap)
    ensures !Covered(a, b) <==> a.Some? && exists t :: t in a.value && Misses(a.value[t], t, b)
  {
    var entries := Entries(a);
    forall t | t in entries
      ensures !EntryCovered(entries[t], t, b) <==> Misses(entries[t], t, b)
    {
    }
    if !Covered(a, b) {
      var t :| t in entries && !EntryCovered(entries[t], t, b);
      assert Misses(a.value[t], t, b);
    }
    hide EntryCovered, Misses;
  }

  /** What is compared with the observation: the declared spec, with every observed "aws:" tag as
      observed and every other tag as wanted. */
  lemma ComparedSpecIs(cfg: Config, ko: Ko, observed: Ko)
    ensures var d := Mirror(Desired(cfg, ko), observed).spec;
            var declared := if ko.spec.tags.Some? then ko.spec.tags.value else map[];
            var shown := if observed.spec.tags.Some? then observed.spec.tags.value else map[];
            && d.(tags := ko.spec.tags) == ko.spec && d.tags.Some?
            && forall k ::
                 var wanted := Wanted(declared, cfg.defaultTags, k);
                 if k in shown && "aws:" <= k
                 then k in d.tags.value && d.tags.value[k] == if shown[k].Some? then shown[k] else Some("")
                 else if k in d.tags.value then wanted.Some? && d.tags.value[k] == wanted else wanted.None?
  {
    EnsuredTagsAre(ko.spec.tags, cfg.defaultTags);
    MirroredTagsAre(Desired(cfg, ko).spec.tags, observed.spec.tags);
    hide EnsuredTags, MirroredTags;
  }

  // ----- Read -----

  /** Every error a read can end with. Without an ARN no call is made. A first call that fails is
      the only one, and is reported as NotFound exactly for an API error of that code. */
  lemma ReadErrorsAre(env: Env, cfg: Config, w: World, ko: Ko)
    ensures var (w', found) := Find(env, cfg, w, ko);
            var known := ko.status.metadata.Some? && ko.status.metadata.value.arn.Some?;
            var (w1, err) := Invoke(env, w, GetTableBucket);
            if !known then w' == w && found == Err(Error("resource not found", None, false, AckNotFound))
            else if err.Some? then
              && w' == w1
              && found == Err(if err.value.api.Some? && err.value.api.value.code == "NotFoundException"
                              then Error("resource not found", None, false, AckNotFound) else err.value)
            else
              |w'.log| > |w1.log| && w1.log <= w'.log
  {
    hide Invoke, Observation;
    if ArnOf(ko.status).Some? && Invoke(env, w, GetTableBucket).1.None? {
      SixReads(env, Invoke(env, w, GetTableBucket).0);
    }
  }

  /** After GetTableBucket the five settings are read in this order, each read made only if those
      before it went well, where a missing policy counts as well. */
  lemma SixReads(env: Env, w: World)
    ensures var w1 := Invoke(env, w, GetEncryption).0;
            var w2 := Invoke(env, w1, GetStorageClass).0;
            var w3 := Invoke(env, w2, ListTags).0;
            var w4 := Invoke(env, w3, GetPolicy).0;
            var w5 := Invoke(env, w4, GetMaintenance).0;
            var e1, e2 := Invoke(env, w, GetEncryption).1, Invoke(env, w1, GetStorageClass).1;
            var e3 := Invoke(env, w2, ListTags).1;
            var e4, e5 := Invoke(env, w3, GetPolicy).1, Invoke(env, w4, GetMaintenance).1;
            var missing := e4.Some? && e4.value.api.Some? && e4.value.api.value.code == "NotFoundException";
            Execute(env, w, CONFIGURATION_READS) ==
            if e1.Some? then (w1, e1) else if e2.Some? then (w2, e2) else if e3.Some? then (w3, e3)
            else if e4.Some? && !missing then (w4, e4) else (w5, e5)
    ensures var log := Execute(env, w, CONFIGURATION_READS).0.log; |log| > |w.log| && w.log <= log
  {
    LogOfInvoke(env, w, GetEncryption);
    var w1 := Invoke(env, w, GetEncryption).0;
    LogOfInvoke(env, w1, GetStorageClass);
    var w2 := Invoke(env, w1, GetStorageClass).0;
    LogOfInvoke(env, w2, ListTags);
    var w3 := Invoke(env, w2, ListTags).0;
    LogOfInvoke(env, w3, GetPolicy);
    var w4 := Invoke(env, w3, GetPolicy).0;
    LogOfInvoke(env, w4, GetMaintenance);
    hide Invoke;
    assert CONFIGURATION_READS[1..] == [Send(GetStorageClass), Send(ListTags), Send(GetPolicy), Send(GetMaintenance)];
    assert CONFIGURATION_READS[1..][1..] == [Send(ListTags), Send(GetPolicy), Send(GetMaintenance)];
    assert CONFIGURATION_READS[1..][1..][1..] == [Send(GetPolicy), Send(GetMaintenance)];
    assert CONFIGURATION_READS[1..][1..][1..][1..] == [Send(GetMaintenance)];
    assert CONFIGURATION_READS[1..][1..][1..][1..][1..] == [];
    assert Execute(env, w, CONFIGURATION_READS) ==
      if Invoke(env, w, GetEncryption).1.Some? then Invoke(env, w, GetEncryption)
      else Execute(env, w1, CONFIGURATION_READS[1..]);
    assert Execute(env, w1, CONFIGURATION_READS[1..]) ==
      if Invoke(env, w1, GetStorageClass).1.Some? then Invoke(env, w1, GetStorageClass)
      else Execute(env, w2, CONFIGURATION_READS[1..][1..]);
    assert Execute(env, w2, CONFIGURATION_READS[1..][1..]) ==
      if Invoke(env, w2, ListTags).1.Some? then Invoke(env, w2, ListTags)
      else Execute(env, w3, CONFIGURATION_READS[1..][1..][1..]);
  }

  lemma LogOfInvoke(env: Env, w: World, call: Call)
    ensures var w' := Invoke(env, w, call).0; |w'.log| == |w.log| + 1 && w.log <= w'.log && w'.log[|w.log|].call == call
  {
  }

  /** What a read that succeeds shows, field by field. */
  lemma ObservationIs(cfg: Config, ko: Ko, b: Bucket)
    ensures var o := Observation(cfg, ko, b);
            && o.spec.name == b.name && o.spec.policy == b.policy
            && o.spec.tags == FromService(b.tags) && o.spec.maintenance == Observed(b.maintenance)
            && (o.spec.encryption.Some? <==> b.encryption.Some?)
            && (b.encryption.Some? ==>
                  && o.spec.encryption.value.kmsKeyARN == b.encryption.value.kmsKeyArn
                  && o.spec.encryption.value.kmsKeyRef.None?
                  && o.spec.encryption.value.sseAlgorithm ==
                     (if b.encryption.value.sseAlgorithm == "" then None else Some(b.encryption.value.sseAlgorithm)))
            && (o.spec.storageClass.None? <==> b.storageClass.None? || b.storageClass.value == "")
            && (o.spec.storageClass.Some? ==> o.spec.storageClass.value.storageClass == b.storageClass)
            && o.status.createdAt == b.createdAt
            && o.status.bucketType == (if b.bucketType == "" then None else Some(b.bucketType))
            && o.status.tableBucketID == (if b.id.Some? then b.id else ko.status.tableBucketID)
            && o.status.metadata.Some? && o.status.metadata.value.arn == Some(b.arn)
            && Defaulted(cfg, ko.status.metadata, o.status.metadata)
            && o.status.conditions == Some(if ko.status.conditions.Some? then ko.status.conditions.value else [])
  {
    hide Observed, FromService;
  }

  /** Region, partition and account are kept where they are set and are the manager's own where
      they are not. */
  ghost predicate Defaulted(cfg: Config, before: Option<ResourceMetadata>, after: Option<ResourceMetadata>) {
    && after.Some?
    && after.value.region ==
       Some(if before.Some? && before.value.region.Some? then before.value.region.value else cfg.region)
    && after.value.partition ==
       Some(if before.Some? && before.value.partition.Some? then before.value.partition.value else cfg.partition)
    && after.value.ownerAccountID ==
       Some(if before.Some? && before.value.ownerAccountID.Some? then before.value.ownerAccountID.value
            else cfg.account)
  }

  lemma DefaultsAre(cfg: Config, status: TableBucketStatus)
    ensures var r := WithDefaults(cfg, status);
            && Defaulted(cfg, status.metadata, r.metadata)
            && r.metadata.value.arn == (if status.metadata.Some? then status.metadata.value.arn else None)
            && r.conditions == Some(if status.conditions.Some? then status.conditions.value else [])
            && r.(metadata := status.metadata, conditions := status.conditions) == status
  {
  }

  // ----- Written -----

  /** Where a write stands in an update. */
  function Rank(item: Item): nat {
    if item.GiveUp? then 6
    else
      match item.call
      case PutEncryption(_) => 1
      case PutStorageClass(_) => 2
      case UntagResource(_) => 3
      case TagResource(_) => 4
      case DeletePolicy => 5
      case PutPolicy(_) => 5
      case PutMaintenance(_, _) => 6
      case _ => 0
  }

  /** The ranks never fall, and stay between these two. */
  ghost predicate Ordered(plan: seq<Item>, low: nat, high: nat) {
    && (forall i :: 0 <= i < |plan| ==> low <= Rank(plan[i]) <= high)
    && forall i, j :: 0 <= i < j < |plan| ==> Rank(plan[i]) <= Rank(plan[j])
  }

  lemma OrderedJoin(a: seq<Item>, b: seq<Item>, low: nat, mid: nat, next: nat, high: nat)
    requires Ordered(a, low, mid) && Ordered(b, next, high) && low <= mid <= next <= high
    ensures Ordered(a + b, low, high)
  {
    hide Rank;
  }

  lemma PlainPartsOrdered(d: TableBucketSpec)
    ensures Ordered(EncryptionPlan(d), 1, 1) && Ordered(StorageClassPlan(d), 2, 2) && Ordered(PolicyPlan(d), 5, 5)
  {
  }

  lemma TagPartOrdered(d: TagMap, l: TagMap)
    ensures Ordered(TagPlan(d, l), 3, 4)
  {
    hide ToAdd, ToRemove, ToAck;
  }

  lemma NothingOrdered(low: nat, high: nat)
    ensures Ordered([], low, high)
  {
  }

  lemma {:induction false} MaintenanceItems(d: map<string, Option<MaintenanceValue>>, order: seq<string>)
    requires forall t :: t in order ==> t in d
    ensures forall i :: 0 <= i < |MaintenancePlan(d, order)| ==> Rank(MaintenancePlan(d, order)[i]) == 6
  {
    if order != [] {
      MaintenanceItems(d, order[..|order| - 1]);
      hide ToSdk;
    }
  }

  lemma MaintenancePartOrdered(d: map<string, Option<MaintenanceValue>>, order: seq<string>)
    requires forall t :: t in order ==> t in d
    ensures Ordered(MaintenancePlan(d, order), 6, 6)
  {
    MaintenanceItems(d, order);
    hide Rank, MaintenancePlan;
  }

  /** An update writes encryption, storage class, tags (first gone, then new), policy and
      maintenance, in this order. */
  lemma UpdateIsOrdered(d: TableBucketSpec, l: TableBucketSpec, changes: Changes, order: seq<string>)
    requires forall t :: t in order ==> t in Entries(d.maintenance)
    ensures Ordered(UpdatePlan(d, l, changes, order), 1, 6)
  {
    hide Ordered, EncryptionPlan, StorageClassPlan, TagPlan, PolicyPlan, MaintenancePlan;
    var p1 := if changes.encryption then EncryptionPlan(d) else [];
    var p2 := if changes.storageClass then StorageClassPlan(d) else [];
    var p3 := if changes.tags then TagPlan(d.tags, l.tags) else [];
    var p4 := if changes.policy then PolicyPlan(d) else [];
    var p5 := if changes.maintenance then MaintenancePlan(Entries(d.maintenance), order) else [];
    PlainPartsOrdered(d);
    TagPartOrdered(d.tags, l.tags);
    MaintenancePartOrdered(Entries(d.maintenance), order);
    NothingOrdered(1, 1);
    NothingOrdered(2, 2);
    NothingOrdered(3, 4);
    NothingOrdered(5, 5);
    NothingOrdered(6, 6);
    OrderedJoin(p4, p5, 5, 5, 6, 6);
    OrderedJoin(p3, p4 + p5, 3, 4, 5, 6);
    OrderedJoin(p2, p3 + (p4 + p5), 2, 2, 3, 6);
    OrderedJoin(p1, p2 + (p3 + (p4 + p5)), 1, 1, 2, 6);
  }

  lemma PlainCalls(d: TableBucketSpec, call: Call)
    ensures Send(call) in EncryptionPlan(d) <==>
      && call.PutEncryption? && d.encryption.Some?
      && call.config.kmsKeyArn == d.encryption.value.kmsKeyARN
      && call.config.sseAlgorithm ==
         (if d.encryption.value.sseAlgorithm.Some? then d.encryption.value.sseAlgorithm.value else "")
    ensures Send(call) in StorageClassPlan(d) <==>
      call.PutStorageClass? && d.storageClass.Some? && d.storageClass.value.storageClass == Some(call.kind)
    ensures Send(call) in PolicyPlan(d) <==>
      if d.policy.None? || d.policy.value == "" then call.DeletePolicy?
      else call.PutPolicy? && d.policy == Some(call.document)
  {
  }

  lemma TagCalls(d: TagMap, l: TagMap, call: Call)
    ensures Send(call) in TagPlan(d, l) <==>
      if call.UntagResource? then call.keys != {} && call.keys == ToRemove(ToAck(l), ToAck(d))
      else call.TagResource? && call.added != map[] && call.added == ToAdd(ToAck(l), ToAck(d))
  {
    hide ToAdd, ToRemove, ToAck;
  }

  lemma NoOtherMaintenance(d: map<string, Option<MaintenanceValue>>, order: seq<string>, call: Call)
    requires forall t :: t in order ==> t in d
    ensures Send(call) in MaintenancePlan(d, order) ==> call.PutMaintenance?
  {
    if Send(call) in MaintenancePlan(d, order) {
      OnlyDeclaredTypesArePut(d, order, call);
    }
  }

  /** The calls of an update, and when each is made. */
  lemma UpdateCallsAre(d: TableBucketSpec, l: TableBucketSpec, changes: Changes, order: seq<string>, call: Call)
    requires forall t :: t in order ==> t in Entries(d.maintenance)
    requires !call.PutMaintenance?
    ensures Send(call) in UpdatePlan(d, l, changes, order) <==>
      match call
      case PutEncryption(config) =>
        && changes.encryption && d.encryption.Some?
        && config.kmsKeyArn == d.encryption.value.kmsKeyARN
        && config.sseAlgorithm ==
           (if d.encryption.value.sseAlgorithm.Some? then d.encryption.value.sseAlgorithm.value else "")
      case PutStorageClass(kind) =>
        changes.storageClass && d.storageClass.Some? && d.storageClass.value.storageClass == Some(kind)
      case UntagResource(keys) => changes.tags && keys != {} && keys == ToRemove(ToAck(l.tags), ToAck(d.tags))
      case TagResource(added) => changes.tags && added != map[] && added == ToAdd(ToAck(l.tags), ToAck(d.tags))
      case DeletePolicy => changes.policy && (d.policy.None? || d.policy.value == "")
      case PutPolicy(document) => changes.policy && d.policy == Some(document) && document != ""
      case _ => false
  {
    PlainCalls(d, call);
    TagCalls(d.tags, l.tags, call);
    NoOtherMaintenance(Entries(d.maintenance), order, call);
    hide EncryptionPlan, StorageClassPlan, TagPlan, PolicyPlan, MaintenancePlan, ToAdd, ToRemove, ToAck;
  }

  /** Maintenance is put for exactly the declared types whose value can be narrowed, each with its
      narrowed value; a value that cannot makes the update give up with its error. */
  lemma {:induction false} MaintenanceCallsAre(d: map<string, Option<MaintenanceValue>>, order: seq<string>, t: string)
    requires forall k :: k in order ==> k in d
    requires t in order && d[t].Some?
    ensures match ToSdk(d[t].value)
            case Ok(put) => Send(PutMaintenance(t, put)) in MaintenancePlan(d, order)
            case Err(e) => GiveUp(e) in MaintenancePlan(d, order)
  {
    hide ToSdk;
    var init, last := order[..|order| - 1], order[|order| - 1];
    if t in init {
      MaintenanceCallsAre(d, init, t);
    }
  }

  // ----- Stored -----

  /** A pass stores the declared spec, whatever happens; only after an update, and only if all of
      the pass goes well, does it store fields the spec leaves unset as they were observed. */
  lemma StoredSpecIs(env: Env, cfg: Config, w: World, ko: Ko, order: seq<string>)
    requires Enumerates(order, Entries(ko.spec.maintenance).Keys)
    ensures var r := Pass(env, cfg, w, ko, order);
            var stored, b := r.stored.spec, r.world.Now();
            && stored.name == ko.spec.name && stored.policy == ko.spec.policy && stored.tags == ko.spec.tags
            && (r.err.Some? ==> stored == ko.spec)
            && (var found := Find(env, cfg, w, Desired(cfg, ko)).1;
                found.Ok? && !Compared(cfg, Mirror(Desired(cfg, ko), found.value).spec, found.value.spec).Any() ==>
                  stored == ko.spec)
            && (ko.spec.encryption.Some? ==> stored.encryption == ko.spec.encryption)
            && (ko.spec.storageClass.Some? ==> stored.storageClass == ko.spec.storageClass)
            && (ko.spec.maintenance.Some? ==> stored.maintenance == ko.spec.maintenance)
            && (stored != ko.spec ==>
                  && (ko.spec.encryption.None? ==> stored.encryption == ObservedEncryption(b.encryption))
                  && (ko.spec.storageClass.None? ==> stored.storageClass == ObservedStorageClass(b.storageClass))
                  && (ko.spec.maintenance.None? ==> stored.maintenance == Observed(b.maintenance)))
  {
    hide Find, Compared, UpdatePlan, Execute, Finish, EnsuredTags, MirroredTags, Concluded, Reported,
      ObservedEncryption, ObservedStorageClass, Observed;
    var asked := Desired(cfg, ko);
    var (w1, found) := Find(env, cfg, w, asked);
    if found.Ok? {
      ConclusionsKeep(cfg, found.value, None);
      var latest := Concluded(cfg, found.value, None);
      var d := Mirror(asked, latest);
      var changes := Compared(cfg, d.spec, latest.spec);
      var w2 := Update(env, w1, d, latest, changes, order).0;
      FinishStores(env, cfg, w1, ko, latest, false);
      FinishStores(env, cfg, w2, ko, Concluded(cfg, Ko(d.spec, latest.status), None), true);
    }
  }

  lemma FinishStores(env: Env, cfg: Config, w: World, ko: Ko, latest: Ko, changed: bool)
    ensures var r := Finish(env, cfg, w, ko, latest, changed);
            var stored, b := r.stored.spec, r.world.Now();
            if r.err.Some? || !changed then stored == ko.spec
            else stored == ko.spec.(
              encryption := if ko.spec.encryption.Some? then ko.spec.encryption else ObservedEncryption(b.encryption),
              storageClass := if ko.spec.storageClass.Some? then ko.spec.storageClass
                              else ObservedStorageClass(b.storageClass),
              maintenance := if ko.spec.maintenance.Some? then ko.spec.maintenance else Observed(b.maintenance))
  {
    hide Find, C.Concluded, C.Set, ObservedEncryption, ObservedStorageClass, Observed, Advances, Pend, FromService;
    FindChangesNothing(env, cfg, ko.spec, w, latest);
    var (w1, again) := Find(env, cfg, w, latest);
    assert again.Ok? ==> again.value.spec == WithConfigurations(latest.spec.(name := w.Now().name), w.Now());
  }

  /** The status stored is the last one returned, apart from the conditions: what the first read
      showed, or, if that failed, the old one with its defaults. */
  lemma StoredStatusIs(env: Env, cfg: Config, w: World, ko: Ko, order: seq<string>)
    requires Enumerates(order, Entries(ko.spec.maintenance).Keys)
    ensures var stored := Pass(env, cfg, w, ko, order).stored.status;
            var found := Find(env, cfg, w, Desired(cfg, ko)).1;
            stored.(conditions := None) ==
            (if found.Ok? then found.value.status else WithDefaults(cfg, ko.status)).(conditions := None)
  {
    hide Find, Compared, UpdatePlan, Execute, EnsuredTags, MirroredTags, Reported, C.Concluded, C.Next, C.Set;
    var asked := Desired(cfg, ko);
    var (w1, found) := Find(env, cfg, w, asked);
    match found
    case Err(e) =>
      C.UpdatesIff(asked.status.conditions, Some(e));
      hide WithDefaults;
    case Ok(observed) =>
      FoundIsDefaulted(env, cfg, w, asked);
      ConcludedKeeps(cfg, observed, None);
      var latest := Concluded(cfg, observed, None);
      var d := Mirror(asked, latest);
      var (w2, updated) := Update(env, w1, d, latest, Compared(cfg, d.spec, latest.spec), order);
      if updated.Err? {
        ConcludedKeeps(cfg, latest, Some(updated.error));
      } else {
        ConcludedKeeps(cfg, updated.value, None);
      }
      hide WithDefaults, Concluded;
  }

  /** Defaults are set already. */
  ghost predicate Complete(cfg: Config, status: TableBucketStatus) {
    WithDefaults(cfg, status).(conditions := status.conditions) == status
  }

  lemma FoundIsDefaulted(env: Env, cfg: Config, w: World, ko: Ko)
    ensures var found := Find(env, cfg, w, ko).1; found.Ok? ==> Complete(cfg, found.value.status)
  {
    hide Invoke, Execute, WithConfigurations;
  }

  lemma ConcludedKeeps(cfg: Config, ko: Ko, outcome: Option<Error>)
    requires Complete(cfg, ko.status)
    ensures Complete(cfg, Concluded(cfg, ko, outcome).status)
    ensures Concluded(cfg, ko, outcome).status.(conditions := None) == ko.status.(conditions := None)
  {
    hide C.Concluded, C.Updates;
  }

  /** A bucket that is gone: the pass makes one call, reports NotFound and stores the spec as it
      was. */
  lemma MissingBucketIsReported(env: Env, cfg: Config, w: World, ko: Ko, order: seq<string>)
    requires Enumerates(order, Entries(ko.spec.maintenance).Keys)
    requires ko.status.metadata.Some? && ko.status.metadata.value.arn.Some?
    requires var err := Invoke(env, w, GetTableBucket).1;
             err.Some? && err.value.api.Some? && err.value.api.value.code == "NotFoundException"
    ensures var r := Pass(env, cfg, w, ko, order);
            && r.world == Invoke(env, w, GetTableBucket).0 && r.stored.spec == ko.spec
            && r.err == Some(Error("resource not found", None, false, AckNotFound))
  {
    hide Invoke, Compared, EnsuredTags;
    ReadErrorsAre(env, cfg, w, Desired(cfg, ko));
    hide Find, Concluded, Reported;
  }

  // ----- Conditions a late initialisation leaves -----

  lemma LateInitConditionsAre(status: TableBucketStatus)
    ensures var was := if status.conditions.Some? then status.conditions.value else [];
            && LateInitDone(status).conditions ==
               Some(C.Set(was, CondLateInitialized, StatusTrue, Some("Late initialization successful")))
            && LateInitFailed(status).conditions ==
               Some(C.Set(C.Set(was, CondLateInitialized, StatusFalse,
                                Some("Unable to complete Read operation required for late initialization")),
                          CondSynced, StatusFalse, None))
            && LateInitDone(status).(conditions := status.conditions) == status
            && LateInitFailed(status).(conditions := status.conditions) == status
  {
  }
}
