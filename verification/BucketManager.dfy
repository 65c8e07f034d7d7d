/** The code of pkg/resource/table_bucket (hooks.go, sdk.go, manager.go, delta.go), as methods
    that edit objects in place and call the service, each proved to compute what module
    BucketPass specifies. */
module BucketManager {
  import opened Types
  import opened Tags
  import opened Maintenance
  import opened BucketService
  import opened BucketPass
  import C = Conditions
  import D = Delta

  /** The custom resource (`resource.ko`). */
  class TableBucket {
    var spec: TableBucketSpec
    var status: TableBucketStatus

    constructor (spec: TableBucketSpec, status: TableBucketStatus)
      ensures this.spec == spec && this.status == status
    {
      this.spec, this.status := spec, status;
    }

    function View(): Ko
      reads this
    {
      Ko(spec, status)
    }

    method DeepCopy() returns (copy: TableBucket)
      ensures fresh(copy) && copy.View() == View()
    {
      copy := new TableBucket(spec, status);
    }
  }

  // ----- delta.go -----

  const ENCRYPTION_PATH: D.Path := [D.Spec, D.EncryptionConfiguration]
  const NAME_PATH: D.Path := [D.Spec, D.Name]
  const POLICY_PATH: D.Path := [D.Spec, D.Policy]
  const STORAGE_CLASS_PATH: D.Path := [D.Spec, D.StorageClassConfiguration]
  const TAGS_PATH: D.Path := [D.Spec, D.Tags]
  const MAINTENANCE_PATH: D.Path := [D.Spec, D.MaintenanceConfiguration]

  function ChangesIn(delta: D.Delta): Changes {
    Changes(D.DifferentAt(delta, ENCRYPTION_PATH), D.DifferentAt(delta, NAME_PATH), D.DifferentAt(delta, POLICY_PATH),
            D.DifferentAt(delta, STORAGE_CLASS_PATH), D.DifferentAt(delta, TAGS_PATH),
            D.DifferentAt(delta, MAINTENANCE_PATH))
  }

  function Marked(c: Changes, field: D.Segment): Changes {
    Changes(c.encryption || field == D.EncryptionConfiguration, c.name || field == D.Name,
            c.policy || field == D.Policy, c.storageClass || field == D.StorageClassConfiguration,
            c.tags || field == D.Tags, c.maintenance || field == D.MaintenanceConfiguration)
  }

  /** Recording a difference marks its field, and no other. */
  lemma RecordMarks(delta: D.Delta, r: D.Delta, field: D.Path, differs: bool)
    requires D.Records(delta, r, field, differs) && |field| == 2 && field[0] == D.Spec
    ensures ChangesIn(r) == if differs then Marked(ChangesIn(delta), field[1]) else ChangesIn(delta)
    ensures r == [] <==> delta == [] && !differs
  {
    MarkAt(delta, r, field, differs, D.EncryptionConfiguration);
    MarkAt(delta, r, field, differs, D.Name);
    MarkAt(delta, r, field, differs, D.Policy);
    MarkAt(delta, r, field, differs, D.StorageClassConfiguration);
    MarkAt(delta, r, field, differs, D.Tags);
    MarkAt(delta, r, field, differs, D.MaintenanceConfiguration);
    hide D.DifferentAt;
  }

  lemma MarkAt(delta: D.Delta, r: D.Delta, field: D.Path, differs: bool, f: D.Segment)
    requires D.Records(delta, r, field, differs) && |field| == 2 && field[0] == D.Spec
    ensures D.DifferentAt(r, [D.Spec, f]) <==> D.DifferentAt(delta, [D.Spec, f]) || (differs && f == field[1])
  {
    D.RecordedAt(delta, r, field, differs);
    hide D.DifferentAt, D.Records;
    var q := [D.Spec, f];
    assert |q| == 2 && (q == field <==> f == field[1]);
  }

  /** newResourceDelta, including customDeltaPostCompare. */
  method NewResourceDelta(cfg: Config, a: TableBucketSpec, b: TableBucketSpec) returns (delta: D.Delta)
    ensures ChangesIn(delta) == Compared(cfg, a, b)
    ensures delta == [] <==> !Compared(cfg, a, b).Any()
  {
    hide ChangesIn, Covered, ToAck, D.EncryptionDiffers, D.Records, D.AddIf, PolicyDiffers;
    var d1 := CompareFields(cfg, a, b);
    var desiredTags, _ := ConvertToOrderedACKTags(a.tags);
    var latestTags, _ := ConvertToOrderedACKTags(b.tags);
    var d2 := D.AddIf(d1, TAGS_PATH, desiredTags.m != latestTags.m);
    RecordMarks(d1, d2, TAGS_PATH, ToAck(a.tags) != ToAck(b.tags));
    var needsSync := MaintenanceNeedsSync(a.maintenance, b.maintenance);
    delta := D.AddIf(d2, MAINTENANCE_PATH, needsSync);
    RecordMarks(d2, delta, MAINTENANCE_PATH, !Covered(a.maintenance, b.maintenance));
  }

  /** newResourceDelta, from the encryption configuration to the storage class. */
  method CompareFields(cfg: Config, a: TableBucketSpec, b: TableBucketSpec) returns (r: D.Delta)
    ensures ChangesIn(r) == Compared(cfg, a, b).(tags := false, maintenance := false)
    ensures r == [] <==> !Compared(cfg, a, b).(tags := false, maintenance := false).Any()
  {
    hide ChangesIn, Covered, ToAck, D.EncryptionDiffers, D.Records, D.AddIf, PolicyDiffers;
    var d0: D.Delta := [];
    NothingRecorded();
    var d1 := D.CompareEncryption(d0, ENCRYPTION_PATH, a.encryption, b.encryption);
    RecordMarks(d0, d1, ENCRYPTION_PATH, D.EncryptionDiffers(a.encryption, b.encryption));
    var d2 := D.ComparePointers(d1, NAME_PATH, a.name, b.name);
    RecordMarks(d1, d2, NAME_PATH, a.name != b.name);
    var d3 := ComparePolicy(cfg, d2, a.policy, b.policy);
    RecordMarks(d2, d3, POLICY_PATH, PolicyDiffers(cfg.parse, a.policy, b.policy));
    r := D.CompareStorageClass(d3, STORAGE_CLASS_PATH, a.storageClass, b.storageClass);
    RecordMarks(d3, r, STORAGE_CLASS_PATH, a.storageClass != b.storageClass);
  }

  lemma NothingRecorded()
    ensures ChangesIn([]) == Changes(false, false, false, false, false, false)
  {
  }

  method ComparePolicy(cfg: Config, delta: D.Delta, a: Option<string>, b: Option<string>) returns (r: D.Delta)
    ensures r == D.AddIf(delta, POLICY_PATH, PolicyDiffers(cfg.parse, a, b))
  {
    r := delta;
    if a.Some? != b.Some? {
      r := D.Add(r, POLICY_PATH);
    } else if a.Some? && b.Some? {
      if !SamePolicy(cfg.parse, a.value, b.value) {
        r := D.Add(r, POLICY_PATH);
      }
    }
  }

  /** The loop of setBucketConfigurations over the service's maintenance types. */
  method RecognisedMaintenance(config: map<string, SdkMaintenance>) returns (spec: MaintenanceMap)
    ensures spec == Observed(config)
  {
    var result: map<string, Option<MaintenanceValue>> := map[];
    var order := RangeKeys(config);
    for i := 0 to |order|
      invariant result == if RECOGNISED_TYPE in order[..i]
                          then map[RECOGNISED_TYPE := Some(FromSdk(config[RECOGNISED_TYPE]))] else map[]
    {
      if order[i] != RECOGNISED_TYPE {
        continue;
      }
      result := result[order[i] := Some(FromSdk(config[order[i]]))];
    }
    assert order[..|order|] == order;
    if |result| > 0 {
      return Some(result);
    } else {
      return None;
    }
  }

  /** `Result` of a method that returns an object or an error. */
  ghost predicate Returns(r: TableBucket?, err: Option<Error>, expected: Result<Ko>)
    reads r
  {
    match expected
    case Ok(ko) => r != null && r.View() == ko && err.None?
    case Err(e) => r == null && err == Some(e)
  }

  class ResourceManager {
    const cfg: Config
    const sdkapi: Client

    constructor (cfg: Config, sdkapi: Client)
      ensures this.cfg == cfg && this.sdkapi == sdkapi
    {
      this.cfg, this.sdkapi := cfg, sdkapi;
    }

    // ----- sdk.go -----

    method SetStatusDefaults(ko: TableBucket)
      modifies ko`status
      ensures ko.status == WithDefaults(cfg, old(ko.status))
    {
      if ko.status.metadata.None? {
        ko.status := ko.status.(metadata := Some(ResourceMetadata(None, None, None, None)));
      }
      var md := ko.status.metadata.value;
      if md.region.None? {
        md := md.(region := Some(cfg.region));
      }
      if md.partition.None? {
        md := md.(partition := Some(cfg.partition));
      }
      if md.ownerAccountID.None? {
        md := md.(ownerAccountID := Some(cfg.account));
      }
      ko.status := ko.status.(metadata := Some(md));
      if ko.status.conditions.None? {
        ko.status := ko.status.(conditions := Some([]));
      }
    }

    /** setBucketConfigurations: five reads, each overwriting one field of the spec. */
    method SetBucketConfigurations(ko: TableBucket) returns (err: Option<Error>)
      modifies sdkapi, ko`spec
      ensures ArnOf(ko.status).None? ==> sdkapi.world == old(sdkapi.world) && ko.spec == old(ko.spec) && err.None?
      ensures ArnOf(ko.status).Some? ==>
        (sdkapi.world, err) == Execute(sdkapi.env, old(sdkapi.world), CONFIGURATION_READS)
      ensures ArnOf(ko.status).Some? && err.None? ==>
        ko.spec == WithConfigurations(old(ko.spec), sdkapi.world.Now())
    {
      if ArnOf(ko.status).None? {
        return None;
      }
      hide Invoke, Observed;
      assert CONFIGURATION_READS[1..] == [Send(GetStorageClass), Send(ListTags), Send(GetPolicy), Send(GetMaintenance)];
      ReadKeeps(sdkapi.env, sdkapi.world, GetEncryption);
      err := sdkapi.Do(GetEncryption);
      if err.Some? {
        return;
      }
      var encryption := sdkapi.world.Now().encryption;
      if encryption.Some? {
        ko.spec := ko.spec.(encryption := Some(EncryptionConfiguration(encryption.value.kmsKeyArn, None, None)));
        if encryption.value.sseAlgorithm != "" {
          ko.spec := ko.spec.(encryption :=
            Some(ko.spec.encryption.value.(sseAlgorithm := Some(encryption.value.sseAlgorithm))));
        }
      } else {
        ko.spec := ko.spec.(encryption := None);
      }
      err := SetOtherConfigurations(ko);
    }

    /** setBucketConfigurations, after the encryption has been read. */
    method SetOtherConfigurations(ko: TableBucket) returns (err: Option<Error>)
      modifies sdkapi, ko`spec
      ensures (sdkapi.world, err) == Execute(sdkapi.env, old(sdkapi.world),
                [Send(GetStorageClass), Send(ListTags), Send(GetPolicy), Send(GetMaintenance)])
      ensures sdkapi.world.Now() == old(sdkapi.world.Now())
      ensures err.None? ==>
        ko.spec == WithConfigurations(old(ko.spec), sdkapi.world.Now()).(encryption := old(ko.spec.encryption))
    {
      hide Invoke, Observed;
      ghost var plan := [Send(GetStorageClass), Send(ListTags), Send(GetPolicy), Send(GetMaintenance)];
      assert plan[1..] == [Send(ListTags), Send(GetPolicy), Send(GetMaintenance)];
      ReadKeeps(sdkapi.env, sdkapi.world, GetStorageClass);
      err := sdkapi.Do(GetStorageClass);
      if err.Some? {
        return;
      }
      var storageClass := sdkapi.world.Now().storageClass;
      if storageClass.Some? && storageClass.value != "" {
        ko.spec := ko.spec.(storageClass := Some(StorageClassConfiguration(storageClass)));
      } else {
        ko.spec := ko.spec.(storageClass := None);
      }
      assert plan[1..][1..] == [Send(GetPolicy), Send(GetMaintenance)];
      ReadKeeps(sdkapi.env, sdkapi.world, ListTags);
      err := sdkapi.Do(ListTags);
      if err.Some? {
        return;
      }
      var tags := sdkapi.world.Now().tags;
      if |tags| > 0 {
        ko.spec := ko.spec.(tags := FromAck(tags));
      } else {
        ko.spec := ko.spec.(tags := None);
      }
      err := SetPolicyAndMaintenance(ko);
    }

    /** setBucketConfigurations, its last two reads. */
    method SetPolicyAndMaintenance(ko: TableBucket) returns (err: Option<Error>)
      modifies sdkapi, ko`spec
      ensures (sdkapi.world, err) ==
        Execute(sdkapi.env, old(sdkapi.world), [Send(GetPolicy), Send(GetMaintenance)])
      ensures sdkapi.world.Now() == old(sdkapi.world.Now())
      ensures err.None? ==>
        ko.spec == old(ko.spec).(policy := sdkapi.world.Now().policy,
                                 maintenance := Observed(sdkapi.world.Now().maintenance))
    {
      ghost var plan := [Send(GetPolicy), Send(GetMaintenance)];
      assert plan[1..] == [Send(GetMaintenance)] && plan[1..][1..] == [];
      ReadKeeps(sdkapi.env, sdkapi.world, GetPolicy);
      err := sdkapi.Do(GetPolicy);
      if err.Some? {
        if !IsApiNotFound(err.value) {
          return;
        }
        ko.spec := ko.spec.(policy := None);
      } else {
        ko.spec := ko.spec.(policy := sdkapi.world.Now().policy);
      }
      ReadKeeps(sdkapi.env, sdkapi.world, GetMaintenance);
      err := sdkapi.Do(GetMaintenance);
      if err.Some? {
        return;
      }
      var maintenance := RecognisedMaintenance(sdkapi.world.Now().maintenance);
      ko.spec := ko.spec.(maintenance := maintenance);
    }

    /** sdkFind: GetTableBucket, then everything it does not return. */
    method SdkFind(r: TableBucket) returns (latest: TableBucket?, err: Option<Error>)
      modifies sdkapi
      ensures sdkapi.world == Find(sdkapi.env, cfg, old(sdkapi.world), r.View()).0
      ensures Returns(latest, err, Find(sdkapi.env, cfg, old(sdkapi.world), r.View()).1)
      ensures latest != null ==> fresh(latest)
    {
      if ArnOf(r.status).None? {
        return null, Some(NOT_FOUND);
      }
      err := sdkapi.Do(GetTableBucket);
      if err.Some? {
        if IsApiNotFound(err.value) {
          return null, Some(NOT_FOUND);
        }
        return null, err;
      }
      var resp := sdkapi.world.Now();
      var ko := r.DeepCopy();
      ghost var before := ko.View();
      MergeOutput(ko, resp);
      err := SetBucketConfigurations(ko);
      if err.Some? {
        return null, err;
      }
      ConfigurationReadsKeep(sdkapi.env, Invoke(sdkapi.env, old(sdkapi.world), GetTableBucket).0);
      latest := ko;
    }

    /** The fields GetTableBucket does return. */
    method MergeOutput(ko: TableBucket, resp: Bucket)
      modifies ko
      ensures WithConfigurations(ko.spec, resp) == Observation(cfg, old(ko.View()), resp).spec
      ensures ko.status == Observation(cfg, old(ko.View()), resp).status
    {
      if ko.status.metadata.None? {
        ko.status := ko.status.(metadata := Some(ResourceMetadata(None, None, None, None)));
      }
      ko.status := ko.status.(metadata := Some(ko.status.metadata.value.(arn := Some(resp.arn))));
      ko.status := ko.status.(createdAt := resp.createdAt);
      ko.spec := ko.spec.(name := resp.name);
      if resp.bucketType != "" {
        ko.status := ko.status.(bucketType := Some(resp.bucketType));
      } else {
        ko.status := ko.status.(bucketType := None);
      }
      SetStatusDefaults(ko);
      if resp.id.Some? {
        ko.status := ko.status.(tableBucketID := resp.id);
      }
    }

    // ----- manager.go: tags -----

    method EnsureTags(r: TableBucket)
      modifies r`spec
      ensures r.View() == Desired(cfg, old(r.View()))
    {
      var resourceTags, keyOrder := ConvertToOrderedACKTags(r.spec.tags);
      var merged := new TagStore(Merge(resourceTags.m, cfg.defaultTags));
      var tags := FromACKTags(merged, keyOrder);
      r.spec := r.spec.(tags := tags);
    }

    method FilterSystemTags(r: TableBucket, systemTags: seq<string>)
      modifies r`spec
      ensures r.spec == old(r.spec).(tags := FilteredTags(old(r.spec.tags), systemTags))
    {
      var resourceTags, keyOrder := ConvertToOrderedACKTags(r.spec.tags);
      IgnoreSystemTags(resourceTags, systemTags);
      var tags := FromACKTags(resourceTags, keyOrder);
      r.spec := r.spec.(tags := tags);
    }

    method MirrorAWSTags(a: TableBucket, b: TableBucket?)
      modifies a`spec
      ensures b == null ==> a.spec == old(a.spec)
      ensures b != null ==> a.View() == Mirror(old(a.View()), old(b.View()))
    {
      if b == null {
        return;
      }
      var desiredTags, keyOrder := ConvertToOrderedACKTags(a.spec.tags);
      var latestTags, _ := ConvertToOrderedACKTags(b.spec.tags);
      SyncAWSTags(desiredTags, latestTags);
      var tags := FromACKTags(desiredTags, keyOrder);
      a.spec := a.spec.(tags := tags);
    }

    // ----- manager.go: conditions -----

    method OnError(r: TableBucket, err: Error) returns (r1: TableBucket, e: Error)
      ensures fresh(r1) && r1.View() == Concluded(cfg, r.View(), Some(err))
      ensures Some(e) == Reported(r1.View(), Some(err))
    {
      r1 := r.DeepCopy();
      SetStatusDefaults(r1);
      var conditions;
      conditions, e := C.OnError(r.status.conditions, err);
      r1.status := r1.status.(conditions := conditions);
    }

    method OnSuccess(r: TableBucket) returns (r1: TableBucket)
      ensures fresh(r1) && r1.View() == Concluded(cfg, r.View(), None)
    {
      r1 := r.DeepCopy();
      var updated := C.UpdateConditions(r.status.conditions, None);
      if updated.Some? {
        SetStatusDefaults(r1);
        r1.status := r1.status.(conditions := updated);
      }
    }

    /** ReadOne: the read also writes into the object it is given. */
    method ReadOne(r: TableBucket) returns (res: TableBucket, err: Option<Error>)
      modifies sdkapi, r`spec
      ensures var read := Read(sdkapi.env, cfg, old(sdkapi.world), old(r.View()));
              && sdkapi.world == read.world
              && fresh(res) && res.View() == read.ko && err == Reported(read.ko, read.err)
              && (err.None? <==> read.err.None?)
              && r.View() == if read.err.None? then Mirror(old(r.View()), read.ko) else old(r.View())
    {
      hide Find, C.Concluded, MirroredTags;
      var observed;
      observed, err := SdkFind(r);
      MirrorAWSTags(r, observed);
      if err.Some? {
        var e;
        res, e := OnError(r, err.value);
        return res, Some(e);
      }
      res := OnSuccess(observed);
    }

    /** Update: customUpdateTableBucket, with its outcome in the conditions. */
    method Update(desired: TableBucket, latest: TableBucket, delta: D.Delta)
      returns (res: TableBucket, err: Option<Error>, ghost order: seq<string>)
      modifies sdkapi
      ensures Enumerates(order, Entries(desired.spec.maintenance).Keys)
      ensures var (w, updated) := BucketPass.Update(sdkapi.env, old(sdkapi.world), desired.View(), latest.View(),
                                                    ChangesIn(delta), order);
              && sdkapi.world == w && fresh(res) && (err.None? <==> updated.Ok?)
              && (match updated
                  case Ok(u) => err.None? && res.View() == Concluded(cfg, u, None)
                  case Err(e) =>
                    res.View() == Concluded(cfg, latest.View(), Some(e)) && err == Reported(res.View(), Some(e)))
    {
      hide C.Concluded, ChangesIn, UpdatePlan, Enumerates;
      var updated;
      updated, err, order := CustomUpdateTableBucket(desired, latest, delta);
      if err.Some? {
        var e;
        res, e := OnError(latest, err.value);
        return res, Some(e), order;
      }
      res := OnSuccess(updated);
    }

    // ----- hooks.go: the writes -----

    method SyncEncryption(desired: TableBucket) returns (err: Option<Error>)
      modifies sdkapi
      ensures (sdkapi.world, err) == Execute(sdkapi.env, old(sdkapi.world), EncryptionPlan(desired.spec))
    {
      if desired.spec.encryption.None? {
        return None;
      }
      var declared := desired.spec.encryption.value;
      var config := SdkEncryption(declared.kmsKeyARN, "");
      if declared.sseAlgorithm.Some? {
        config := config.(sseAlgorithm := declared.sseAlgorithm.value);
      }
      err := sdkapi.Do(PutEncryption(config));
    }

    method SyncStorageClass(desired: TableBucket) returns (err: Option<Error>)
      modifies sdkapi
      ensures (sdkapi.world, err) == Execute(sdkapi.env, old(sdkapi.world), StorageClassPlan(desired.spec))
    {
      if desired.spec.storageClass.None? || desired.spec.storageClass.value.storageClass.None? {
        return None;
      }
      err := sdkapi.Do(PutStorageClass(desired.spec.storageClass.value.storageClass.value));
    }

    method SyncPolicy(desired: TableBucket) returns (err: Option<Error>)
      modifies sdkapi
      ensures (sdkapi.world, err) == Execute(sdkapi.env, old(sdkapi.world), PolicyPlan(desired.spec))
    {
      if desired.spec.policy.None? || desired.spec.policy.value == "" {
        err := sdkapi.Do(DeletePolicy);
        return;
      }
      err := sdkapi.Do(PutPolicy(desired.spec.policy.value));
    }

    method SyncTags(desired: TableBucket, latest: TableBucket) returns (err: Option<Error>)
      modifies sdkapi
      ensures (sdkapi.world, err) ==
        Execute(sdkapi.env, old(sdkapi.world), TagPlan(desired.spec.tags, latest.spec.tags))
    {
      hide ToAdd, ToRemove, ToAck, Invoke;
      var from, _ := ConvertToOrderedACKTags(latest.spec.tags);
      var to, _ := ConvertToOrderedACKTags(desired.spec.tags);
      var added, removed := TagCalls(from.m, to.m);
      ghost var plan := TagPlan(desired.spec.tags, latest.spec.tags);
      ghost var second := if added == map[] then [] else [Send(TagResource(added))];
      assert added != map[] ==> second[1..] == [];
      assert removed == {} ==> plan == second;
      if |removed| > 0 {
        assert plan[0] == Send(UntagResource(removed)) && plan[1..] == second;
        err := sdkapi.Do(UntagResource(removed));
        if err.Some? {
          return;
        }
      }
      assert Execute(sdkapi.env, old(sdkapi.world), plan) == Execute(sdkapi.env, sdkapi.world, second);
      if |added| > 0 {
        assert added != map[];
        assert second == [Send(TagResource(added))];
        ghost var w1 := sdkapi.world;
        err := sdkapi.Do(TagResource(added));
        assert Execute(sdkapi.env, sdkapi.world, []) == (sdkapi.world, None);
        assert (sdkapi.world, err) == Execute(sdkapi.env, w1, second);
        return;
      }
      return None;
    }

    /** syncMaintenance: one Put per declared type. The ghost result is the order in which the
        map happened to be visited. */
    method SyncMaintenance(desired: TableBucket) returns (err: Option<Error>, ghost order: seq<string>)
      modifies sdkapi
      ensures Enumerates(order, Entries(desired.spec.maintenance).Keys)
      ensures (sdkapi.world, err) ==
        Execute(sdkapi.env, old(sdkapi.world), MaintenancePlan(Entries(desired.spec.maintenance), order))
    {
      hide Invoke, ToSdk;
      var entries := Entries(desired.spec.maintenance);
      var keys := RangeKeys(entries);
      order := keys;
      for i := 0 to |keys|
        invariant order == keys && Enumerates(keys, entries.Keys)
        invariant (sdkapi.world, None) ==
          Execute(sdkapi.env, old(sdkapi.world), MaintenancePlan(entries, keys[..i]))
      {
        var jobType := keys[i];
        var val := entries[jobType];
        ghost var w := sdkapi.world;
        ghost var item := MaintenanceItem(jobType, val);
        assert keys[..i + 1][..i] == keys[..i];
        ExecuteAppend(sdkapi.env, old(sdkapi.world), MaintenancePlan(entries, keys[..i]), item);
        if val.Some? {
          var put, cerr := SdkMaintenanceValue(val.value);
          if cerr.Some? {
            MaintenanceStops(sdkapi.env, old(sdkapi.world), entries, keys, i + 1);
            return cerr, keys;
          }
          err := sdkapi.Do(PutMaintenance(jobType, put));
          if err.Some? {
            MaintenanceStops(sdkapi.env, old(sdkapi.world), entries, keys, i + 1);
            return;
          }
        }
      }
      assert keys[..|keys|] == keys;
      return None, keys;
    }

    /** The SDK value built for one declared entry, narrowing each day as it goes. */
    method SdkMaintenanceValue(val: MaintenanceValue) returns (put: SdkMaintenance, err: Option<Error>)
      ensures match ToSdk(val)
              case Ok(v) => put == v && err.None?
              case Err(e) => err == Some(e)
    {
      put := SdkMaintenance("", NoSettings);
      if val.status.Some? {
        put := put.(status := val.status.value);
      }
      if val.settings.Some? && val.settings.value.iceberg.Some? {
        var s := val.settings.value.iceberg.value;
        var settings := IcebergMember(None, None);
        if s.nonCurrentDays.Some? {
          var v := DaysToInt32(s.nonCurrentDays.value);
          if v.Err? {
            return put, Some(TerminalError("nonCurrentDays" + ": " + v.error.text));
          }
          settings := settings.(nonCurrentDays := Some(v.value));
        }
        if s.unreferencedDays.Some? {
          var v := DaysToInt32(s.unreferencedDays.value);
          if v.Err? {
            return put, Some(TerminalError("unreferencedDays" + ": " + v.error.text));
          }
          settings := settings.(unreferencedDays := Some(v.value));
        }
        put := put.(settings := settings);
      }
      return put, None;
    }

    /** customUpdateTableBucket: the object it returns is new, and neither `desired` nor
        `latest` is touched. */
    method CustomUpdateTableBucket(desired: TableBucket, latest: TableBucket, delta: D.Delta)
      returns (updated: TableBucket?, err: Option<Error>, ghost order: seq<string>)
      modifies sdkapi
      ensures Enumerates(order, Entries(desired.spec.maintenance).Keys)
      ensures sdkapi.world ==
        BucketPass.Update(sdkapi.env, old(sdkapi.world), desired.View(), latest.View(), ChangesIn(delta), order).0
      ensures Returns(updated, err,
        BucketPass.Update(sdkapi.env, old(sdkapi.world), desired.View(), latest.View(), ChangesIn(delta), order).1)
      ensures updated != null ==> fresh(updated)
    {
      var ko := desired.DeepCopy();
      ko.status := latest.status;
      if ArnOf(ko.status).None? {
        order := SomeOrder(Entries(desired.spec.maintenance).Keys);
        return ko, None, order;
      }
      err, order := SyncChanges(desired, latest, delta);
      if err.Some? {
        return null, err, order;
      }
      updated := ko;
    }

    /** The five guarded stages of customUpdateTableBucket, each ending it on an error. */
    method SyncChanges(desired: TableBucket, latest: TableBucket, delta: D.Delta)
      returns (err: Option<Error>, ghost order: seq<string>)
      modifies sdkapi
      ensures Enumerates(order, Entries(desired.spec.maintenance).Keys)
      ensures (sdkapi.world, err) ==
        Execute(sdkapi.env, old(sdkapi.world), UpdatePlan(desired.spec, latest.spec, ChangesIn(delta), order))
    {
      ghost var env, w0, d, l, changes := sdkapi.env, sdkapi.world, desired.spec, latest.spec, ChangesIn(delta);
      order := SomeOrder(Entries(d.maintenance).Keys);
      hide Execute, Done, MaintenancePlan, UpdatePlan, D.DifferentAt;
      err := SyncConfigurations(desired, latest, delta);
      StagesStop(env, w0, d, l, changes, 2);
      if err.None? {
        err := SyncTagsAndPolicy(desired, latest, delta, w0);
      }
      AllDone(env, w0, d, l, changes, order);
      if err.Some? {
        return;
      }
      if D.DifferentAt(delta, MAINTENANCE_PATH) {
        err, order := SyncMaintenance(desired);
      }
      AllDone(env, w0, d, l, changes, order);
    }

    /** The first two stages. */
    method SyncConfigurations(desired: TableBucket, latest: TableBucket, delta: D.Delta) returns (err: Option<Error>)
      modifies sdkapi
      ensures (sdkapi.world, err) ==
        Execute(sdkapi.env, old(sdkapi.world), Done(desired.spec, latest.spec, ChangesIn(delta), 2))
    {
      ghost var env, w0, d, l, changes := sdkapi.env, sdkapi.world, desired.spec, latest.spec, ChangesIn(delta);
      hide Execute, Done, EncryptionPlan, StorageClassPlan, TagPlan, PolicyPlan, D.DifferentAt;
      err := None;
      NothingDone(env, w0, d, l, changes);
      StageDone(env, w0, d, l, changes, 1);
      if D.DifferentAt(delta, ENCRYPTION_PATH) {
        err := SyncEncryption(desired);
      }
      StageDone(env, w0, d, l, changes, 2);
      if err.Some? {
        return;
      }
      if D.DifferentAt(delta, STORAGE_CLASS_PATH) {
        err := SyncStorageClass(desired);
      }
    }

    /** The next two, after the first two have run from `w0`. */
    method SyncTagsAndPolicy(desired: TableBucket, latest: TableBucket, delta: D.Delta, ghost w0: World)
      returns (err: Option<Error>)
      requires (sdkapi.world, None) == Execute(sdkapi.env, w0, Done(desired.spec, latest.spec, ChangesIn(delta), 2))
      modifies sdkapi
      ensures (sdkapi.world, err) == Execute(sdkapi.env, w0, Done(desired.spec, latest.spec, ChangesIn(delta), 4))
    {
      ghost var env, d, l, changes := sdkapi.env, desired.spec, latest.spec, ChangesIn(delta);
      hide Execute, Done, EncryptionPlan, StorageClassPlan, TagPlan, PolicyPlan, D.DifferentAt;
      err := None;
      StageDone(env, w0, d, l, changes, 3);
      if D.DifferentAt(delta, TAGS_PATH) {
        err := SyncTags(desired, latest);
      }
      StageDone(env, w0, d, l, changes, 4);
      if err.Some? {
        return;
      }
      if D.DifferentAt(delta, POLICY_PATH) {
        err := SyncPolicy(desired);
      }
    }

    // ----- manager.go: late initialisation -----

    /** lateInitializeFromReadOneOutput: fills unset fields of a copy from a copy. */
    method LateInitializeFromReadOneOutput(observed: TableBucket, latest: TableBucket) returns (r: TableBucket)
      ensures fresh(r)
      ensures r.View() == Ko(LateInitialized(observed.spec, latest.spec), latest.status)
    {
      var observedKo := observed.DeepCopy();
      var latestKo := latest.DeepCopy();
      if observedKo.spec.encryption.Some? && latestKo.spec.encryption.None? {
        latestKo.spec := latestKo.spec.(encryption := observedKo.spec.encryption);
      }
      if observedKo.spec.maintenance.Some? && latestKo.spec.maintenance.None? {
        latestKo.spec := latestKo.spec.(maintenance := observedKo.spec.maintenance);
      }
      if observedKo.spec.storageClass.Some? && latestKo.spec.storageClass.None? {
        latestKo.spec := latestKo.spec.(storageClass := observedKo.spec.storageClass);
      }
      r := latestKo;
    }

    /** LateInitialize: reads again and fills unset fields of a copy, and says in the copy's
        conditions how that went. */
    method LateInitialize(latest: TableBucket) returns (r: TableBucket, err: Option<Error>)
      modifies sdkapi
      ensures var again := Read(sdkapi.env, cfg, old(sdkapi.world), latest.View());
              && sdkapi.world == again.world && fresh(r)
              && err == Reported(again.ko, again.err) && (err.None? <==> again.err.None?)
              && (if again.err.Some? then r.View() == Ko(latest.spec, LateInitFailed(latest.status))
                  else r.View() == Ko(LateInitialized(again.ko.spec, Mirror(latest.View(), again.ko).spec),
                                      LateInitDone(latest.status)))
    {
      hide Read, C.Set, MirroredTags;
      var latestCopy := latest.DeepCopy();
      var observed;
      observed, err := ReadOne(latestCopy);
      if err.Some? {
        SetLateInitialized(latestCopy, StatusFalse, READ_FAILED);
        var conditions := C.SetCondition(latestCopy.status.conditions.GetOr([]), CondSynced, StatusFalse, None);
        latestCopy.status := latestCopy.status.(conditions := Some(conditions));
        return latestCopy, err;
      }
      r := LateInitializeFromReadOneOutput(observed, latestCopy);
      SetLateInitialized(r, StatusTrue, LATE_INITIALIZED);
    }

    method SetLateInitialized(r: TableBucket, status: ConditionStatus, message: string)
      modifies r`status
      ensures r.status == old(r.status).(conditions :=
        Some(C.Set(old(r.status.conditions).GetOr([]), CondLateInitialized, status, Some(message))))
    {
      var conditions := C.SetCondition(r.status.conditions.GetOr([]), CondLateInitialized, status, Some(message));
      r.status := r.status.(conditions := Some(conditions));
    }

    /** One pass over the stored object, in the order in which the runtime drives the methods
        above. Late-initialised fields are stored after an update; tags never are. */
    method Reconcile(stored: TableBucket) returns (next: TableBucket, err: Option<Error>, ghost order: seq<string>)
      modifies sdkapi
      ensures Enumerates(order, Entries(stored.spec.maintenance).Keys)
      ensures var pass := Pass(sdkapi.env, cfg, old(sdkapi.world), stored.View(), order);
              sdkapi.world == pass.world && next.View() == pass.stored && err == pass.reported
      ensures fresh(next)
    {
      hide Read, Compared, ChangesIn, UpdatePlan, Execute, EnsuredTags, MirroredTags, Covered, Enumerates,
        MaintenancePlan, Invoke, C.Concluded, LateInitFailed, LateInitDone, Reported;
      order := SomeOrder(Entries(stored.spec.maintenance).Keys);
      var desired := stored.DeepCopy();
      next := stored.DeepCopy();
      EnsureTags(desired);
      var latest;
      latest, err := ReadOne(desired);
      if err.Some? {
        next.status := latest.status;
        return;
      }
      var delta := NewResourceDelta(cfg, desired.spec, latest.spec);
      var result := latest;
      if delta != [] {
        result, err, order := Update(desired, latest, delta);
        if err.Some? {
          next.status := result.status;
          return;
        }
      }
      ghost var finished := Finish(sdkapi.env, cfg, sdkapi.world, stored.View(), result.View(), delta != []);
      var initialized;
      initialized, err := LateInitialize(result);
      next.status := initialized.status;
      if err.None? && delta != [] {
        next.spec := next.spec.(encryption := initialized.spec.encryption,
                                maintenance := initialized.spec.maintenance,
                                storageClass := initialized.spec.storageClass);
      }
      assert finished.reported == err;
    }
  }

  // ----- How far an update has come -----

  /** The k-th stage of customUpdateTableBucket, up to the maintenance stage. */
  ghost function Stage(d: TableBucketSpec, l: TableBucketSpec, changes: Changes, k: nat): seq<Item> {
    match k
    case 1 => if changes.encryption then EncryptionPlan(d) else []
    case 2 => if changes.storageClass then StorageClassPlan(d) else []
    case 3 => if changes.tags then TagPlan(d.tags, l.tags) else []
    case 4 => if changes.policy then PolicyPlan(d) else []
    case _ => []
  }

  ghost function Done(d: TableBucketSpec, l: TableBucketSpec, changes: Changes, k: nat): seq<Item> {
    if k == 0 then [] else Done(d, l, changes, k - 1) + Stage(d, l, changes, k)
  }

  lemma NothingDone(env: Env, w: World, d: TableBucketSpec, l: TableBucketSpec, changes: Changes)
    ensures Execute(env, w, Done(d, l, changes, 0)) == (w, None)
    ensures Execute(env, w, []) == (w, None)
  {
  }

  /** A stage runs where the ones before it succeeded, and not at all where one failed. */
  lemma StageDone(env: Env, w: World, d: TableBucketSpec, l: TableBucketSpec, changes: Changes, k: nat)
    requires 1 <= k <= 4
    ensures var (w1, err) := Execute(env, w, Done(d, l, changes, k - 1));
            Execute(env, w, Done(d, l, changes, k)) ==
            if err.Some? then (w1, err) else Execute(env, w1, Stage(d, l, changes, k))
    ensures forall w1 :: Execute(env, w1, []) == (w1, None)
  {
    ExecuteAppend(env, w, Done(d, l, changes, k - 1), Stage(d, l, changes, k));
  }

  lemma StagesStop(env: Env, w: World, d: TableBucketSpec, l: TableBucketSpec, changes: Changes, k: nat)
    requires k == 2
    ensures Execute(env, w, Done(d, l, changes, k)).1.Some? ==>
            Execute(env, w, Done(d, l, changes, 4)) == Execute(env, w, Done(d, l, changes, k))
  {
    hide Execute, Stage, Done;
    StageDone(env, w, d, l, changes, 3);
    StageDone(env, w, d, l, changes, 4);
  }

  lemma AllDone(env: Env, w: World, d: TableBucketSpec, l: TableBucketSpec, changes: Changes, order: seq<string>)
    requires forall t :: t in order ==> t in Entries(d.maintenance)
    ensures var (w1, err) := Execute(env, w, Done(d, l, changes, 4));
            Execute(env, w, UpdatePlan(d, l, changes, order)) ==
            if err.Some? then (w1, err)
            else Execute(env, w1, if changes.maintenance then MaintenancePlan(Entries(d.maintenance), order) else [])
    ensures forall w1 :: Execute(env, w1, []) == (w1, None)
  {
    DoneIsPrefix(d, l, changes, order);
    ExecuteAppend(env, w, Done(d, l, changes, 4),
                  if changes.maintenance then MaintenancePlan(Entries(d.maintenance), order) else []);
  }

  lemma DoneIsPrefix(d: TableBucketSpec, l: TableBucketSpec, changes: Changes, order: seq<string>)
    requires forall t :: t in order ==> t in Entries(d.maintenance)
    ensures UpdatePlan(d, l, changes, order) ==
      Done(d, l, changes, 4) + if changes.maintenance then MaintenancePlan(Entries(d.maintenance), order) else []
  {
    var s1, s2 := Stage(d, l, changes, 1), Stage(d, l, changes, 2);
    var s3, s4 := Stage(d, l, changes, 3), Stage(d, l, changes, 4);
    var s5 := if changes.maintenance then MaintenancePlan(Entries(d.maintenance), order) else [];
    assert UpdatePlan(d, l, changes, order) == s1 + (s2 + (s3 + (s4 + s5)));
    FourStages(d, l, changes);
    Regroup(s1, s2, s3, s4, s5);
    hide *;
  }

  lemma FourStages(d: TableBucketSpec, l: TableBucketSpec, changes: Changes)
    ensures Done(d, l, changes, 4) == Stage(d, l, changes, 1) + Stage(d, l, changes, 2) + Stage(d, l, changes, 3)
                                      + Stage(d, l, changes, 4)
  {
    hide Stage;
    assert Done(d, l, changes, 1) == [] + Stage(d, l, changes, 1) == Stage(d, l, changes, 1);
    assert Done(d, l, changes, 2) == Done(d, l, changes, 1) + Stage(d, l, changes, 2);
    assert Done(d, l, changes, 3) == Done(d, l, changes, 2) + Stage(d, l, changes, 3);
  }

  lemma Regroup<T>(a: seq<T>, b: seq<T>, c: seq<T>, d: seq<T>, e: seq<T>)
    ensures a + (b + (c + (d + e))) == a + b + c + d + e
  {
  }

  ghost function SomeOrder(keys: set<string>): (order: seq<string>)
    ensures Enumerates(order, keys)
  {
    if keys == {} then [] else
    var k :| k in keys;
    SomeOrder(keys - {k}) + [k]
  }

  lemma {:induction false} MaintenanceStops(
    env: Env, w: World, d: map<string, Option<MaintenanceValue>>, order: seq<string>, n: nat)
    requires n <= |order|
    requires forall t :: t in order ==> t in d
    requires Execute(env, w, MaintenancePlan(d, order[..n])).1.Some?
    ensures Execute(env, w, MaintenancePlan(d, order)) == Execute(env, w, MaintenancePlan(d, order[..n]))
  {
    if n == |order| {
      assert order[..n] == order;
    } else {
      var init := order[..|order| - 1];
      assert init[..n] == order[..n];
      MaintenanceStops(env, w, d, init, n);
      ExecuteAppend(env, w, MaintenancePlan(d, init), MaintenanceItem(order[|order| - 1], d[order[|order| - 1]]));
    }
  }

  lemma ConfigurationReadsKeep(env: Env, w: World)
    ensures Execute(env, w, CONFIGURATION_READS).0.Now() == w.Now()
  {
  }

  lemma ReadKeeps(env: Env, w: World, call: Call)
    requires !IsWrite(call)
    ensures Invoke(env, w, call).0.Now() == w.Now()
  {
  }
}
