/** Creating a table bucket (pkg/resource/table_bucket/sdk.go), the first pass after it, and
    late initialisation on its own. */
module BucketCreate {
  import opened Types
  import opened Tags
  import opened Maintenance
  import opened BucketService
  import opened BucketPass
  import opened BucketConvergence
  import opened BucketRuns
  import M = BucketManager
  import C = Conditions

  datatype CreateInput = CreateInput(
    encryption: Option<SdkEncryption>, name: Option<string>, storageClass: Option<string>, tags: Option<AckTags>)

  /** newCreateRequestPayload */
  function CreateRequest(d: TableBucketSpec): CreateInput {
    CreateInput(
      if d.encryption.Some? then Some(EncryptionRequest(d.encryption.value)) else None,
      d.name,
      if d.storageClass.Some? then Some(d.storageClass.value.storageClass.GetOr("")) else None,
      if d.tags.Some? then Some(ToAck(d.tags)) else None)
  }

  /** The service applies the payload, uses its own choice (`fallback`) for what the payload
      leaves out, adds no tags and sets no policy. */
  function NewBucket(input: CreateInput, fallback: Bucket): Bucket {
    fallback.(
      name := input.name,
      encryption := if input.encryption.Some? then input.encryption else fallback.encryption,
      storageClass := if input.storageClass.Some? && input.storageClass.value != "" then input.storageClass
                      else fallback.storageClass,
      tags := input.tags.GetOr(map[]),
      policy := None)
  }

  const PENDING_MESSAGE := "sub-resource update pending; resource will be requeued"

  /** The object sdkCreate returns. */
  function CreatedObject(cfg: Config, d: Ko, arn: string): Ko {
    var md := d.status.metadata.GetOr(ResourceMetadata(None, None, None, None)).(arn := Some(arn));
    var status := WithDefaults(cfg, d.status.(metadata := Some(md)));
    Ko(d.spec,
       if d.spec.policy.Some? || d.spec.maintenance.Some?
       then status.(conditions := Some(C.Set(status.conditions.value, CondSynced, StatusFalse, Some(PENDING_MESSAGE))))
       else status)
  }

  /** The payload of a create, field by field. */
  lemma CreateRequestIs(d: TableBucketSpec)
    ensures var input := CreateRequest(d);
            && input.name == d.name
            && (input.encryption.Some? <==> d.encryption.Some?)
            && (d.encryption.Some? ==>
                  && input.encryption.value.kmsKeyArn == d.encryption.value.kmsKeyARN
                  && input.encryption.value.sseAlgorithm ==
                     (if d.encryption.value.sseAlgorithm.Some? then d.encryption.value.sseAlgorithm.value else ""))
            && (input.storageClass.Some? <==> d.storageClass.Some?)
            && (d.storageClass.Some? ==>
                  input.storageClass.value ==
                  if d.storageClass.value.storageClass.Some? then d.storageClass.value.storageClass.value else "")
            && (input.tags.Some? <==> d.tags.Some?)
            && (d.tags.Some? ==>
                  && input.tags.value.Keys == d.tags.value.Keys
                  && forall k :: k in d.tags.value ==>
                       input.tags.value[k] == if d.tags.value[k].Some? then d.tags.value[k].value else "")
  {
  }

  /** A created object keeps its spec and records the ARN. A declared policy or maintenance, and
      nothing else, puts a False Synced condition with the requeue message, in place of the first
      Synced condition if there is one. */
  lemma CreatedObjectIs(cfg: Config, d: Ko, arn: string)
    ensures var o := CreatedObject(cfg, d, arn);
            var was := if d.status.conditions.Some? then d.status.conditions.value else [];
            && o.spec == d.spec
            && o.status.metadata.Some? && o.status.metadata.value.arn == Some(arn)
            && o.status.conditions.Some?
            && (if d.spec.policy.Some? || d.spec.maintenance.Some? then
                  C.PutsFirst(was, o.status.conditions.value, Condition(CondSynced, StatusFalse,
                    Some("sub-resource update pending; resource will be requeued")))
                else o.status.conditions.value == was)
            && o.status.(metadata := d.status.metadata, conditions := d.status.conditions) == d.status
  {
    var md := d.status.metadata.GetOr(ResourceMetadata(None, None, None, None)).(arn := Some(arn));
    var status := WithDefaults(cfg, d.status.(metadata := Some(md)));
    C.SetPuts(status.conditions.value, CondSynced, StatusFalse, Some(PENDING_MESSAGE));
  }

  /** sdkCreate against a service that answers the create call with `reply` and, when it
      succeeds, starts from the new bucket. */
  method SdkCreate(rm: M.ResourceManager, desired: M.TableBucket, fallback: Bucket, reply: Option<Error>)
    returns (created: M.TableBucket?, err: Option<Error>)
    modifies rm.sdkapi
    ensures err == reply && (created == null <==> reply.Some?)
    ensures reply.Some? ==> rm.sdkapi.world == old(rm.sdkapi.world)
    ensures reply.None? ==>
      && fresh(created)
      && rm.sdkapi.world == World(NewBucket(CreateRequest(desired.spec), fallback), [])
      && created.View() == CreatedObject(rm.cfg, desired.View(), fallback.arn)
  {
    var input := CreateRequest(desired.spec);
    if reply.Some? {
      return null, reply;
    }
    rm.sdkapi.world := World(NewBucket(input, fallback), []);
    var ko := desired.DeepCopy();
    if ko.status.metadata.None? {
      ko.status := ko.status.(metadata := Some(ResourceMetadata(None, None, None, None)));
    }
    ko.status := ko.status.(metadata := Some(ko.status.metadata.value.(arn := Some(rm.sdkapi.world.start.arn))));
    rm.SetStatusDefaults(ko);
    if desired.spec.policy.Some? || desired.spec.maintenance.Some? {
      var conditions := C.SetCondition(ko.status.conditions.value, CondSynced, StatusFalse, Some(PENDING_MESSAGE));
      ko.status := ko.status.(conditions := Some(conditions));
    }
    return ko, None;
  }

  // ----- The first pass after a create -----

  /** Nothing is left to write after a create exactly when the declared encryption and storage
      class can be echoed, no policy is declared, and the service's own maintenance
      configuration covers the declared one. */
  lemma CreateSettlesIff(cfg: Config, ko: Ko, fallback: Bucket)
    ensures Settled(cfg, ko.spec, NewBucket(CreateRequest(Desired(cfg, ko).spec), fallback)) <==>
            && Echoable(cfg, Encryption, ko.spec)
            && Echoable(cfg, StorageClass, ko.spec)
            && ko.spec.policy.None?
            && Covered(ko.spec.maintenance, Observed(fallback.maintenance))
  {
    var b := NewBucket(CreateRequest(Desired(cfg, ko).spec), fallback);
    var target := Merge(ToAck(ko.spec.tags), cfg.defaultTags);
    FromAckToAck(target);
    assert b.tags == target;
    assert Pending(target, target) == {};
    assert Pend(cfg, TagSet, ko.spec, b) == 0;
    hide Covered, Pending;
    assert Pend(cfg, Encryption, ko.spec, b) == 0 <==> Echoable(cfg, Encryption, ko.spec);
    assert Pend(cfg, StorageClass, ko.spec, b) == 0 <==> Echoable(cfg, StorageClass, ko.spec);
    assert Pend(cfg, Policy, ko.spec, b) == 0 <==> ko.spec.policy.None?;
    assert Pend(cfg, MaintenanceConfig, ko.spec, b) == 0 <==>
      Covered(ko.spec.maintenance, Observed(fallback.maintenance));
  }

  /** When sdkCreate does not ask for a requeue, the first pass issues no write, whatever fails
      during it; when a policy is declared, a first pass that succeeds does issue one. */
  lemma FirstPassAfterCreate(env: Env, cfg: Config, ko: Ko, fallback: Bucket, order: seq<string>)
    requires Enumerates(order, Entries(ko.spec.maintenance).Keys)
    requires Echoable(cfg, Encryption, ko.spec) && Echoable(cfg, StorageClass, ko.spec)
    requires Echoable(cfg, Policy, ko.spec) && Echoable(cfg, MaintenanceConfig, ko.spec)
    ensures var w := World(NewBucket(CreateRequest(Desired(cfg, ko).spec), fallback), []);
            var r := Pass(env, cfg, w, Ko(ko.spec, CreatedObject(cfg, ko, fallback.arn).status), order);
            && (ko.spec.policy.None? && ko.spec.maintenance.None? ==> NoWrites(r.world, 0))
            && (ko.spec.policy.Some? && r.err.None? ==> !NoWrites(r.world, 0))
  {
    var w := World(NewBucket(CreateRequest(Desired(cfg, ko).spec), fallback), []);
    var first := Ko(ko.spec, CreatedObject(cfg, ko, fallback.arn).status);
    CreateSettlesIff(cfg, ko, fallback);
    UnsetIsNotPending(cfg, ko.spec, w.start);
    hide Pass, Pend;
    assert Fine(cfg, ko.spec, w.Now()) by {
      AllSettings();
      assert Echoable(cfg, TagSet, ko.spec);
      forall s: Setting
        ensures Echoable(cfg, s, ko.spec)
      {
        match s {
          case Encryption => case StorageClass => case TagSet => case Policy => case MaintenanceConfig =>
        }
      }
    }
    PassIsSound(env, cfg, w, first, order);
  }

  // ----- Late initialisation -----

  /** Late initialisation keeps every set field, fills the others from the observation, does so
      once and for all, and leaves the filled fields without a difference. */
  lemma LateInitialisation(cfg: Config, observed: TableBucketSpec, latest: TableBucketSpec)
    ensures var r := LateInitialized(observed, latest);
            && (latest.encryption.Some? ==> r.encryption == latest.encryption)
            && (latest.storageClass.Some? ==> r.storageClass == latest.storageClass)
            && (latest.maintenance.Some? ==> r.maintenance == latest.maintenance)
            && r.(encryption := latest.encryption, storageClass := latest.storageClass,
                  maintenance := latest.maintenance) == latest
            && LateInitialized(observed, r) == r
            && (latest.encryption.None? ==> !Compared(cfg, r, observed).encryption)
            && (latest.storageClass.None? ==> !Compared(cfg, r, observed).storageClass)
            && (latest.maintenance.None? ==> !Compared(cfg, r, observed).maintenance)
  {
  }
}
