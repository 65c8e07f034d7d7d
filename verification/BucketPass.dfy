/** The specification of a TableBucket reconcile pass: what each function of
    pkg/resource/table_bucket computes, on values, and the calls it makes. Module
    BucketManager proves the code against these functions. */
module BucketPass {
  import opened Types
  import opened Tags
  import opened Maintenance
  import opened BucketService
  import C = Conditions
  import D = Delta

  /** The object a resource wraps (`resource.ko`), as a value. */
  datatype Ko = Ko(spec: TableBucketSpec, status: TableBucketStatus)

  /** What a resource manager is built with, plus `parse`, which assigns equivalent policy
      documents the same number and rejects unparseable ones. */
  datatype Config = Config(
    region: string, partition: string, account: string, defaultTags: AckTags, parse: string -> Option<nat>)

  function ArnOf(status: TableBucketStatus): Option<string> {
    if status.metadata.Some? then status.metadata.value.arn else None
  }

  // ----- Reading -----

  function ObservedEncryption(e: Option<SdkEncryption>): Option<EncryptionConfiguration> {
    if e.None? then None
    else Some(EncryptionConfiguration(
      e.value.kmsKeyArn, None, if e.value.sseAlgorithm != "" then Some(e.value.sseAlgorithm) else None))
  }

  function ObservedStorageClass(s: Option<string>): Option<StorageClassConfiguration> {
    if s.Some? && s.value != "" then Some(StorageClassConfiguration(s)) else None
  }

  const CONFIGURATION_READS: seq<Item> :=
    [Send(GetEncryption), Send(GetStorageClass), Send(ListTags), Send(GetPolicy), Send(GetMaintenance)]

  /** setBucketConfigurations: five settings, five APIs. */
  function WithConfigurations(spec: TableBucketSpec, b: Bucket): TableBucketSpec {
    spec.(encryption := ObservedEncryption(b.encryption),
          storageClass := ObservedStorageClass(b.storageClass),
          tags := FromService(b.tags),
          policy := b.policy,
          maintenance := Observed(b.maintenance))
  }

  function WithDefaults(cfg: Config, status: TableBucketStatus): TableBucketStatus {
    var md := status.metadata.GetOr(ResourceMetadata(None, None, None, None));
    status.(
      metadata := Some(ResourceMetadata(
        md.arn,
        Some(md.ownerAccountID.GetOr(cfg.account)),
        Some(md.partition.GetOr(cfg.partition)),
        Some(md.region.GetOr(cfg.region)))),
      conditions := Some(status.conditions.GetOr([])))
  }

  /** What sdkFind returns when every read succeeds. */
  function Observation(cfg: Config, ko: Ko, b: Bucket): Ko {
    var md := ko.status.metadata.GetOr(ResourceMetadata(None, None, None, None)).(arn := Some(b.arn));
    var status := WithDefaults(cfg, ko.status.(
      metadata := Some(md), createdAt := b.createdAt,
      bucketType := if b.bucketType != "" then Some(b.bucketType) else None));
    Ko(WithConfigurations(ko.spec.(name := b.name), b),
       status.(tableBucketID := if b.id.Some? then b.id else status.tableBucketID))
  }

  function Find(env: Env, cfg: Config, w: World, ko: Ko): (World, Result<Ko>) {
    if ArnOf(ko.status).None? then (w, Err(NOT_FOUND))
    else
      var (w1, err) := Invoke(env, w, GetTableBucket);
      if err.Some? then (w1, Err(if IsApiNotFound(err.value) then NOT_FOUND else err.value))
      else
        var (w2, err2) := Execute(env, w1, CONFIGURATION_READS);
        (w2, if err2.Some? then Err(err2.value) else Ok(Observation(cfg, ko, w2.Now())))
  }

  // ----- Comparing -----

  /** `IAMPolicyDocumentEqual` without error: both parse, and to equivalent documents. */
  predicate SamePolicy(parse: string -> Option<nat>, a: string, b: string) {
    parse(a).Some? && parse(a) == parse(b)
  }

  predicate PolicyDiffers(parse: string -> Option<nat>, a: Option<string>, b: Option<string>) {
    a.Some? != b.Some? || (a.Some? && !SamePolicy(parse, a.value, b.value))
  }

  /** The top-level paths at which a delta can differ. */
  datatype Changes = Changes(encryption: bool, name: bool, policy: bool, storageClass: bool, tags: bool,
                             maintenance: bool) {
    predicate Any() {
      encryption || name || policy || storageClass || tags || maintenance
    }
  }

  ghost function Compared(cfg: Config, a: TableBucketSpec, b: TableBucketSpec): Changes {
    Changes(
      D.EncryptionDiffers(a.encryption, b.encryption),
      a.name != b.name,
      PolicyDiffers(cfg.parse, a.policy, b.policy),
      a.storageClass != b.storageClass,
      ToAck(a.tags) != ToAck(b.tags),
      !Covered(a.maintenance, b.maintenance))
  }

  // ----- Writing -----

  function EncryptionRequest(e: EncryptionConfiguration): SdkEncryption {
    SdkEncryption(e.kmsKeyARN, e.sseAlgorithm.GetOr(""))
  }

  function EncryptionPlan(d: TableBucketSpec): seq<Item> {
    if d.encryption.None? then [] else [Send(PutEncryption(EncryptionRequest(d.encryption.value)))]
  }

  function StorageClassPlan(d: TableBucketSpec): seq<Item> {
    if d.storageClass.None? || d.storageClass.value.storageClass.None? then []
    else [Send(PutStorageClass(d.storageClass.value.storageClass.value))]
  }

  function TagPlan(d: TagMap, l: TagMap): seq<Item> {
    var from, to := ToAck(l), ToAck(d);
    (if ToRemove(from, to) == {} then [] else [Send(UntagResource(ToRemove(from, to)))]) +
    (if ToAdd(from, to) == map[] then [] else [Send(TagResource(ToAdd(from, to)))])
  }

  function PolicyPlan(d: TableBucketSpec): seq<Item> {
    if d.policy.None? || d.policy.value == "" then [Send(DeletePolicy)] else [Send(PutPolicy(d.policy.value))]
  }

  function MaintenanceItem(jobType: string, value: Option<MaintenanceValue>): seq<Item> {
    if value.None? then []
    else match ToSdk(value.value)
      case Ok(put) => [Send(PutMaintenance(jobType, put))]
      case Err(e) => [GiveUp(e)]
  }

  /** One Put per declared type, in the order the map is visited. */
  function MaintenancePlan(d: map<string, Option<MaintenanceValue>>, order: seq<string>): seq<Item>
    requires forall t :: t in order ==> t in d
  {
    if order == [] then [] else
    MaintenancePlan(d, order[..|order| - 1]) + MaintenanceItem(order[|order| - 1], d[order[|order| - 1]])
  }

  /** What customUpdateTableBucket does, in order. */
  function UpdatePlan(d: TableBucketSpec, l: TableBucketSpec, changes: Changes, order: seq<string>): seq<Item>
    requires forall t :: t in order ==> t in Entries(d.maintenance)
  {
    (if changes.encryption then EncryptionPlan(d) else []) + (
    (if changes.storageClass then StorageClassPlan(d) else []) + (
    (if changes.tags then TagPlan(d.tags, l.tags) else []) + (
    (if changes.policy then PolicyPlan(d) else []) +
    (if changes.maintenance then MaintenancePlan(Entries(d.maintenance), order) else []))))
  }

  function Update(env: Env, w: World, d: Ko, l: Ko, changes: Changes, order: seq<string>): (World, Result<Ko>)
    requires forall t :: t in order ==> t in Entries(d.spec.maintenance)
  {
    if ArnOf(l.status).None? then (w, Ok(Ko(d.spec, l.status)))
    else
      var (w1, err) := Execute(env, w, UpdatePlan(d.spec, l.spec, changes, order));
      (w1, if err.Some? then Err(err.value) else Ok(Ko(d.spec, l.status)))
  }

  // ----- Late initialisation -----

  function Adopt<T>(mine: Option<T>, observed: Option<T>): Option<T> {
    if mine.Some? then mine else observed
  }

  function LateInitialized(observed: TableBucketSpec, latest: TableBucketSpec): TableBucketSpec {
    latest.(encryption := Adopt(latest.encryption, observed.encryption),
            maintenance := Adopt(latest.maintenance, observed.maintenance),
            storageClass := Adopt(latest.storageClass, observed.storageClass))
  }

  // ----- The pass -----

  function Desired(cfg: Config, ko: Ko): Ko {
    Ko(ko.spec.(tags := EnsuredTags(ko.spec.tags, cfg.defaultTags)), ko.status)
  }

  /** ReadOne also mirrors the AWS tags it reads into the object it was asked about. */
  function Mirror(d: Ko, observed: Ko): Ko {
    Ko(d.spec.(tags := MirroredTags(d.spec.tags, observed.spec.tags)), d.status)
  }

  /** What onSuccess and onError return: the object with its conditions updated and its status
      defaults set, or as it was if there is nothing to say; and the error,
      replaced by the Terminal error if a Terminal condition is True by then. */
  function Concluded(cfg: Config, ko: Ko, outcome: Option<Error>): Ko {
    var status := if C.Updates(ko.status.conditions, outcome) then WithDefaults(cfg, ko.status) else ko.status;
    Ko(ko.spec, status.(conditions := C.Concluded(ko.status.conditions, outcome)))
  }

  ghost function Reported(concluded: Ko, err: Option<Error>): Option<Error> {
    if err.Some? && C.IsRaised(concluded.status.conditions.GetOr([]), CondTerminal) then Some(TERMINAL) else err
  }

  /** ReadOne: the object it returns, and the error of the read before it is replaced. */
  datatype ReadResult = ReadResult(world: World, ko: Ko, err: Option<Error>)

  function Read(env: Env, cfg: Config, w: World, ko: Ko): ReadResult {
    var (w1, found) := Find(env, cfg, w, ko);
    match found
    case Ok(observed) => ReadResult(w1, Concluded(cfg, observed, None), None)
    case Err(e) => ReadResult(w1, Concluded(cfg, ko, Some(e)), Some(e))
  }

  const READ_FAILED := "Unable to complete Read operation required for late initialization"
  const LATE_INITIALIZED := "Late initialization successful"

  function LateInitFailed(status: TableBucketStatus): TableBucketStatus {
    status.(conditions := Some(C.Set(
      C.Set(status.conditions.GetOr([]), CondLateInitialized, StatusFalse, Some(READ_FAILED)),
      CondSynced, StatusFalse, None)))
  }

  function LateInitDone(status: TableBucketStatus): TableBucketStatus {
    status.(conditions := Some(
      C.Set(status.conditions.GetOr([]), CondLateInitialized, StatusTrue, Some(LATE_INITIALIZED))))
  }

  /** `stored` is the object the next pass starts from: late-initialised fields reach the
      stored spec only through an update, and controller tags never do. `err` is what went wrong,
      `reported` what the runtime is told. */
  datatype PassResult = PassResult(world: World, stored: Ko, err: Option<Error>, reported: Option<Error>)

  ghost function Pass(env: Env, cfg: Config, w: World, ko: Ko, order: seq<string>): PassResult
    requires Enumerates(order, Entries(ko.spec.maintenance).Keys)
  {
    var read := Read(env, cfg, w, Desired(cfg, ko));
    if read.err.Some? then PassResult(read.world, Ko(ko.spec, read.ko.status), read.err, Reported(read.ko, read.err))
    else
      var d := Mirror(Desired(cfg, ko), read.ko);
      var changes := Compared(cfg, d.spec, read.ko.spec);
      if changes.Any() then
        var (w2, updated) := Update(env, read.world, d, read.ko, changes, order);
        match updated
        case Ok(u) => Finish(env, cfg, w2, ko, Concluded(cfg, u, None), true)
        case Err(e) =>
          var failed := Concluded(cfg, read.ko, Some(e));
          PassResult(w2, Ko(ko.spec, failed.status), Some(e), Reported(failed, Some(e)))
      else Finish(env, cfg, read.world, ko, read.ko, false)
  }

  /** LateInitialize, and what of its result is stored. */
  ghost function Finish(env: Env, cfg: Config, w: World, ko: Ko, latest: Ko, changed: bool): PassResult {
    var again := Read(env, cfg, w, latest);
    if again.err.Some? then
      PassResult(again.world, Ko(ko.spec, LateInitFailed(latest.status)), again.err, Reported(again.ko, again.err))
    else
      PassResult(again.world,
                 Ko(if changed then LateInitialized(again.ko.spec, ko.spec) else ko.spec, LateInitDone(latest.status)),
                 None, None)
  }
}
