/** The S3 Tables service as one table bucket sees it: five independently stored settings,
    each read and written by its own API, any call of which can fail. The service is not in
    the repository; this is the contract the controller relies on. */
module BucketService {
  import opened Types
  import opened Tags
  import opened Maintenance

  datatype SdkEncryption = SdkEncryption(kmsKeyArn: Option<string>, sseAlgorithm: string)

  datatype Bucket = Bucket(
    arn: string, createdAt: Option<int>, name: Option<string>, bucketType: string, id: Option<string>,
    encryption: Option<SdkEncryption>,
    storageClass: Option<string>,
    tags: AckTags,
    policy: Option<string>,
    maintenance: map<string, SdkMaintenance>)

  datatype Call =
    | GetTableBucket | GetEncryption | GetStorageClass | ListTags | GetPolicy | GetMaintenance
    | PutEncryption(config: SdkEncryption)
    | PutStorageClass(kind: string)
    | UntagResource(keys: set<string>)
    | TagResource(added: AckTags)
    | DeletePolicy
    | PutPolicy(document: string)
    | PutMaintenance(jobType: string, value: SdkMaintenance)

  datatype Setting = Encryption | StorageClass | TagSet | Policy | MaintenanceConfig

  predicate IsWrite(call: Call) {
    !call.GetTableBucket? && !call.GetEncryption? && !call.GetStorageClass? && !call.ListTags? &&
    !call.GetPolicy? && !call.GetMaintenance?
  }

  /** The setting a write changes. */
  predicate Writes(call: Call, setting: Setting) {
    match setting
    case Encryption => call.PutEncryption?
    case StorageClass => call.PutStorageClass?
    case TagSet => call.UntagResource? || call.TagResource?
    case Policy => call.DeletePolicy? || call.PutPolicy?
    case MaintenanceConfig => call.PutMaintenance?
  }

  /** The service stores and echoes what is Put; `fill` is its choice for whatever a
      maintenance Put leaves undeclared. */
  function Apply(b: Bucket, call: Call, fill: SdkMaintenance): Bucket {
    match call
    case PutEncryption(config) => b.(encryption := Some(config))
    case PutStorageClass(kind) => b.(storageClass := Some(kind))
    case UntagResource(keys) => b.(tags := b.tags - keys)
    case TagResource(added) => b.(tags := b.tags + added)
    case DeletePolicy => b.(policy := None)
    case PutPolicy(document) => b.(policy := Some(document))
    case PutMaintenance(jobType, value) => b.(maintenance := b.maintenance[jobType := Stored(value, fill)])
    case _ => b
  }

  /** A call can be turned down, or be carried out and its reply be lost. */
  datatype Fault = NoFault | Rejected(e: Error) | LostReply(e: Error)

  /** Everything outside the controller's control, indexed by the number of the call. */
  datatype Env = Env(fault: nat -> Fault, fill: nat -> SdkMaintenance)

  datatype Event = Event(call: Call, took: bool, after: Bucket)

  /** The service's state together with the calls that led to it. */
  datatype World = World(start: Bucket, log: seq<Event>) {
    function At(i: nat): Bucket
      requires i <= |log|
    {
      if i == 0 then start else log[i - 1].after
    }

    function Now(): Bucket {
      At(|log|)
    }
  }

  /** GetTableBucketPolicy answers NotFoundException when, and only when, no policy is set. */
  function Reply(b: Bucket, call: Call, fault: Fault): Option<Error> {
    match fault
    case NoFault =>
      if call.GetPolicy? && b.policy.None? then Some(ApiFailure(NOT_FOUND_CODE, "no policy")) else None
    case _ =>
      if call.GetPolicy? && IsApiNotFound(fault.e) then Some(PlainError(fault.e.text)) else Some(fault.e)
  }

  function Invoke(env: Env, w: World, call: Call): (World, Option<Error>) {
    var fault := env.fault(|w.log|);
    var b := w.Now();
    var after := if fault.Rejected? then b else Apply(b, call, env.fill(|w.log|));
    (World(w.start, w.log + [Event(call, !fault.Rejected?, after)]), Reply(b, call, fault))
  }

  /** The client of the service's API (`rm.sdkapi`). */
  class Client {
    const env: Env
    var world: World

    constructor (env: Env, world: World)
      ensures this.env == env && this.world == world
    {
      this.env, this.world := env, world;
    }

    method Do(call: Call) returns (err: Option<Error>)
      modifies this
      ensures (world, err) == Invoke(env, old(world), call)
    {
      var (w, e) := Invoke(env, world, call);
      world := w;
      return e;
    }
  }

  // ----- Sequences of calls that stop at the first error -----

  /** One step of what the controller means to do: a call, or giving up with an error of its
      own making. */
  datatype Item = Send(call: Call) | GiveUp(e: Error)

  /** A NotFoundException from GetTableBucketPolicy means "no policy", not a failure. */
  predicate Benign(call: Call, e: Error) {
    call.GetPolicy? && IsApiNotFound(e)
  }

  function Execute(env: Env, w: World, plan: seq<Item>): (World, Option<Error>)
    decreases |plan|
  {
    if plan == [] then (w, None)
    else match plan[0]
      case GiveUp(e) => (w, Some(e))
      case Send(call) =>
        var (w1, err) := Invoke(env, w, call);
        if err.Some? && !Benign(call, err.value) then (w1, err) else Execute(env, w1, plan[1..])
  }

  lemma {:induction false} ExecuteAppend(env: Env, w: World, p: seq<Item>, q: seq<Item>)
    ensures var (w1, err) := Execute(env, w, p);
            Execute(env, w, p + q) == if err.Some? then (w1, err) else Execute(env, w1, q)
    decreases |p|
  {
    if p == [] {
      assert p + q == q;
    } else {
      assert (p + q)[1..] == p[1..] + q;
      if p[0].Send? {
        ExecuteAppend(env, Invoke(env, w, p[0].call).0, p[1..], q);
      }
    }
  }
}
