/** The specification of a Table reconcile pass (pkg/resource/table): an ARN-keyed read, a
    delta, and up to four guarded or tag writes. Module TableManager proves the code against
    these functions. */
module TablePass {
  import opened Types
  import opened Tags
  import opened TableService
  import opened TableDelta
  import C = Conditions
  import D = Delta

  datatype Ko = Ko(spec: TableSpec, status: TableStatus)

  datatype Config = Config(region: string, partition: string, account: string, defaultTags: AckTags)

  function ArnOf(status: TableStatus): Option<string> {
    if status.metadata.Some? then status.metadata.value.arn else None
  }

  // ----- Reading -----

  /** By the stable ARN once it is recorded, by name before. */
  function GetCall(ko: Ko): Call {
    if ArnOf(ko.status).Some? then GetByArn(ArnOf(ko.status).value)
    else Get(None, Target(ko.spec.tableBucketARN, ko.spec.namespace, ko.spec.name))
  }

  function NonEmpty(s: string): Option<string> {
    if s != "" then Some(s) else None
  }

  function WithDefaults(cfg: Config, status: TableStatus): TableStatus {
    var md := status.metadata.GetOr(ResourceMetadata(None, None, None, None));
    status.(
      metadata := Some(ResourceMetadata(
        md.arn,
        Some(md.ownerAccountID.GetOr(cfg.account)),
        Some(md.partition.GetOr(cfg.partition)),
        Some(md.region.GetOr(cfg.region)))),
      conditions := Some(status.conditions.GetOr([])))
  }

  /** The response merged into a copy of the object, but for the tags. The bucket ARN is not
      part of the response and keeps its declared value. */
  function Merged(cfg: Config, ko: Ko, arn: string, t: Table, token: Option<string>): Ko {
    var md := ko.status.metadata.GetOr(ResourceMetadata(None, None, None, None)).(arn := Some(arn));
    var status := WithDefaults(cfg, ko.status.(
      metadata := Some(md), createdAt := t.facts.createdAt, modifiedAt := t.facts.modifiedAt,
      tableType := NonEmpty(t.facts.tableType), versionToken := token,
      warehouseLocation := t.facts.warehouse));
    Ko(ko.spec.(format := NonEmpty(t.facts.format), metadataLocation := t.location, name := Some(t.place.name),
                namespace := Some(t.place.namespace)),
       status.(namespaceID := if t.facts.namespaceID.Some? then t.facts.namespaceID else status.namespaceID,
               tableBucketID := if t.facts.tableBucketID.Some? then t.facts.tableBucketID else status.tableBucketID))
  }

  function Observation(
    cfg: Config, ko: Ko, arn: string, t: Table, token: Option<string>, tags: AckTags): Ko
  {
    var merged := Merged(cfg, ko, arn, t, token);
    Ko(merged.spec.(tags := FromService(tags)), merged.status)
  }

  function Find(env: Env, cfg: Config, w: World, ko: Ko): (World, Result<Ko>) {
    var (w1, got) := Invoke(env, w, GetCall(ko));
    if got.Err? then (w1, Err(if IsApiNotFound(got.error) then NOT_FOUND else got.error))
    else if !got.value.Found? then (w1, Err(MISSING))
    else
      var (w2, listed) := Invoke(env, w1, ListTags(got.value.arn));
      if listed.Err? then (w2, Err(listed.error))
      else if !listed.value.TagsOf? then (w2, Err(MISSING))
      else (w2, Ok(Observation(cfg, ko, got.value.arn, got.value.table, got.value.token, listed.value.tags)))
  }

  // ----- Writing -----

  /** Renames and metadata-location writes name the table as last observed, guarded by the
      token last observed. */
  function ObservedTarget(l: Ko): Target {
    Target(l.spec.tableBucketARN, l.spec.namespace, l.spec.name)
  }

  function NamePlan(d: Ko, l: Ko): seq<Call> {
    [RenameTable(ObservedTarget(l), d.spec.name, l.status.versionToken)]
  }

  /** A location the spec leaves out is never written: the delta stays. */
  function LocationPlan(d: Ko, l: Ko): seq<Call> {
    if d.spec.metadataLocation.None? then []
    else [UpdateLocation(ObservedTarget(l), d.spec.metadataLocation.value, l.status.versionToken)]
  }

  function TagPlan(d: Ko, l: Ko): seq<Call> {
    var from, to := ToAck(l.spec.tags), ToAck(d.spec.tags);
    if ArnOf(l.status).None? then []
    else
      var arn := ArnOf(l.status).value;
      (if ToRemove(from, to) == {} then [] else [UntagTable(arn, ToRemove(from, to))]) +
      (if ToAdd(from, to) == map[] then [] else [TagTable(arn, ToAdd(from, to))])
  }

  /** customUpdateTable */
  ghost function UpdatePlan(d: Ko, l: Ko, differences: set<D.Segment>): seq<Call> {
    (if D.Name in differences then NamePlan(d, l) else []) +
    (if D.MetadataLocation in differences then LocationPlan(d, l) else []) +
    (if D.Tags in differences then TagPlan(d, l) else [])
  }

  /** newDeleteRequestPayload */
  function DeleteCall(ko: Ko): Call {
    DeleteTable(Target(ko.spec.tableBucketARN, ko.spec.namespace, ko.spec.name), ko.status.versionToken)
  }

  // ----- The pass -----

  function Desired(cfg: Config, ko: Ko): Ko {
    Ko(ko.spec.(tags := EnsuredTags(ko.spec.tags, cfg.defaultTags)), ko.status)
  }

  function Mirror(d: Ko, observed: Ko): Ko {
    Ko(d.spec.(tags := MirroredTags(d.spec.tags, observed.spec.tags)), d.status)
  }

  /** What onSuccess and onError return: the object with its conditions updated and its status
      defaults set, or as it was if there is nothing to say; and the error,
      replaced by the Terminal error if a Terminal condition is True by then. */
  function Concluded(cfg: Config, ko: Ko, outcome: Option<Error>): Ko {
    var status := if C.Updates(ko.status.conditions, outcome) then WithDefaults(cfg, ko.status) else ko.status;
    Ko(ko.spec, status.(conditions := C.Concluded(ko.status.conditions, outcome)))
  }

  ghost function Reported(concluded: Ko, err: Option<Error>): Option<Error> {
    if err.Some? && C.IsRaised(concluded.status.conditions.GetOr([]), CondTerminal) then Some(TERMINAL) else err
  }

  /** `err` is what went wrong, `reported` what the runtime is told. */
  datatype PassResult = PassResult(world: World, stored: Ko, err: Option<Error>, reported: Option<Error>)

  /** The stored spec never changes; the status follows the last object returned. */
  ghost function Pass(env: Env, cfg: Config, w: World, ko: Ko): PassResult {
    var asked := Desired(cfg, ko);
    var (w1, found) := Find(env, cfg, w, asked);
    match found
    case Err(e) => Stored(w1, ko, Concluded(cfg, asked, Some(e)), Some(e))
    case Ok(observed) =>
      var latest := Concluded(cfg, observed, None);
      var d := Mirror(asked, latest);
      var differences := Differences(d.spec, latest.spec);
      if differences == {} then Stored(w1, ko, latest, None)
      else
        var (w2, err) := Execute(env, w1, UpdatePlan(d, latest, differences));
        var returned := if err.Some? then latest else Ko(d.spec, latest.status);
        Stored(w2, ko, Concluded(cfg, returned, err), err)
  }

  ghost function Stored(w: World, ko: Ko, returned: Ko, err: Option<Error>): PassResult {
    PassResult(w, Ko(ko.spec, returned.status), err, Reported(returned, err))
  }

  lemma ConclusionsKeep(cfg: Config, ko: Ko, outcome: Option<Error>)
    ensures Concluded(cfg, ko, outcome).spec == ko.spec && ArnOf(Concluded(cfg, ko, outcome).status) == ArnOf(ko.status)
    ensures Concluded(cfg, ko, outcome).status.versionToken == ko.status.versionToken
  {
    hide C.Concluded;
  }
}
