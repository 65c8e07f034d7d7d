/** What different, read, written and stored mean for a table, said of the spec, the service's
    state and the calls themselves. */
module TableMeaning {
  import opened Types
  import opened Tags
  import opened TableService
  import opened TableDelta
  import opened TablePass
  import C = Conditions
  import D = Delta

  // ----- Different -----

  ghost predicate SameList<T>(a: Option<seq<T>>, b: Option<seq<T>>) {
    (if a.Some? then a.value else []) == (if b.Some? then b.value else [])
  }

  ghost predicate SamePartitionSpec(a: Option<PartitionSpec>, b: Option<PartitionSpec>) {
    if a.None? || b.None? then a == b else SameList(a.value.fields, b.value.fields) && a.value.specID == b.value.specID
  }

  ghost predicate SameSchema(a: Option<Schema>, b: Option<Schema>) {
    if a.None? || b.None? then a == b else SameList(a.value.fields, b.value.fields)
  }

  ghost predicate SameOrder(a: Option<SortOrder>, b: Option<SortOrder>) {
    if a.None? || b.None? then a == b
    else SameList(a.value.fields, b.value.fields) && a.value.orderID == b.value.orderID
  }

  ghost predicate SameMetadata(a: Option<TableMetadata>, b: Option<TableMetadata>) {
    if a.None? || b.None? || a.value.iceberg.None? || b.value.iceberg.None? then a == b
    else
      var i, j := a.value.iceberg.value, b.value.iceberg.value;
      && SamePartitionSpec(i.partitionSpec, j.partitionSpec)
      && (if i.properties.Some? then i.properties.value else map[]) ==
         (if j.properties.Some? then j.properties.value else map[])
      && SameSchema(i.schema, j.schema)
      && SameOrder(i.writeOrder, j.writeOrder)
  }

  ghost predicate SameEncryption(a: Option<EncryptionConfiguration>, b: Option<EncryptionConfiguration>) {
    if a.None? || b.None? then a == b
    else a.value.kmsKeyARN == b.value.kmsKeyARN && a.value.sseAlgorithm == b.value.sseAlgorithm
  }

  /** The delta shows each of the eleven fields exactly when that field differs, and no other:
      nil lists and maps are empty ones, nil tag values are "", and the key reference is not
      looked at. */
  lemma DifferencesAre(a: TableSpec, b: TableSpec, f: D.Segment)
    ensures f in Differences(a, b) <==>
      match f
      case EncryptionConfiguration => !SameEncryption(a.encryption, b.encryption)
      case Format => a.format != b.format
      case Metadata => !SameMetadata(a.metadata, b.metadata)
      case MetadataLocation => a.metadataLocation != b.metadataLocation
      case Name => a.name != b.name
      case Namespace => a.namespace != b.namespace
      case NamespaceRef => a.namespaceRef != b.namespaceRef
      case StorageClassConfiguration => a.storageClass != b.storageClass
      case TableBucketARN => a.tableBucketARN != b.tableBucketARN
      case TableBucketRef => a.tableBucketRef != b.tableBucketRef
      case Tags => !SameTags(a.tags, b.tags)
      case _ => false
  {
    ContentAre(a, b, f);
    PlacementAre(a, b, f);
    hide ContentDifferences, PlacementDifferences, SameTags, SameMetadata, SameEncryption;
  }

  lemma ContentAre(a: TableSpec, b: TableSpec, f: D.Segment)
    ensures f in ContentDifferences(a, b) <==>
      match f
      case EncryptionConfiguration => !SameEncryption(a.encryption, b.encryption)
      case Format => a.format != b.format
      case Metadata => !SameMetadata(a.metadata, b.metadata)
      case MetadataLocation => a.metadataLocation != b.metadataLocation
      case Name => a.name != b.name
      case _ => false
  {
    SameMetadataIff(a.metadata, b.metadata);
    SameEncryptionIff(a.encryption, b.encryption);
    hide NormalMetadata, SameMetadata, SameEncryption, D.EncryptionDiffers;
  }

  lemma PlacementAre(a: TableSpec, b: TableSpec, f: D.Segment)
    ensures f in PlacementDifferences(a, b) <==>
      match f
      case Namespace => a.namespace != b.namespace
      case NamespaceRef => a.namespaceRef != b.namespaceRef
      case StorageClassConfiguration => a.storageClass != b.storageClass
      case TableBucketARN => a.tableBucketARN != b.tableBucketARN
      case TableBucketRef => a.tableBucketRef != b.tableBucketRef
      case Tags => !SameTags(a.tags, b.tags)
      case _ => false
  {
    SameTagsIff(a.tags, b.tags);
    hide ToAck, SameTags;
  }

  lemma SameEncryptionIff(a: Option<EncryptionConfiguration>, b: Option<EncryptionConfiguration>)
    ensures D.EncryptionDiffers(a, b) <==> !SameEncryption(a, b)
  {
  }

  lemma SameMetadataIff(a: Option<TableMetadata>, b: Option<TableMetadata>)
    ensures NormalMetadata(a) == NormalMetadata(b) <==> SameMetadata(a, b)
  {
  }

  /** What is compared with the observation: the declared spec, with every observed "aws:" tag as
      observed, every other declared tag as declared and the controller's where none is declared. */
  lemma ComparedSpecIs(cfg: Config, ko: Ko, observed: Ko)
    ensures var d := Mirror(Desired(cfg, ko), observed).spec;
            var declared := if ko.spec.tags.Some? then ko.spec.tags.value else map[];
            var shown := if observed.spec.tags.Some? then observed.spec.tags.value else map[];
            && d.(tags := ko.spec.tags) == ko.spec && d.tags.Some?
            && (forall k :: k in d.tags.value <==>
                  k in declared || k in cfg.defaultTags || (k in shown && "aws:" <= k))
            && forall k :: k in d.tags.value ==>
                 d.tags.value[k] ==
                 if k in shown && "aws:" <= k then (if shown[k].Some? then shown[k] else Some(""))
                 else if k in declared then (if declared[k].Some? then declared[k] else Some(""))
                 else Some(cfg.defaultTags[k])
  {
    EnsuredTagsAre(ko.spec.tags, cfg.defaultTags);
    MirroredTagsAre(Desired(cfg, ko).spec.tags, observed.spec.tags);
    hide EnsuredTags, MirroredTags;
  }

  // ----- Read -----

  /** Every error a read can end with: NotFound exactly for an API error of that code from the
      first call, which is then the only one; any other error as it is. */
  lemma ReadErrorsAre(env: Env, cfg: Config, w: World, ko: Ko)
    ensures var (w', found) := Find(env, cfg, w, ko);
            var (w1, got) := Invoke(env, w, GetCall(ko));
            if got.Err? then
              && w' == w1
              && found == Err(if got.error.api.Some? && got.error.api.value.code == "NotFoundException"
                              then Error("resource not found", None, false, AckNotFound) else got.error)
            else if got.value.Found? then
              var (w2, listed) := Invoke(env, w1, ListTags(got.value.arn));
              && w' == w2
              && (listed.Err? ==> found == Err(listed.error))
              && (listed.Ok? && listed.value.TagsOf? ==>
                    var Found(arn, t, token) := got.value;
                    found == Ok(Observation(cfg, ko, arn, t, token, listed.value.tags)))
            else found.Err?
  {
    hide Invoke, Observation;
  }

  function OrNone(text: string): Option<string> {
    if text == "" then None else Some(text)
  }

  ghost predicate Defaulted(cfg: Config, before: Option<ResourceMetadata>, after: Option<ResourceMetadata>) {
    && after.Some?
    && after.value.region ==
       Some(if before.Some? && before.value.region.Some? then before.value.region.value else cfg.region)
    && after.value.partition ==
       Some(if before.Some? && before.value.partition.Some? then before.value.partition.value else cfg.partition)
    && after.value.ownerAccountID ==
       Some(if before.Some? && before.value.ownerAccountID.Some? then before.value.ownerAccountID.value
            else cfg.account)
  }

  lemma DefaultsAre(cfg: Config, status: TableStatus)
    ensures var r := WithDefaults(cfg, status);
            && Defaulted(cfg, status.metadata, r.metadata)
            && r.metadata.value.arn == (if status.metadata.Some? then status.metadata.value.arn else None)
            && r.conditions == Some(if status.conditions.Some? then status.conditions.value else [])
            && r.(metadata := status.metadata, conditions := status.conditions) == status
  {
  }

  /** What a read that succeeds shows, field by field; what the service does not return stays as
      declared. */
  lemma ObservationIs(cfg: Config, ko: Ko, arn: string, t: Table, token: Option<string>, tags: AckTags)
    ensures var o := Observation(cfg, ko, arn, t, token, tags);
            && o.spec.name == Some(t.place.name) && o.spec.namespace == Some(t.place.namespace)
            && o.spec.metadataLocation == t.location && o.spec.format == OrNone(t.facts.format)
            && o.spec.tags == FromService(tags)
            && o.spec.(name := ko.spec.name, namespace := ko.spec.namespace, format := ko.spec.format,
                       metadataLocation := ko.spec.metadataLocation, tags := ko.spec.tags) == ko.spec
            && o.status.metadata.Some? && o.status.metadata.value.arn == Some(arn)
            && Defaulted(cfg, ko.status.metadata, o.status.metadata)
            && o.status.versionToken == token && o.status.warehouseLocation == t.facts.warehouse
            && o.status.createdAt == t.facts.createdAt && o.status.modifiedAt == t.facts.modifiedAt
            && o.status.tableType == OrNone(t.facts.tableType)
            && o.status.namespaceID ==
               (if t.facts.namespaceID.Some? then t.facts.namespaceID else ko.status.namespaceID)
            && o.status.tableBucketID ==
               (if t.facts.tableBucketID.Some? then t.facts.tableBucketID else ko.status.tableBucketID)
            && o.status.conditions == Some(if ko.status.conditions.Some? then ko.status.conditions.value else [])
  {
    hide FromService;
  }

  // ----- Written -----

  /** The calls of an update, in order: the rename, the location, the tags, each when its field
      differs, and each naming the table as `l` shows it. */
  lemma UpdateCallsAre(d: Ko, l: Ko, differences: set<D.Segment>)
    ensures var at := Target(l.spec.tableBucketARN, l.spec.namespace, l.spec.name);
            var token := l.status.versionToken;
            var from, to := ToAck(l.spec.tags), ToAck(d.spec.tags);
            var tagged := D.Tags in differences && l.status.metadata.Some? && l.status.metadata.value.arn.Some?;
            UpdatePlan(d, l, differences) ==
              (if D.Name in differences then [RenameTable(at, d.spec.name, token)] else []) +
              (if D.MetadataLocation in differences && d.spec.metadataLocation.Some?
               then [UpdateLocation(at, d.spec.metadataLocation.value, token)] else []) +
              ((if tagged && ToRemove(from, to) != {}
                then [UntagTable(l.status.metadata.value.arn.value, ToRemove(from, to))] else []) +
               (if tagged && ToAdd(from, to) != map[]
                then [TagTable(l.status.metadata.value.arn.value, ToAdd(from, to))] else []))
  {
    hide ToRemove, ToAdd, ToAck;
  }

  /** A deletion names the object's own place and token. */
  lemma DeleteCallIs(ko: Ko)
    ensures var call := DeleteCall(ko);
            && call.DeleteTable? && call.token == ko.status.versionToken
            && call.at.bucket == ko.spec.tableBucketARN && call.at.namespace == ko.spec.namespace
            && call.at.name == ko.spec.name
  {
  }

  // ----- Stored -----

  /** A pass never changes the stored spec; the status is what the read showed, or, if that failed,
      the old one with its defaults, apart from the conditions. */
  lemma StoredIs(env: Env, cfg: Config, w: World, ko: Ko)
    ensures var r := Pass(env, cfg, w, ko);
            var found := Find(env, cfg, w, Desired(cfg, ko)).1;
            && r.stored.spec == ko.spec
            && r.stored.status.(conditions := None) ==
               (if found.Ok? then found.value.status else WithDefaults(cfg, ko.status)).(conditions := None)
  {
    hide Find, Differences, UpdatePlan, Execute, EnsuredTags, MirroredTags, Reported, C.Concluded, C.Next;
    var asked := Desired(cfg, ko);
    var (w1, found) := Find(env, cfg, w, asked);
    match found
    case Err(e) =>
      C.UpdatesIff(asked.status.conditions, Some(e));
      hide WithDefaults;
    case Ok(observed) =>
      FoundIsDefaulted(env, cfg, w, asked);
      ConcludedKeeps(cfg, observed, None);
      var latest := Concluded(cfg, observed, None);
      var d := Mirror(asked, latest);
      var (w2, err) := Execute(env, w1, UpdatePlan(d, latest, Differences(d.spec, latest.spec)));
      ConcludedKeeps(cfg, latest, err);
      ConcludedKeeps(cfg, Ko(d.spec, latest.status), None);
      hide WithDefaults, Concluded;
  }

  ghost predicate Complete(cfg: Config, status: TableStatus) {
    WithDefaults(cfg, status).(conditions := status.conditions) == status
  }

  lemma FoundIsDefaulted(env: Env, cfg: Config, w: World, ko: Ko)
    ensures var found := Find(env, cfg, w, ko).1; found.Ok? ==> Complete(cfg, found.value.status)
  {
    hide Invoke;
  }

  lemma ConcludedKeeps(cfg: Config, ko: Ko, outcome: Option<Error>)
    requires Complete(cfg, ko.status)
    ensures Complete(cfg, Concluded(cfg, ko, outcome).status)
    ensures Concluded(cfg, ko, outcome).status.(conditions := None) == ko.status.(conditions := None)
  {
    hide C.Concluded, C.Updates;
  }
}
