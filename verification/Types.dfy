/** Values shared by the whole model: optional pointers, Go integer widths, errors as the
    controller observes them, and the API objects of apis/v1alpha1.

    A Go pointer that is only ever read or replaced is an `Option`; the heap itself is
    modelled where aliasing matters, in module DeepCopy. */
module Types {

  datatype Option<+T> = None | Some(value: T) {
    function GetOr(default: T): T {
      if Some? then value else default
    }
  }

  datatype Result<+T> = Ok(value: T) | Err(error: Error)

  const INT32_MAX := 0x7FFF_FFFF
  const INT32_MIN := -0x8000_0000

  newtype int32 = x: int | -0x8000_0000 <= x < 0x8000_0000
  newtype int64 = x: int | -0x8000_0000_0000_0000 <= x < 0x8000_0000_0000_0000

  /** What `errors.As(err, &smithy.APIError)` finds inside an error chain. */
  datatype ApiError = ApiError(code: string, text: string)

  /** Errors the runtime compares by identity. */
  datatype Sentinel = Ordinary | AckNotFound | AckTerminal | SecretNotFound | SecretTypeNotSupported

  /** An error, as far as the controller looks into it: its text, the API error and the
      `TerminalError` found by `errors.As`, and whether it is one of the sentinels. */
  datatype Error = Error(text: string, api: Option<ApiError>, terminal: bool, sentinel: Sentinel)

  const NOT_FOUND_CODE := "NotFoundException"
  const NOT_FOUND := Error("resource not found", None, false, AckNotFound)
  const TERMINAL := Error("resource is in terminal condition", None, false, AckTerminal)

  predicate IsApiNotFound(e: Error) {
    e.api.Some? && e.api.value.code == NOT_FOUND_CODE
  }

  function PlainError(text: string): Error {
    Error(text, None, false, Ordinary)
  }

  function TerminalError(text: string): Error {
    Error(text, None, true, Ordinary)
  }

  function ApiFailure(code: string, text: string): Error {
    Error(text, Some(ApiError(code, text)), false, Ordinary)
  }

  // ----- API objects -----

  datatype Reference = Reference(name: Option<string>, namespace: Option<string>)
  datatype ReferenceWrapper = ReferenceWrapper(from: Option<Reference>)

  datatype EncryptionConfiguration = EncryptionConfiguration(
    kmsKeyARN: Option<string>, kmsKeyRef: Option<ReferenceWrapper>, sseAlgorithm: Option<string>)

  datatype StorageClassConfiguration = StorageClassConfiguration(storageClass: Option<string>)

  datatype IcebergRemovalSettings = IcebergRemovalSettings(
    nonCurrentDays: Option<int64>, unreferencedDays: Option<int64>)

  datatype MaintenanceSettings = MaintenanceSettings(iceberg: Option<IcebergRemovalSettings>)

  datatype MaintenanceValue = MaintenanceValue(settings: Option<MaintenanceSettings>, status: Option<string>)

  /** A Go `map[string]*T`; a nil map is `None`. */
  type PtrMap<+T> = Option<map<string, Option<T>>>

  type TagMap = PtrMap<string>
  type MaintenanceMap = PtrMap<MaintenanceValue>

  /** The entries a Go `range` over the map visits. */
  function Entries<T>(m: PtrMap<T>): map<string, Option<T>> {
    m.GetOr(map[])
  }

  datatype TableBucketSpec = TableBucketSpec(
    encryption: Option<EncryptionConfiguration>,
    maintenance: MaintenanceMap,
    name: Option<string>,
    policy: Option<string>,
    storageClass: Option<StorageClassConfiguration>,
    tags: TagMap)

  datatype ResourceMetadata = ResourceMetadata(
    arn: Option<string>, ownerAccountID: Option<string>, partition: Option<string>, region: Option<string>)

  datatype ConditionType = CondTerminal | CondRecoverable | CondSynced | CondLateInitialized | CondOther(name: string)
  datatype ConditionStatus = StatusUnset | StatusTrue | StatusFalse | StatusUnknown
  datatype Condition = Condition(kind: ConditionType, status: ConditionStatus, message: Option<string>)

  /** `Status.Conditions`, a slice of pointers; a nil slice is `None`. */
  type Conditions = Option<seq<Condition>>

  datatype TableBucketStatus = TableBucketStatus(
    metadata: Option<ResourceMetadata>,
    conditions: Conditions,
    createdAt: Option<int>,
    tableBucketID: Option<string>,
    bucketType: Option<string>)

  datatype PartitionField = PartitionField(
    fieldID: Option<int64>, name: Option<string>, sourceID: Option<int64>, transform: Option<string>)
  datatype PartitionSpec = PartitionSpec(fields: Option<seq<Option<PartitionField>>>, specID: Option<int64>)
  datatype SchemaField = SchemaField(
    id: Option<int64>, name: Option<string>, required: Option<bool>, fieldType: Option<string>)
  datatype Schema = Schema(fields: Option<seq<Option<SchemaField>>>)
  datatype SortField = SortField(
    direction: Option<string>, nullOrder: Option<string>, sourceID: Option<int64>, transform: Option<string>)
  datatype SortOrder = SortOrder(fields: Option<seq<Option<SortField>>>, orderID: Option<int64>)
  datatype IcebergMetadata = IcebergMetadata(
    partitionSpec: Option<PartitionSpec>, properties: PtrMap<string>, schema: Option<Schema>,
    writeOrder: Option<SortOrder>)
  datatype TableMetadata = TableMetadata(iceberg: Option<IcebergMetadata>)

  datatype TableSpec = TableSpec(
    encryption: Option<EncryptionConfiguration>,
    format: Option<string>,
    metadata: Option<TableMetadata>,
    metadataLocation: Option<string>,
    name: Option<string>,
    namespace: Option<string>,
    namespaceRef: Option<ReferenceWrapper>,
    storageClass: Option<StorageClassConfiguration>,
    tableBucketARN: Option<string>,
    tableBucketRef: Option<ReferenceWrapper>,
    tags: TagMap)

  datatype TableStatus = TableStatus(
    metadata: Option<ResourceMetadata>,
    conditions: Conditions,
    createdAt: Option<int>,
    modifiedAt: Option<int>,
    namespaceID: Option<string>,
    tableBucketID: Option<string>,
    tableType: Option<string>,
    versionToken: Option<string>,
    warehouseLocation: Option<string>)

  /** Go's `range` over a map: some order that visits every key exactly once. */
  ghost predicate Enumerates(order: seq<string>, keys: set<string>) {
    && (forall k :: k in order <==> k in keys)
    && (forall i, j :: 0 <= i < j < |order| ==> order[i] != order[j])
  }

  method RangeKeys<T>(m: map<string, T>) returns (order: seq<string>)
    ensures Enumerates(order, m.Keys)
  {
    order := [];
    var rest := m.Keys;
    while rest != {}
      invariant rest <= m.Keys
      invariant Enumerates(order, m.Keys - rest)
    {
      var k :| k in rest;
      order := order + [k];
      rest := rest - {k};
    }
  }
}
