/** newCreateRequestPayload and sdkCreate for Tables (pkg/resource/table/sdk.go): arbitrary
    nested lists copied into the SDK's types, every id narrowed from 64 to 32 bits. */
module CreatePayload {
  import opened Types
  import opened Tags
  import opened BucketService
  import opened TablePass
  import M = TableManager
  import C = Conditions

  // ----- The SDK's types -----

  datatype SdkPartitionField = SdkPartitionField(
    fieldId: Option<int32>, name: Option<string>, sourceId: Option<int32>, transform: Option<string>)
  datatype SdkPartitionSpec = SdkPartitionSpec(fields: Option<seq<SdkPartitionField>>, specId: Option<int32>)
  datatype SdkSchemaField = SdkSchemaField(
    id: Option<int32>, name: Option<string>, required: bool, fieldType: Option<string>)
  datatype SdkSchema = SdkSchema(fields: Option<seq<SdkSchemaField>>)
  datatype SdkSortField = SdkSortField(
    direction: string, nullOrder: string, sourceId: Option<int32>, transform: Option<string>)
  datatype SdkSortOrder = SdkSortOrder(fields: Option<seq<SdkSortField>>, orderId: Option<int32>)
  datatype SdkIceberg = SdkIceberg(
    partitionSpec: Option<SdkPartitionSpec>, properties: Option<AckTags>, schema: Option<SdkSchema>,
    writeOrder: Option<SdkSortOrder>)

  datatype CreateTableInput = CreateTableInput(
    encryption: Option<SdkEncryption>, format: string, metadata: Option<SdkIceberg>, name: Option<string>,
    namespace: Option<string>, storageClass: Option<string>, tableBucketARN: Option<string>, tags: Option<AckTags>)

  // ----- Ids in traversal order -----

  /** A present id and the name its error would carry. */
  datatype Id = Id(field: string, value: int64)

  predicate Fits(v: int64) {
    INT32_MIN <= v as int <= INT32_MAX
  }

  function Present(field: string, v: Option<int64>): seq<Id> {
    if v.Some? then [Id(field, v.value)] else []
  }

  function PartitionFieldIds(f: PartitionField): seq<Id> {
    Present("fieldId", f.fieldID) + Present("sourceId", f.sourceID)
  }

  function SchemaFieldIds(f: SchemaField): seq<Id> {
    Present("id", f.id)
  }

  function SortFieldIds(f: SortField): seq<Id> {
    Present("sourceId", f.sourceID)
  }

  function ListIds<A>(fields: seq<Option<A>>, ids: A -> seq<Id>): seq<Id>
    requires None !in fields
  {
    if fields == [] then []
    else ListIds(fields[..|fields| - 1], ids) + ids(fields[|fields| - 1].value)
  }

  /** The source dereferences every element of a list: nil elements are its callers' mistake. */
  predicate NoNilElements(m: IcebergMetadata) {
    && (m.partitionSpec.Some? ==> None !in m.partitionSpec.value.fields.GetOr([]))
    && (m.schema.Some? ==> None !in m.schema.value.fields.GetOr([]))
    && (m.writeOrder.Some? ==> None !in m.writeOrder.value.fields.GetOr([]))
  }

  function PartitionSpecIds(p: PartitionSpec): seq<Id>
    requires None !in p.fields.GetOr([])
  {
    ListIds(p.fields.GetOr([]), PartitionFieldIds) + Present("specId", p.specID)
  }

  function SortOrderIds(o: SortOrder): seq<Id>
    requires None !in o.fields.GetOr([])
  {
    ListIds(o.fields.GetOr([]), SortFieldIds) + Present("orderId", o.orderID)
  }

  function Ids(m: IcebergMetadata): seq<Id>
    requires NoNilElements(m)
  {
    (if m.partitionSpec.Some? then PartitionSpecIds(m.partitionSpec.value) else []) +
    (if m.schema.Some? then ListIds(m.schema.value.fields.GetOr([]), SchemaFieldIds) else []) +
    (if m.writeOrder.Some? then SortOrderIds(m.writeOrder.value) else [])
  }

  /** The error newCreateRequestPayload stops with: the first id out of range. */
  function FirstBad(ids: seq<Id>): Option<string> {
    if ids == [] then None
    else if !Fits(ids[0].value) then Some(ids[0].field)
    else FirstBad(ids[1..])
  }

  lemma {:induction false} FirstBadAppend(a: seq<Id>, b: seq<Id>)
    ensures FirstBad(a + b) == if FirstBad(a).Some? then FirstBad(a) else FirstBad(b)
  {
    if a == [] {
      assert a + b == b;
    } else {
      assert (a + b)[1..] == a[1..] + b;
      FirstBadAppend(a[1..], b);
    }
  }

  /** What the error means. */
  lemma {:induction false} FirstBadIsFirst(ids: seq<Id>)
    ensures FirstBad(ids).None? <==> forall i :: 0 <= i < |ids| ==> Fits(ids[i].value)
    ensures FirstBad(ids).Some? ==>
      exists i :: 0 <= i < |ids| && !Fits(ids[i].value) && FirstBad(ids) == Some(ids[i].field) &&
                  forall j :: 0 <= j < i ==> Fits(ids[j].value)
  {
    if ids != [] {
      FirstBadIsFirst(ids[1..]);
      if Fits(ids[0].value) {
        assert forall i :: 0 < i < |ids| ==> ids[i] == ids[1..][i - 1];
        if FirstBad(ids).Some? {
          var i :| 0 <= i < |ids[1..]| && !Fits(ids[1..][i].value) && FirstBad(ids[1..]) == Some(ids[1..][i].field) &&
                   forall j :: 0 <= j < i ==> Fits(ids[1..][j].value);
          assert !Fits(ids[i + 1].value) && forall j :: 0 <= j < i + 1 ==> Fits(ids[j].value);
        }
      } else {
        assert !Fits(ids[0].value) && FirstBad(ids) == Some(ids[0].field);
      }
    }
  }

  // ----- Narrowing -----

  function Narrow(v: int64): int32 {
    if Fits(v) then v as int32 else 0
  }

  function NarrowId(v: Option<int64>): Option<int32> {
    if v.None? then None else Some(Narrow(v.value))
  }

  function NarrowPartitionField(f: PartitionField): SdkPartitionField {
    SdkPartitionField(NarrowId(f.fieldID), f.name, NarrowId(f.sourceID), f.transform)
  }

  function NarrowSchemaField(f: SchemaField): SdkSchemaField {
    SdkSchemaField(NarrowId(f.id), f.name, f.required.GetOr(false), f.fieldType)
  }

  function NarrowSortField(f: SortField): SdkSortField {
    SdkSortField(f.direction.GetOr(""), f.nullOrder.GetOr(""), NarrowId(f.sourceID), f.transform)
  }

  /** Same length, same order, element by element. */
  ghost predicate Each<A, B>(from: seq<Option<A>>, to: seq<B>, f: A -> B)
    requires None !in from
  {
    |to| == |from| && forall i :: 0 <= i < |from| ==> to[i] == f(from[i].value)
  }

  ghost predicate EachOptional<A, B>(from: Option<seq<Option<A>>>, to: Option<seq<B>>, f: A -> B)
    requires None !in from.GetOr([])
  {
    if from.None? then to.None? else to.Some? && Each(from.value, to.value, f)
  }

  function OutOfRange(field: string): Error {
    PlainError("error: field " + field + " is of type int32")
  }

  // ----- Code -----

  /** The check and conversion the source repeats for each id. */
  function CheckId(field: string, v: Option<int64>): (r: Result<Option<int32>>)
    ensures r == if FirstBad(Present(field, v)).Some? then Err(OutOfRange(field)) else Ok(NarrowId(v))
  {
    if v.None? then Ok(None)
    else if v.value as int > INT32_MAX || (v.value as int) < INT32_MIN then Err(OutOfRange(field))
    else Ok(Some(v.value as int32))
  }

  /** `Ok` of the narrowed value, or the error for the first of its ids out of range. */
  ghost function Outcome<B>(ids: seq<Id>, narrowed: B): Result<B> {
    match FirstBad(ids)
    case Some(field) => Err(OutOfRange(field))
    case None => Ok(narrowed)
  }

  function PartitionElement(f: PartitionField): (r: Result<SdkPartitionField>)
    ensures r == Outcome(PartitionFieldIds(f), NarrowPartitionField(f))
  {
    FirstBadAppend(Present("fieldId", f.fieldID), Present("sourceId", f.sourceID));
    match CheckId("fieldId", f.fieldID)
    case Err(e) => Err(e)
    case Ok(fieldId) =>
      match CheckId("sourceId", f.sourceID)
      case Err(e) => Err(e)
      case Ok(sourceId) => Ok(SdkPartitionField(fieldId, f.name, sourceId, f.transform))
  }

  function SchemaElement(f: SchemaField): (r: Result<SdkSchemaField>)
    ensures r == Outcome(SchemaFieldIds(f), NarrowSchemaField(f))
  {
    match CheckId("id", f.id)
    case Err(e) => Err(e)
    case Ok(id) => Ok(SdkSchemaField(id, f.name, f.required.GetOr(false), f.fieldType))
  }

  function SortElement(f: SortField): (r: Result<SdkSortField>)
    ensures r == Outcome(SortFieldIds(f), NarrowSortField(f))
  {
    match CheckId("sourceId", f.sourceID)
    case Err(e) => Err(e)
    case Ok(sourceId) => Ok(SdkSortField(f.direction.GetOr(""), f.nullOrder.GetOr(""), sourceId, f.transform))
  }

  /** The appending loop the source writes out for each of the three lists. */
  method NarrowList<A, B>(
    fields: seq<Option<A>>, element: A -> Result<B>, ghost ids: A -> seq<Id>, ghost narrow: A -> B)
    returns (r: Result<seq<B>>)
    requires None !in fields
    requires forall f :: f in fields ==> element(f.value) == Outcome(ids(f.value), narrow(f.value))
    ensures match FirstBad(ListIds(fields, ids))
            case Some(field) => r == Err(OutOfRange(field))
            case None => r.Ok? && Each(fields, r.value, narrow)
  {
    var out: seq<B> := [];
    for i := 0 to |fields|
      invariant FirstBad(ListIds(fields[..i], ids)).None?
      invariant Each(fields[..i], out, narrow)
    {
      assert fields[i] in fields;
      assert fields[..i + 1][..i] == fields[..i];
      FirstBadAppend(ListIds(fields[..i], ids), ids(fields[i].value));
      var elem := element(fields[i].value);
      if elem.Err? {
        StopsAtPrefix(fields, ids, i + 1);
        return Err(elem.error);
      }
      out := out + [elem.value];
    }
    assert fields[..|fields|] == fields;
    return Ok(out);
  }

  lemma {:induction false} StopsAtPrefix<A>(fields: seq<Option<A>>, ids: A -> seq<Id>, n: nat)
    requires None !in fields && n <= |fields|
    requires FirstBad(ListIds(fields[..n], ids)).Some?
    ensures FirstBad(ListIds(fields, ids)) == FirstBad(ListIds(fields[..n], ids))
  {
    if n == |fields| {
      assert fields[..n] == fields;
    } else {
      var init := fields[..|fields| - 1];
      assert init[..n] == fields[..n];
      StopsAtPrefix(init, ids, n);
      FirstBadAppend(ListIds(init, ids), ids(fields[|fields| - 1].value));
    }
  }

  method NarrowPartitionSpec(p: PartitionSpec) returns (r: Result<SdkPartitionSpec>)
    requires None !in p.fields.GetOr([])
    ensures match FirstBad(PartitionSpecIds(p))
            case Some(field) => r == Err(OutOfRange(field))
            case None => r.Ok? && EachOptional(p.fields, r.value.fields, NarrowPartitionField) &&
                         r.value.specId == NarrowId(p.specID)
  {
    FirstBadAppend(ListIds(p.fields.GetOr([]), PartitionFieldIds), Present("specId", p.specID));
    var out := SdkPartitionSpec(None, None);
    if p.fields.Some? {
      var fields := NarrowList(p.fields.value, PartitionElement, PartitionFieldIds, NarrowPartitionField);
      if fields.Err? {
        return Err(fields.error);
      }
      out := out.(fields := Some(fields.value));
    }
    var specId := CheckId("specId", p.specID);
    if specId.Err? {
      return Err(specId.error);
    }
    return Ok(out.(specId := specId.value));
  }

  method NarrowSortOrder(o: SortOrder) returns (r: Result<SdkSortOrder>)
    requires None !in o.fields.GetOr([])
    ensures match FirstBad(SortOrderIds(o))
            case Some(field) => r == Err(OutOfRange(field))
            case None => r.Ok? && EachOptional(o.fields, r.value.fields, NarrowSortField) &&
                         r.value.orderId == NarrowId(o.orderID)
  {
    FirstBadAppend(ListIds(o.fields.GetOr([]), SortFieldIds), Present("orderId", o.orderID));
    var out := SdkSortOrder(None, None);
    if o.fields.Some? {
      var fields := NarrowList(o.fields.value, SortElement, SortFieldIds, NarrowSortField);
      if fields.Err? {
        return Err(fields.error);
      }
      out := out.(fields := Some(fields.value));
    }
    var orderId := CheckId("orderId", o.orderID);
    if orderId.Err? {
      return Err(orderId.error);
    }
    return Ok(out.(orderId := orderId.value));
  }

  /** The SDK's metadata carries everything the spec declares. */
  ghost predicate Carries(m: IcebergMetadata, out: SdkIceberg)
    requires NoNilElements(m)
  {
    && m.partitionSpec.Some? == out.partitionSpec.Some? && m.schema.Some? == out.schema.Some?
    && m.writeOrder.Some? == out.writeOrder.Some?
    && (m.partitionSpec.Some? ==>
          && EachOptional(m.partitionSpec.value.fields, out.partitionSpec.value.fields, NarrowPartitionField)
          && out.partitionSpec.value.specId == NarrowId(m.partitionSpec.value.specID))
    && out.properties == (if m.properties.Some? then Some(ToAck(m.properties)) else None)
    && (m.schema.Some? ==> EachOptional(m.schema.value.fields, out.schema.value.fields, NarrowSchemaField))
    && (m.writeOrder.Some? ==>
          && EachOptional(m.writeOrder.value.fields, out.writeOrder.value.fields, NarrowSortField)
          && out.writeOrder.value.orderId == NarrowId(m.writeOrder.value.orderID))
  }

  method NarrowIceberg(m: IcebergMetadata) returns (r: Result<SdkIceberg>)
    requires NoNilElements(m)
    ensures match FirstBad(Ids(m))
            case Some(field) => r == Err(OutOfRange(field))
            case None => r.Ok? && Carries(m, r.value)
  {
    hide FirstBad, EachOptional, PartitionSpecIds, SortOrderIds;
    ghost var ids1 := if m.partitionSpec.Some? then PartitionSpecIds(m.partitionSpec.value) else [];
    ghost var ids2 := if m.schema.Some? then ListIds(m.schema.value.fields.GetOr([]), SchemaFieldIds) else [];
    ghost var ids3 := if m.writeOrder.Some? then SortOrderIds(m.writeOrder.value) else [];
    FirstBadAppend(ids1 + ids2, ids3);
    FirstBadAppend(ids1, ids2);
    NoneIsBad();
    var out := SdkIceberg(None, None, None, None);
    if m.partitionSpec.Some? {
      var p := NarrowPartitionSpec(m.partitionSpec.value);
      if p.Err? {
        return Err(p.error);
      }
      out := out.(partitionSpec := Some(p.value));
    }
    if m.properties.Some? {
      out := out.(properties := Some(ToAck(m.properties)));
    }
    if m.schema.Some? {
      var schema := NarrowSchema(m.schema.value);
      if schema.Err? {
        return Err(schema.error);
      }
      out := out.(schema := Some(schema.value));
    }
    if m.writeOrder.Some? {
      var o := NarrowSortOrder(m.writeOrder.value);
      if o.Err? {
        return Err(o.error);
      }
      out := out.(writeOrder := Some(o.value));
    }
    return Ok(out);
  }

  method NarrowSchema(s: Schema) returns (r: Result<SdkSchema>)
    requires None !in s.fields.GetOr([])
    ensures match FirstBad(ListIds(s.fields.GetOr([]), SchemaFieldIds))
            case Some(field) => r == Err(OutOfRange(field))
            case None => r.Ok? && EachOptional(s.fields, r.value.fields, NarrowSchemaField)
  {
    if s.fields.None? {
      return Ok(SdkSchema(None));
    }
    var fields := NarrowList(s.fields.value, SchemaElement, SchemaFieldIds, NarrowSchemaField);
    if fields.Err? {
      return Err(fields.error);
    }
    return Ok(SdkSchema(Some(fields.value)));
  }

  lemma NoneIsBad()
    ensures FirstBad([]).None?
  {
  }

  /** The ids of a spec, in the order the payload is built. */
  function SpecIds(s: TableSpec): seq<Id>
    requires Iceberg(s).Some? ==> NoNilElements(Iceberg(s).value)
  {
    if Iceberg(s).Some? then Ids(Iceberg(s).value) else []
  }

  function Iceberg(s: TableSpec): Option<IcebergMetadata> {
    if s.metadata.Some? then s.metadata.value.iceberg else None
  }

  /** The payload is built exactly when every present id fits 32 bits, and then carries the
      whole spec; otherwise the error names the first id out of range. */
  ghost predicate PayloadOf(s: TableSpec, r: Result<CreateTableInput>)
    requires Iceberg(s).Some? ==> NoNilElements(Iceberg(s).value)
  {
    && (r.Ok? <==> forall id :: id in SpecIds(s) ==> Fits(id.value))
    && (r.Err? ==>
          exists i :: 0 <= i < |SpecIds(s)| && !Fits(SpecIds(s)[i].value) &&
                      r == Err(OutOfRange(SpecIds(s)[i].field)) &&
                      forall j :: 0 <= j < i ==> Fits(SpecIds(s)[j].value))
    && (r.Ok? ==>
          && Iceberg(s).Some? == r.value.metadata.Some?
          && (Iceberg(s).Some? ==> Carries(Iceberg(s).value, r.value.metadata.value))
          && r.value.(metadata := None) == CreateTableInput(
               if s.encryption.Some? then
                 Some(SdkEncryption(s.encryption.value.kmsKeyARN, s.encryption.value.sseAlgorithm.GetOr(""))) else None,
               s.format.GetOr(""), None, s.name, s.namespace,
               if s.storageClass.Some? then Some(s.storageClass.value.storageClass.GetOr("")) else None,
               s.tableBucketARN, if s.tags.Some? then Some(ToAck(s.tags)) else None))
  }

  method NewCreateRequestPayload(s: TableSpec) returns (r: Result<CreateTableInput>)
    requires Iceberg(s).Some? ==> NoNilElements(Iceberg(s).value)
    ensures PayloadOf(s, r)
  {
    hide Carries, Ids;
    FirstBadIsFirst(SpecIds(s));
    assert (forall id :: id in SpecIds(s) ==> Fits(id.value)) <==> FirstBad(SpecIds(s)).None?;
    hide FirstBad;
    var res := CreateTableInput(None, "", None, None, None, None, None, None);
    if s.encryption.Some? {
      var config := SdkEncryption(s.encryption.value.kmsKeyARN, "");
      if s.encryption.value.sseAlgorithm.Some? {
        config := config.(sseAlgorithm := s.encryption.value.sseAlgorithm.value);
      }
      res := res.(encryption := Some(config));
    }
    if s.format.Some? {
      res := res.(format := s.format.value);
    }
    if s.metadata.Some? && s.metadata.value.iceberg.Some? {
      var iceberg := NarrowIceberg(s.metadata.value.iceberg.value);
      if iceberg.Err? {
        return Err(iceberg.error);
      }
      res := res.(metadata := Some(iceberg.value));
    }
    res := res.(name := s.name, namespace := s.namespace);
    if s.storageClass.Some? {
      res := res.(storageClass := Some(s.storageClass.value.storageClass.GetOr("")));
    }
    res := res.(tableBucketARN := s.tableBucketARN);
    if s.tags.Some? {
      res := res.(tags := Some(ToAck(s.tags)));
    }
    return Ok(res);
  }

  // ----- Nothing is lost -----

  lemma {:induction false} ElementsFit<A>(fields: seq<Option<A>>, ids: A -> seq<Id>, i: nat)
    requires None !in fields && i < |fields|
    requires FirstBad(ListIds(fields, ids)).None?
    ensures fields[i].Some? && FirstBad(ids(fields[i].value)).None?
  {
    assert fields[i] in fields;
    var n := |fields| - 1;
    FirstBadAppend(ListIds(fields[..n], ids), ids(fields[n].value));
    if i < n {
      ElementsFit(fields[..n], ids, i);
    }
  }

  ghost predicate SameId(declared: Option<int64>, sent: Option<int32>) {
    if declared.None? then sent.None? else sent.Some? && sent.value as int == declared.value as int
  }

  ghost predicate SamePartitionField(f: PartitionField, g: SdkPartitionField) {
    SameId(f.fieldID, g.fieldId) && g.name == f.name && SameId(f.sourceID, g.sourceId) && g.transform == f.transform
  }

  ghost predicate SameSchemaField(f: SchemaField, g: SdkSchemaField) {
    && SameId(f.id, g.id) && g.name == f.name && g.fieldType == f.fieldType
    && g.required == (f.required.Some? && f.required.value)
  }

  ghost predicate SameSortField(f: SortField, g: SdkSortField) {
    && g.direction == (if f.direction.Some? then f.direction.value else "")
    && g.nullOrder == (if f.nullOrder.Some? then f.nullOrder.value else "")
    && SameId(f.sourceID, g.sourceId) && g.transform == f.transform
  }

  /** A payload that is built at all has every list, at every position every field, and every id
      with its exact value; nil is told apart from empty. */
  lemma PayloadIsExact(m: IcebergMetadata, out: SdkIceberg)
    requires NoNilElements(m) && Carries(m, out) && FirstBad(Ids(m)).None?
    ensures m.partitionSpec.None? <==> out.partitionSpec.None?
    ensures m.partitionSpec.Some? ==> PartitionIs(m.partitionSpec.value, out.partitionSpec.value)
    ensures m.properties.None? <==> out.properties.None?
    ensures m.properties.Some? ==>
      && out.properties.value.Keys == m.properties.value.Keys
      && forall k :: k in m.properties.value ==>
           out.properties.value[k] == if m.properties.value[k].Some? then m.properties.value[k].value else ""
    ensures m.schema.None? <==> out.schema.None?
    ensures m.schema.Some? ==> SchemaIs(m.schema.value, out.schema.value)
    ensures m.writeOrder.None? <==> out.writeOrder.None?
    ensures m.writeOrder.Some? ==> SortOrderIs(m.writeOrder.value, out.writeOrder.value)
  {
    var ids1 := if m.partitionSpec.Some? then PartitionSpecIds(m.partitionSpec.value) else [];
    var ids2 := if m.schema.Some? then ListIds(m.schema.value.fields.GetOr([]), SchemaFieldIds) else [];
    var ids3 := if m.writeOrder.Some? then SortOrderIds(m.writeOrder.value) else [];
    FirstBadAppend(ids1 + ids2, ids3);
    FirstBadAppend(ids1, ids2);
    if m.partitionSpec.Some? {
      PartitionIsExact(m.partitionSpec.value, out.partitionSpec.value);
    }
    if m.schema.Some? {
      SchemaIsExact(m.schema.value, out.schema.value);
    }
    if m.writeOrder.Some? {
      SortOrderIsExact(m.writeOrder.value, out.writeOrder.value);
    }
    hide PartitionIs, SchemaIs, SortOrderIs, PartitionSpecIds, SortOrderIds, ListIds, EachOptional;
  }

  ghost predicate PartitionIs(p: PartitionSpec, out: SdkPartitionSpec) {
    && SameId(p.specID, out.specId)
    && (p.fields.None? <==> out.fields.None?)
    && (p.fields.Some? ==>
          && |out.fields.value| == |p.fields.value|
          && forall i :: 0 <= i < |p.fields.value| ==>
               p.fields.value[i].Some? && SamePartitionField(p.fields.value[i].value, out.fields.value[i]))
  }

  ghost predicate SchemaIs(s: Schema, out: SdkSchema) {
    && (s.fields.None? <==> out.fields.None?)
    && (s.fields.Some? ==>
          && |out.fields.value| == |s.fields.value|
          && forall i :: 0 <= i < |s.fields.value| ==>
               s.fields.value[i].Some? && SameSchemaField(s.fields.value[i].value, out.fields.value[i]))
  }

  ghost predicate SortOrderIs(o: SortOrder, out: SdkSortOrder) {
    && SameId(o.orderID, out.orderId)
    && (o.fields.None? <==> out.fields.None?)
    && (o.fields.Some? ==>
          && |out.fields.value| == |o.fields.value|
          && forall i :: 0 <= i < |o.fields.value| ==>
               o.fields.value[i].Some? && SameSortField(o.fields.value[i].value, out.fields.value[i]))
  }

  lemma FittingIdsAreExact(field: string, v: Option<int64>)
    requires FirstBad(Present(field, v)).None?
    ensures SameId(v, NarrowId(v))
  {
  }

  lemma PartitionIsExact(p: PartitionSpec, out: SdkPartitionSpec)
    requires None !in p.fields.GetOr([]) && FirstBad(PartitionSpecIds(p)).None?
    requires EachOptional(p.fields, out.fields, NarrowPartitionField) && out.specId == NarrowId(p.specID)
    ensures PartitionIs(p, out)
  {
    var fields := p.fields.GetOr([]);
    FirstBadAppend(ListIds(fields, PartitionFieldIds), Present("specId", p.specID));
    FittingIdsAreExact("specId", p.specID);
    forall i | 0 <= i < |fields|
      ensures fields[i].Some? && SamePartitionField(fields[i].value, NarrowPartitionField(fields[i].value))
    {
      ElementsFit(fields, PartitionFieldIds, i);
      var f := fields[i].value;
      FirstBadAppend(Present("fieldId", f.fieldID), Present("sourceId", f.sourceID));
      FittingIdsAreExact("fieldId", f.fieldID);
      FittingIdsAreExact("sourceId", f.sourceID);
    }
  }

  lemma SchemaIsExact(s: Schema, out: SdkSchema)
    requires None !in s.fields.GetOr([]) && FirstBad(ListIds(s.fields.GetOr([]), SchemaFieldIds)).None?
    requires EachOptional(s.fields, out.fields, NarrowSchemaField)
    ensures SchemaIs(s, out)
  {
    var fields := s.fields.GetOr([]);
    forall i | 0 <= i < |fields|
      ensures fields[i].Some? && SameSchemaField(fields[i].value, NarrowSchemaField(fields[i].value))
    {
      ElementsFit(fields, SchemaFieldIds, i);
      FittingIdsAreExact("id", fields[i].value.id);
    }
  }

  lemma SortOrderIsExact(o: SortOrder, out: SdkSortOrder)
    requires None !in o.fields.GetOr([]) && FirstBad(SortOrderIds(o)).None?
    requires EachOptional(o.fields, out.fields, NarrowSortField) && out.orderId == NarrowId(o.orderID)
    ensures SortOrderIs(o, out)
  {
    var fields := o.fields.GetOr([]);
    FirstBadAppend(ListIds(fields, SortFieldIds), Present("orderId", o.orderID));
    FittingIdsAreExact("orderId", o.orderID);
    forall i | 0 <= i < |fields|
      ensures fields[i].Some? && SameSortField(fields[i].value, NarrowSortField(fields[i].value))
    {
      ElementsFit(fields, SortFieldIds, i);
      FittingIdsAreExact("sourceId", fields[i].value.sourceID);
    }
  }

  /** The rest of a payload, field by field. */
  lemma PayloadCarriesSpec(s: TableSpec, r: Result<CreateTableInput>)
    requires Iceberg(s).Some? ==> NoNilElements(Iceberg(s).value)
    requires PayloadOf(s, r) && r.Ok?
    ensures r.value.name == s.name && r.value.namespace == s.namespace && r.value.tableBucketARN == s.tableBucketARN
    ensures r.value.format == if s.format.Some? then s.format.value else ""
    ensures s.encryption.None? <==> r.value.encryption.None?
    ensures s.encryption.Some? ==>
      && r.value.encryption.value.kmsKeyArn == s.encryption.value.kmsKeyARN
      && r.value.encryption.value.sseAlgorithm ==
         (if s.encryption.value.sseAlgorithm.Some? then s.encryption.value.sseAlgorithm.value else "")
    ensures s.storageClass.None? <==> r.value.storageClass.None?
    ensures s.storageClass.Some? ==>
      r.value.storageClass.value ==
      if s.storageClass.value.storageClass.Some? then s.storageClass.value.storageClass.value else ""
    ensures s.tags.None? <==> r.value.tags.None?
    ensures s.tags.Some? ==>
      && r.value.tags.value.Keys == s.tags.value.Keys
      && forall k :: k in s.tags.value ==>
           r.value.tags.value[k] == if s.tags.value[k].Some? then s.tags.value[k].value else ""
    ensures (s.metadata.Some? && s.metadata.value.iceberg.Some?) <==> r.value.metadata.Some?
    ensures s.metadata.Some? && s.metadata.value.iceberg.Some? ==>
      var m := s.metadata.value.iceberg.value; Carries(m, r.value.metadata.value) && FirstBad(Ids(m)).None?
  {
    hide Carries, Ids, FirstBad;
    FirstBadIsFirst(SpecIds(s));
  }

  // ----- Which id an error names -----

  predicate FitsIfPresent(v: Option<int64>) {
    v.Some? ==> -0x8000_0000 <= v.value as int <= 0x7FFF_FFFF
  }

  predicate PartitionFieldFits(f: PartitionField) {
    FitsIfPresent(f.fieldID) && FitsIfPresent(f.sourceID)
  }

  /** Element i is the first that does not fit. */
  ghost predicate FirstMisfit<A>(fields: seq<Option<A>>, i: nat, fits: A -> bool)
    requires None !in fields
  {
    i < |fields| && !fits(fields[i].value) && forall j :: 0 <= j < i ==> fits(fields[j].value)
  }

  lemma {:induction false} ListError<A>(fields: seq<Option<A>>, ids: A -> seq<Id>, fits: A -> bool)
    requires None !in fields
    requires forall a: A :: fits(a) <==> FirstBad(ids(a)).None?
    ensures FirstBad(ListIds(fields, ids)).None? <==> forall i :: 0 <= i < |fields| ==> fits(fields[i].value)
    ensures FirstBad(ListIds(fields, ids)).Some? ==>
      exists i: nat :: FirstMisfit(fields, i, fits) && FirstBad(ListIds(fields, ids)) == FirstBad(ids(fields[i].value))
  {
    hide FirstBad;
    if fields == [] {
      NoneIsBad();
    } else {
      var n := |fields| - 1;
      var init := fields[..n];
      ListError(init, ids, fits);
      FirstBadAppend(ListIds(init, ids), ids(fields[n].value));
      if FirstBad(ListIds(init, ids)).Some? {
        var i: nat :| FirstMisfit(init, i, fits) && FirstBad(ListIds(init, ids)) == FirstBad(ids(init[i].value));
        assert FirstMisfit(fields, i, fits);
      } else if !fits(fields[n].value) {
        assert FirstMisfit(fields, n, fits);
      }
    }
  }

  lemma PartitionFieldError(f: PartitionField)
    ensures PartitionFieldFits(f) <==> FirstBad(PartitionFieldIds(f)).None?
    ensures !PartitionFieldFits(f) ==>
      FirstBad(PartitionFieldIds(f)) == Some(if FitsIfPresent(f.fieldID) then "sourceId" else "fieldId")
  {
    FirstBadAppend(Present("fieldId", f.fieldID), Present("sourceId", f.sourceID));
  }

  lemma PartitionError(p: PartitionSpec)
    requires None !in p.fields.GetOr([])
    ensures var fields := p.fields.GetOr([]);
            match FirstBad(PartitionSpecIds(p))
            case None => (forall f :: f in fields ==> PartitionFieldFits(f.value)) && FitsIfPresent(p.specID)
            case Some(name) =>
              if forall f :: f in fields ==> PartitionFieldFits(f.value)
              then name == "specId" && !FitsIfPresent(p.specID)
              else exists i: nat ::
                FirstMisfit(fields, i, PartitionFieldFits) &&
                name == if FitsIfPresent(fields[i].value.fieldID) then "sourceId" else "fieldId"
  {
    var fields := p.fields.GetOr([]);
    FirstBadAppend(ListIds(fields, PartitionFieldIds), Present("specId", p.specID));
    forall f
      ensures PartitionFieldFits(f) <==> FirstBad(PartitionFieldIds(f)).None?
      ensures !PartitionFieldFits(f) ==>
        FirstBad(PartitionFieldIds(f)) == Some(if FitsIfPresent(f.fieldID) then "sourceId" else "fieldId")
    {
      PartitionFieldError(f);
    }
    ListError(fields, PartitionFieldIds, PartitionFieldFits);
    hide PartitionFieldFits, PartitionFieldIds, ListIds;
  }

  predicate SchemaFieldFits(f: SchemaField) {
    FitsIfPresent(f.id)
  }

  predicate SortFieldFits(f: SortField) {
    FitsIfPresent(f.sourceID)
  }

  lemma SchemaError(s: Schema)
    requires None !in s.fields.GetOr([])
    ensures var bad := FirstBad(ListIds(s.fields.GetOr([]), SchemaFieldIds));
            if forall f :: f in s.fields.GetOr([]) ==> FitsIfPresent(f.value.id) then bad.None? else bad == Some("id")
  {
    ListError(s.fields.GetOr([]), SchemaFieldIds, SchemaFieldFits);
  }

  lemma SortOrderError(o: SortOrder)
    requires None !in o.fields.GetOr([])
    ensures var bad := FirstBad(SortOrderIds(o));
            if !forall f :: f in o.fields.GetOr([]) ==> FitsIfPresent(f.value.sourceID) then bad == Some("sourceId")
            else if !FitsIfPresent(o.orderID) then bad == Some("orderId")
            else bad.None?
  {
    var fields := o.fields.GetOr([]);
    FirstBadAppend(ListIds(fields, SortFieldIds), Present("orderId", o.orderID));
    ListError(fields, SortFieldIds, SortFieldFits);
  }

  /** An error is about the partition spec if anything there does not fit, else about the schema,
      else about the write order; inside each about the first field that does not fit, and about
      the spec or order id only if all fields fit. */
  lemma ErrorNamesFirst(s: TableSpec, r: Result<CreateTableInput>)
    requires Iceberg(s).Some? ==> NoNilElements(Iceberg(s).value)
    requires PayloadOf(s, r) && r.Err?
    ensures Iceberg(s).Some?
    ensures var m := Iceberg(s).value;
            exists name ::
              && r.error == PlainError("error: field " + name + " is of type int32")
              && var inPartition :=
                   if m.partitionSpec.Some? then FirstBad(PartitionSpecIds(m.partitionSpec.value)) else None;
                 if inPartition.Some? then name == inPartition.value
                 else if m.schema.Some? &&
                         exists f :: f in m.schema.value.fields.GetOr([]) && !FitsIfPresent(f.value.id)
                 then name == "id"
                 else m.writeOrder.Some? &&
                      name == if exists f :: f in m.writeOrder.value.fields.GetOr([]) &&
                                             !FitsIfPresent(f.value.sourceID)
                              then "sourceId" else "orderId"
  {
    var m := Iceberg(s).value;
    FirstBadIsFirst(SpecIds(s));
    var ids1 := if m.partitionSpec.Some? then PartitionSpecIds(m.partitionSpec.value) else [];
    var ids2 := if m.schema.Some? then ListIds(m.schema.value.fields.GetOr([]), SchemaFieldIds) else [];
    var ids3 := if m.writeOrder.Some? then SortOrderIds(m.writeOrder.value) else [];
    FirstBadAppend(ids1 + ids2, ids3);
    FirstBadAppend(ids1, ids2);
    NoneIsBad();
    if m.schema.Some? {
      SchemaError(m.schema.value);
    }
    if m.writeOrder.Some? {
      SortOrderError(m.writeOrder.value);
    }
    hide PartitionSpecIds, SortOrderIds, ListIds, FirstBad, Carries, FitsIfPresent;
    assert FirstBad(SpecIds(s)).Some?;
    assert r.error == OutOfRange(FirstBad(SpecIds(s)).value);
  }

  // ----- sdkCreate -----

  const REQUEUE := PlainError("Reconciling to sync additional fields")
  const REQUEUE_MESSAGE := "table created, requeue for updates"

  /** sdkCreate, given the service's answer to each CreateTable request: nothing is sent unless
      the payload can be built; the ARN and version token are recorded; and a declared metadata
      location, which CreateTable cannot carry, makes it ask for a requeue with the object marked
      as not synced. The ghost result is the payload. */
  method SdkCreate(
    rm: M.ResourceManager, desired: M.Resource, answer: CreateTableInput -> Result<(string, Option<string>)>)
    returns (created: M.Resource?, err: Option<Error>, ghost input: Result<CreateTableInput>)
    requires Iceberg(desired.spec).Some? ==> NoNilElements(Iceberg(desired.spec).value)
    ensures PayloadOf(desired.spec, input)
    ensures input.Err? ==> created == null && err == Some(input.error)
    ensures input.Ok? && answer(input.value).Err? ==> created == null && err == Some(answer(input.value).error)
    ensures input.Ok? && answer(input.value).Ok? ==>
      && created != null && fresh(created) && created.spec == desired.spec
      && err == (if desired.spec.metadataLocation.Some? then Some(REQUEUE) else None)
      && var (arn, token) := answer(input.value).value;
         var md := desired.status.metadata.GetOr(ResourceMetadata(None, None, None, None)).(arn := Some(arn));
         var status := WithDefaults(rm.cfg, desired.status.(metadata := Some(md), versionToken := token));
         created.status == status.(conditions := Some(
           if desired.spec.metadataLocation.Some?
           then C.Set(status.conditions.value, CondSynced, StatusFalse, Some(REQUEUE_MESSAGE))
           else status.conditions.value))
  {
    hide PayloadOf;
    var payload := NewCreateRequestPayload(desired.spec);
    input := payload;
    if payload.Err? {
      return null, Some(payload.error), input;
    }
    var reply := answer(payload.value);
    if reply.Err? {
      return null, Some(reply.error), input;
    }
    var (arn, token) := reply.value;
    var ko := desired.DeepCopy();
    if ko.status.metadata.None? {
      ko.status := ko.status.(metadata := Some(ResourceMetadata(None, None, None, None)));
    }
    ko.status := ko.status.(metadata := Some(ko.status.metadata.value.(arn := Some(arn))));
    ko.status := ko.status.(versionToken := token);
    rm.SetStatusDefaults(ko);
    if desired.spec.metadataLocation.Some? {
      var conditions := C.SetCondition(ko.status.conditions.value, CondSynced, StatusFalse, Some(REQUEUE_MESSAGE));
      ko.status := ko.status.(conditions := Some(conditions));
      return ko, Some(REQUEUE), input;
    }
    return ko, None, input;
  }
}
