/** newResourceDelta for Tables (pkg/resource/table/delta.go): nested branches over arbitrary
    Iceberg metadata, and the equivalence relation they decide. */
module TableDelta {
  import opened Types
  import opened Tags
  import D = Delta

  // ----- What the comparison ignores -----

  function NormalList<T>(fields: Option<seq<T>>): Option<seq<T>> {
    Some(fields.GetOr([]))
  }

  function NormalMetadata(m: Option<TableMetadata>): Option<TableMetadata> {
    if m.None? || m.value.iceberg.None? then m
    else
      var i := m.value.iceberg.value;
      Some(TableMetadata(Some(IcebergMetadata(
        NormalPartition(i.partitionSpec), Some(Entries(i.properties)), NormalSchema(i.schema),
        NormalOrder(i.writeOrder)))))
  }

  function NormalPartition(p: Option<PartitionSpec>): Option<PartitionSpec> {
    if p.None? then None else Some(PartitionSpec(NormalList(p.value.fields), p.value.specID))
  }

  function NormalSchema(s: Option<Schema>): Option<Schema> {
    if s.None? then None else Some(Schema(NormalList(s.value.fields)))
  }

  function NormalOrder(o: Option<SortOrder>): Option<SortOrder> {
    if o.None? then None else Some(SortOrder(NormalList(o.value.fields), o.value.orderID))
  }

  function NormalEncryption(e: Option<EncryptionConfiguration>): Option<EncryptionConfiguration> {
    if e.None? then None else Some(e.value.(kmsKeyRef := None))
  }

  /** A spec up to what newResourceDelta does not look at: nil against empty lists and maps,
      nil against "" tag values, and the KMS key reference. */
  function Normal(s: TableSpec): TableSpec {
    s.(encryption := NormalEncryption(s.encryption),
       metadata := NormalMetadata(s.metadata),
       tags := FromAck(ToAck(s.tags)))
  }

  ghost function When(f: D.Segment, differs: bool): set<D.Segment> {
    if differs then {f} else {}
  }

  /** The top-level fields at which two tables differ. */
  ghost function Differences(a: TableSpec, b: TableSpec): set<D.Segment> {
    ContentDifferences(a, b) + PlacementDifferences(a, b)
  }

  ghost function ContentDifferences(a: TableSpec, b: TableSpec): set<D.Segment> {
    When(D.EncryptionConfiguration, D.EncryptionDiffers(a.encryption, b.encryption)) +
    When(D.Format, a.format != b.format) +
    When(D.Metadata, NormalMetadata(a.metadata) != NormalMetadata(b.metadata)) +
    When(D.MetadataLocation, a.metadataLocation != b.metadataLocation) +
    When(D.Name, a.name != b.name)
  }

  ghost function PlacementDifferences(a: TableSpec, b: TableSpec): set<D.Segment> {
    When(D.Namespace, a.namespace != b.namespace) +
    When(D.NamespaceRef, a.namespaceRef != b.namespaceRef) +
    When(D.StorageClassConfiguration, a.storageClass != b.storageClass) +
    When(D.TableBucketARN, a.tableBucketARN != b.tableBucketARN) +
    When(D.TableBucketRef, a.tableBucketRef != b.tableBucketRef) +
    When(D.Tags, ToAck(a.tags) != ToAck(b.tags))
  }

  predicate At(delta: D.Delta, f: D.Segment) {
    D.DifferentAt(delta, [D.Spec, f])
  }

  ghost function FieldsIn(delta: D.Delta): set<D.Segment> {
    set f: D.Segment | At(delta, f)
  }

  /** Recording a difference below `f` shows at `f` and nowhere else. */
  lemma RecordAdds(delta: D.Delta, r: D.Delta, f: D.Segment, differs: bool)
    requires D.Records(delta, r, [D.Spec, f], differs)
    ensures FieldsIn(r) == FieldsIn(delta) + When(f, differs)
    ensures r == [] <==> delta == [] && When(f, differs) == {}
  {
    forall g: D.Segment
      ensures At(r, g) <==> At(delta, g) || (differs && g == f)
    {
      AddsAt(delta, r, f, differs, g);
    }
    hide At;
  }

  lemma AddsAt(delta: D.Delta, r: D.Delta, f: D.Segment, differs: bool, g: D.Segment)
    requires D.Records(delta, r, [D.Spec, f], differs)
    ensures At(r, g) <==> At(delta, g) || (differs && g == f)
  {
    D.RecordedAt(delta, r, [D.Spec, f], differs);
    hide D.DifferentAt, D.Records;
    var q := [D.Spec, g];
    assert |q| == 2 && q[1] == g && [D.Spec, f][1] == f;
  }

  // ----- Code -----

  /** Lists are compared by length, and element by element when they are not empty. */
  method CompareLists<T(==)>(delta: D.Delta, path: D.Path, a: Option<seq<T>>, b: Option<seq<T>>) returns (r: D.Delta)
    ensures D.Records(delta, r, path, NormalList(a) != NormalList(b))
  {
    r := delta;
    var xs, ys := a.GetOr([]), b.GetOr([]);
    if |xs| != |ys| {
      r := D.Add(r, path);
    } else if |xs| > 0 {
      if xs != ys {
        r := D.Add(r, path);
      }
    }
  }

  method CompareProperties(delta: D.Delta, path: D.Path, a: PtrMap<string>, b: PtrMap<string>) returns (r: D.Delta)
    ensures D.Records(delta, r, path, Entries(a) != Entries(b))
  {
    r := delta;
    if |Entries(a)| != |Entries(b)| {
      r := D.Add(r, path);
    } else if |Entries(a)| > 0 {
      if Entries(a) != Entries(b) {
        r := D.Add(r, path);
      }
    }
  }

  const METADATA: D.Path := [D.Spec, D.Metadata]
  const ICEBERG: D.Path := METADATA + [D.Iceberg]

  method ComparePartition(delta: D.Delta, a: Option<PartitionSpec>, b: Option<PartitionSpec>) returns (r: D.Delta)
    ensures D.Records(delta, r, METADATA, NormalPartition(a) != NormalPartition(b))
  {
    var path := ICEBERG + [D.PartitionSpec];
    r := delta;
    if a.Some? != b.Some? {
      r := D.Add(r, path);
    } else if a.Some? && b.Some? {
      var r1 := CompareLists(delta, path + [D.Fields], a.value.fields, b.value.fields);
      r := D.ComparePointers(r1, path + [D.SpecID], a.value.specID, b.value.specID);
      D.RecordsHigher(delta, r1, path + [D.Fields], METADATA, NormalList(a.value.fields) != NormalList(b.value.fields));
      D.RecordsBoth(delta, r1, r, METADATA, NormalList(a.value.fields) != NormalList(b.value.fields),
                    a.value.specID != b.value.specID);
    }
  }

  method CompareSchema(delta: D.Delta, a: Option<Schema>, b: Option<Schema>) returns (r: D.Delta)
    ensures D.Records(delta, r, METADATA, NormalSchema(a) != NormalSchema(b))
  {
    var path := ICEBERG + [D.Schema];
    r := delta;
    if a.Some? != b.Some? {
      r := D.Add(r, path);
    } else if a.Some? && b.Some? {
      r := CompareLists(r, path + [D.Fields], a.value.fields, b.value.fields);
      D.RecordsHigher(delta, r, path + [D.Fields], METADATA, NormalList(a.value.fields) != NormalList(b.value.fields));
    }
  }

  method CompareOrder(delta: D.Delta, a: Option<SortOrder>, b: Option<SortOrder>) returns (r: D.Delta)
    ensures D.Records(delta, r, METADATA, NormalOrder(a) != NormalOrder(b))
  {
    var path := ICEBERG + [D.WriteOrder];
    r := delta;
    if a.Some? != b.Some? {
      r := D.Add(r, path);
    } else if a.Some? && b.Some? {
      var r1 := CompareLists(delta, path + [D.Fields], a.value.fields, b.value.fields);
      r := D.ComparePointers(r1, path + [D.OrderID], a.value.orderID, b.value.orderID);
      D.RecordsHigher(delta, r1, path + [D.Fields], METADATA, NormalList(a.value.fields) != NormalList(b.value.fields));
      D.RecordsBoth(delta, r1, r, METADATA, NormalList(a.value.fields) != NormalList(b.value.fields),
                    a.value.orderID != b.value.orderID);
    }
  }

  method CompareMetadata(delta: D.Delta, a: Option<TableMetadata>, b: Option<TableMetadata>) returns (r: D.Delta)
    ensures D.Records(delta, r, METADATA, NormalMetadata(a) != NormalMetadata(b))
  {
    r := delta;
    if a.Some? != b.Some? {
      r := D.Add(r, METADATA);
    } else if a.Some? && b.Some? {
      if a.value.iceberg.Some? != b.value.iceberg.Some? {
        r := D.Add(r, ICEBERG);
      } else if a.value.iceberg.Some? && b.value.iceberg.Some? {
        var ia, ib := a.value.iceberg.value, b.value.iceberg.value;
        var r1 := ComparePartition(delta, ia.partitionSpec, ib.partitionSpec);
        var r2 := CompareProperties(r1, ICEBERG + [D.Properties], ia.properties, ib.properties);
        var r3 := CompareSchema(r2, ia.schema, ib.schema);
        r := CompareOrder(r3, ia.writeOrder, ib.writeOrder);
        ghost var c1, c2 := NormalPartition(ia.partitionSpec) != NormalPartition(ib.partitionSpec),
                            Entries(ia.properties) != Entries(ib.properties);
        D.RecordsHigher(r1, r2, ICEBERG + [D.Properties], METADATA, c2);
        ghost var c3 := NormalSchema(ia.schema) != NormalSchema(ib.schema);
        D.RecordsBoth(delta, r1, r2, METADATA, c1, c2);
        D.RecordsBoth(delta, r2, r3, METADATA, c1 || c2, c3);
        D.RecordsBoth(delta, r3, r, METADATA, c1 || c2 || c3, NormalOrder(ia.writeOrder) != NormalOrder(ib.writeOrder));
      }
    }
  }

  method NewResourceDelta(a: TableSpec, b: TableSpec) returns (delta: D.Delta)
    ensures FieldsIn(delta) == Differences(a, b)
    ensures delta == [] <==> Normal(a) == Normal(b)
  {
    NoDifference(a, b);
    NothingRecorded();
    hide ContentDifferences, PlacementDifferences, FieldsIn, Normal;
    delta := [];
    delta := CompareContent(delta, a, b);
    delta := ComparePlacement(delta, a, b);
  }

  /** newResourceDelta, from the encryption configuration to the name. */
  method CompareContent(d0: D.Delta, a: TableSpec, b: TableSpec) returns (r: D.Delta)
    ensures FieldsIn(r) == FieldsIn(d0) + ContentDifferences(a, b)
    ensures r == [] <==> d0 == [] && ContentDifferences(a, b) == {}
  {
    hide D.Records, D.AddIf, NormalMetadata, D.EncryptionDiffers, FieldsIn, When;
    var d1 := D.CompareEncryption(d0, [D.Spec, D.EncryptionConfiguration], a.encryption, b.encryption);
    RecordAdds(d0, d1, D.EncryptionConfiguration, D.EncryptionDiffers(a.encryption, b.encryption));
    var d2 := D.ComparePointers(d1, [D.Spec, D.Format], a.format, b.format);
    RecordAdds(d1, d2, D.Format, a.format != b.format);
    var d3 := CompareMetadata(d2, a.metadata, b.metadata);
    RecordAdds(d2, d3, D.Metadata, NormalMetadata(a.metadata) != NormalMetadata(b.metadata));
    var d4 := D.ComparePointers(d3, [D.Spec, D.MetadataLocation], a.metadataLocation, b.metadataLocation);
    RecordAdds(d3, d4, D.MetadataLocation, a.metadataLocation != b.metadataLocation);
    r := D.ComparePointers(d4, [D.Spec, D.Name], a.name, b.name);
    RecordAdds(d4, r, D.Name, a.name != b.name);
  }

  /** newResourceDelta, from the namespace to the tags. */
  method ComparePlacement(d0: D.Delta, a: TableSpec, b: TableSpec) returns (r: D.Delta)
    ensures FieldsIn(r) == FieldsIn(d0) + PlacementDifferences(a, b)
    ensures r == [] <==> d0 == [] && PlacementDifferences(a, b) == {}
  {
    hide D.Records, D.AddIf, FieldsIn, When, ToAck;
    var d1 := D.ComparePointers(d0, [D.Spec, D.Namespace], a.namespace, b.namespace);
    RecordAdds(d0, d1, D.Namespace, a.namespace != b.namespace);
    var d2 := D.AddIf(d1, [D.Spec, D.NamespaceRef], a.namespaceRef != b.namespaceRef);
    RecordAdds(d1, d2, D.NamespaceRef, a.namespaceRef != b.namespaceRef);
    var d3 := D.CompareStorageClass(d2, [D.Spec, D.StorageClassConfiguration], a.storageClass, b.storageClass);
    RecordAdds(d2, d3, D.StorageClassConfiguration, a.storageClass != b.storageClass);
    var d4 := D.ComparePointers(d3, [D.Spec, D.TableBucketARN], a.tableBucketARN, b.tableBucketARN);
    RecordAdds(d3, d4, D.TableBucketARN, a.tableBucketARN != b.tableBucketARN);
    var d5 := D.AddIf(d4, [D.Spec, D.TableBucketRef], a.tableBucketRef != b.tableBucketRef);
    RecordAdds(d4, d5, D.TableBucketRef, a.tableBucketRef != b.tableBucketRef);
    var desiredTags, _ := ConvertToOrderedACKTags(a.tags);
    var latestTags, _ := ConvertToOrderedACKTags(b.tags);
    r := D.AddIf(d5, [D.Spec, D.Tags], desiredTags.m != latestTags.m);
    RecordAdds(d5, r, D.Tags, ToAck(a.tags) != ToAck(b.tags));
  }

  lemma NothingRecorded()
    ensures FieldsIn([]) == {}
  {
  }

  lemma InContent(a: TableSpec, b: TableSpec)
    ensures D.Name in ContentDifferences(a, b) <==> a.name != b.name
    ensures D.MetadataLocation in ContentDifferences(a, b) <==> a.metadataLocation != b.metadataLocation
    ensures D.Tags !in ContentDifferences(a, b)
  {
    hide D.EncryptionDiffers, NormalMetadata;
  }

  lemma InPlacement(a: TableSpec, b: TableSpec)
    ensures D.Tags in PlacementDifferences(a, b) <==> ToAck(a.tags) != ToAck(b.tags)
    ensures D.Name !in PlacementDifferences(a, b) && D.MetadataLocation !in PlacementDifferences(a, b)
  {
    hide ToAck;
  }

  lemma InDifferences(a: TableSpec, b: TableSpec)
    ensures D.Name in Differences(a, b) <==> a.name != b.name
    ensures D.MetadataLocation in Differences(a, b) <==> a.metadataLocation != b.metadataLocation
    ensures D.Tags in Differences(a, b) <==> ToAck(a.tags) != ToAck(b.tags)
  {
    InContent(a, b);
    InPlacement(a, b);
    hide ContentDifferences, PlacementDifferences, ToAck;
  }

  /** No field differs exactly when the two specs are equal up to normalisation. */
  lemma NoDifference(a: TableSpec, b: TableSpec)
    ensures Differences(a, b) == {} <==> Normal(a) == Normal(b)
    ensures Differences(a, b) == {} <==>
      && !D.EncryptionDiffers(a.encryption, b.encryption) && a.format == b.format
      && NormalMetadata(a.metadata) == NormalMetadata(b.metadata) && a.metadataLocation == b.metadataLocation
      && a.name == b.name && a.namespace == b.namespace && a.namespaceRef == b.namespaceRef
      && a.storageClass == b.storageClass && a.tableBucketARN == b.tableBucketARN
      && a.tableBucketRef == b.tableBucketRef && ToAck(a.tags) == ToAck(b.tags)
  {
    FromAckToAck(ToAck(a.tags));
    FromAckToAck(ToAck(b.tags));
    hide NormalMetadata, ToAck, FromAck;
    if Differences(a, b) == {} {
      assert D.EncryptionConfiguration !in Differences(a, b) && D.Format !in Differences(a, b);
      assert D.Metadata !in Differences(a, b) && D.MetadataLocation !in Differences(a, b);
      assert D.Name !in Differences(a, b) && D.Namespace !in Differences(a, b) && D.NamespaceRef !in Differences(a, b);
      assert D.StorageClassConfiguration !in Differences(a, b) && D.TableBucketARN !in Differences(a, b);
      assert D.TableBucketRef !in Differences(a, b) && D.Tags !in Differences(a, b);
    }
  }

  /** "No delta" is an equivalence relation. */
  lemma NoDeltaIsAnEquivalence(a: TableSpec, b: TableSpec, c: TableSpec)
    ensures Differences(a, a) == {}
    ensures Differences(a, b) == {} <==> Differences(b, a) == {}
    ensures Differences(a, b) == {} && Differences(b, c) == {} ==> Differences(a, c) == {}
  {
    NoDifference(a, a);
    NoDifference(a, b);
    NoDifference(b, a);
    NoDifference(b, c);
    NoDifference(a, c);
    hide Differences, Normal;
  }
}
