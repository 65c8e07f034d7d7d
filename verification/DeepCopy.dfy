/** The generated deep copies (apis/v1alpha1/zz_generated.deepcopy.go), on the heap.

    A pointer to a struct is a cell holding the struct's value, a slice is an array of cells, a
    map is a cell holding a map to cells; each may be null. `Shows(x, S)` says that a struct stays
    within the objects `S`, following every pointer, and that what it shows is `x`, a value of
    module Types with nil kept apart from empty. Nothing is asked about sharing inside the
    original. A copy shows the same value within objects that are all fresh, so nothing reachable
    from it is shared with anything that existed before. */
module DeepCopy {
  import opened Types

  type Objects = set<object>

  /** What a Go pointer points at. */
  class Box<T> {
    var v: T

    constructor (v: T)
      ensures this.v == v
    {
      this.v := v;
    }
  }

  /** `p` stays within `S` and shows `x`: nil for `None`, otherwise a cell of `S` holding the value. */
  ghost predicate Holds<T(!new)>(p: Box?<T>, x: Option<T>, S: Objects)
    reads S
  {
    if p == null then x.None? else p in S && x == Some(p.v)
  }

  method CopyPointer<T(!new)>(p: Box?<T>, ghost x: Option<T>, ghost S: Objects)
    returns (q: Box?<T>, ghost R: Objects)
    requires Holds(p, x, S)
    ensures Holds(q, x, R) && fresh(R)
  {
    if p == null {
      return null, {};
    }
    q := new Box(p.v);
    R := {q};
  }

  lemma Grow<T(!new)>(p: Box?<T>, x: Option<T>, S: Objects, T: Objects)
    requires Holds(p, x, S) && S <= T
    ensures Holds(p, x, T)
  {
  }

  datatype Reference = Reference(name: Box?<string>, namespace: Box?<string>) {
    ghost predicate Shows(x: Types.Reference, S: Objects)
      reads S
    {
      && Holds(name, x.name, S)
      && Holds(namespace, x.namespace, S)
    }
  }

  ghost predicate ShowsReference(p: Box?<Reference>, x: Option<Types.Reference>, S: Objects)
    reads S
  {
    if p == null then x.None? else p in S && x.Some? && p.v.Shows(x.value, S)
  }

  lemma GrowReference(p: Box?<Reference>, x: Option<Types.Reference>, S: Objects, T: Objects)
    requires ShowsReference(p, x, S) && S <= T
    ensures ShowsReference(p, x, T)
  {
  }

  method DeepCopyReference(src: Box?<Reference>, ghost x: Option<Types.Reference>, ghost S: Objects)
    returns (dst: Box?<Reference>, ghost R: Objects)
    requires ShowsReference(src, x, S)
    ensures ShowsReference(dst, x, R) && fresh(R)
  {
    hide Holds;
    if src == null {
      return null, {};
    }
    var name, R1 := CopyPointer(src.v.name, x.value.name, S);
    var namespace, R2 := CopyPointer(src.v.namespace, x.value.namespace, S);
    dst := new Box(src.v.(name := name, namespace := namespace));
    R := {dst} + R1 + R2;
    Grow(name, x.value.name, R1, R);
    Grow(namespace, x.value.namespace, R2, R);
  }

  datatype ReferenceWrapper = ReferenceWrapper(from: Box?<Reference>) {
    ghost predicate Shows(x: Types.ReferenceWrapper, S: Objects)
      reads S
    {
      && ShowsReference(from, x.from, S)
    }
  }

  ghost predicate ShowsReferenceWrapper(p: Box?<ReferenceWrapper>, x: Option<Types.ReferenceWrapper>, S: Objects)
    reads S
  {
    if p == null then x.None? else p in S && x.Some? && p.v.Shows(x.value, S)
  }

  lemma GrowReferenceWrapper(p: Box?<ReferenceWrapper>, x: Option<Types.ReferenceWrapper>, S: Objects, T: Objects)
    requires ShowsReferenceWrapper(p, x, S) && S <= T
    ensures ShowsReferenceWrapper(p, x, T)
  {
  }

  method DeepCopyReferenceWrapper(
    src: Box?<ReferenceWrapper>, ghost x: Option<Types.ReferenceWrapper>, ghost S: Objects)
    returns (dst: Box?<ReferenceWrapper>, ghost R: Objects)
    requires ShowsReferenceWrapper(src, x, S)
    ensures ShowsReferenceWrapper(dst, x, R) && fresh(R)
  {
    hide ShowsReference;
    if src == null {
      return null, {};
    }
    var from, R1 := DeepCopyReference(src.v.from, x.value.from, S);
    dst := new Box(src.v.(from := from));
    R := {dst} + R1;
    GrowReference(from, x.value.from, R1, R);
  }

  datatype EncryptionConfiguration = EncryptionConfiguration(
    kmsKeyARN: Box?<string>, kmsKeyRef: Box?<ReferenceWrapper>, sseAlgorithm: Box?<string>)
  {
    ghost predicate Shows(x: Types.EncryptionConfiguration, S: Objects)
      reads S
    {
      && Holds(kmsKeyARN, x.kmsKeyARN, S)
      && ShowsReferenceWrapper(kmsKeyRef, x.kmsKeyRef, S)
      && Holds(sseAlgorithm, x.sseAlgorithm, S)
    }
  }

  ghost predicate ShowsEncryption(
    p: Box?<EncryptionConfiguration>, x: Option<Types.EncryptionConfiguration>, S: Objects)
    reads S
  {
    if p == null then x.None? else p in S && x.Some? && p.v.Shows(x.value, S)
  }

  lemma GrowEncryption(
    p: Box?<EncryptionConfiguration>, x: Option<Types.EncryptionConfiguration>, S: Objects, T: Objects)
    requires ShowsEncryption(p, x, S) && S <= T
    ensures ShowsEncryption(p, x, T)
  {
  }

  method DeepCopyEncryption(
    src: Box?<EncryptionConfiguration>, ghost x: Option<Types.EncryptionConfiguration>, ghost S: Objects)
    returns (dst: Box?<EncryptionConfiguration>, ghost R: Objects)
    requires ShowsEncryption(src, x, S)
    ensures ShowsEncryption(dst, x, R) && fresh(R)
  {
    hide Holds, ShowsReferenceWrapper;
    if src == null {
      return null, {};
    }
    var kmsKeyARN, R1 := CopyPointer(src.v.kmsKeyARN, x.value.kmsKeyARN, S);
    var kmsKeyRef, R2 := DeepCopyReferenceWrapper(src.v.kmsKeyRef, x.value.kmsKeyRef, S);
    var sseAlgorithm, R3 := CopyPointer(src.v.sseAlgorithm, x.value.sseAlgorithm, S);
    dst := new Box(src.v.(kmsKeyARN := kmsKeyARN, kmsKeyRef := kmsKeyRef, sseAlgorithm := sseAlgorithm));
    R := {dst} + R1 + R2 + R3;
    Grow(kmsKeyARN, x.value.kmsKeyARN, R1, R);
    GrowReferenceWrapper(kmsKeyRef, x.value.kmsKeyRef, R2, R);
    Grow(sseAlgorithm, x.value.sseAlgorithm, R3, R);
  }

  datatype StorageClassConfiguration = StorageClassConfiguration(storageClass: Box?<string>) {
    ghost predicate Shows(x: Types.StorageClassConfiguration, S: Objects)
      reads S
    {
      && Holds(storageClass, x.storageClass, S)
    }
  }

  ghost predicate ShowsStorageClass(
    p: Box?<StorageClassConfiguration>, x: Option<Types.StorageClassConfiguration>, S: Objects)
    reads S
  {
    if p == null then x.None? else p in S && x.Some? && p.v.Shows(x.value, S)
  }

  lemma GrowStorageClass(
    p: Box?<StorageClassConfiguration>, x: Option<Types.StorageClassConfiguration>, S: Objects, T: Objects)
    requires ShowsStorageClass(p, x, S) && S <= T
    ensures ShowsStorageClass(p, x, T)
  {
  }

  method DeepCopyStorageClass(
    src: Box?<StorageClassConfiguration>, ghost x: Option<Types.StorageClassConfiguration>, ghost S: Objects)
    returns (dst: Box?<StorageClassConfiguration>, ghost R: Objects)
    requires ShowsStorageClass(src, x, S)
    ensures ShowsStorageClass(dst, x, R) && fresh(R)
  {
    hide Holds;
    if src == null {
      return null, {};
    }
    var storageClass, R1 := CopyPointer(src.v.storageClass, x.value.storageClass, S);
    dst := new Box(src.v.(storageClass := storageClass));
    R := {dst} + R1;
    Grow(storageClass, x.value.storageClass, R1, R);
  }

  ghost predicate ShowsStrings(m: Box?<map<string, Box?<string>>>, xs: PtrMap<string>, S: Objects)
    reads S
  {
    && (m == null <==> xs.None?)
    && (m != null ==>
          && m in S
          && m.v.Keys == xs.value.Keys
          && forall k :: k in m.v ==> Holds(m.v[k], xs.value[k], S))
  }

  lemma GrowStrings(m: Box?<map<string, Box?<string>>>, xs: PtrMap<string>, S: Objects, T: Objects)
    requires ShowsStrings(m, xs, S) && S <= T
    ensures ShowsStrings(m, xs, T)
  {
  }

  method DeepCopyStrings(src: Box?<map<string, Box?<string>>>, ghost xs: PtrMap<string>, ghost S: Objects)
    returns (dst: Box?<map<string, Box?<string>>>, ghost R: Objects)
    requires ShowsStrings(src, xs, S)
    ensures ShowsStrings(dst, xs, R) && fresh(R)
  {
    hide Holds;
    if src == null {
      return null, {};
    }
    dst := new Box(map[]);
    R := {};
    var order := RangeKeys(src.v);
    for i := 0 to |order|
      invariant fresh(R) && dst !in R
      invariant forall k :: k in dst.v <==> k in order[..i]
      invariant forall k :: k in dst.v ==> Holds(dst.v[k], xs.value[k], R)
    {
      var key := order[i];
      var entry, R1 := CopyPointer(src.v[key], xs.value[key], S);
      forall k | k in dst.v
        ensures Holds(dst.v[k], xs.value[k], R + R1)
      {
        Grow(dst.v[k], xs.value[k], R, R + R1);
      }
      Grow(entry, xs.value[key], R1, R + R1);
      dst.v := dst.v[key := entry];
      R := R + R1;
    }
    forall k | k in dst.v
      ensures Holds(dst.v[k], xs.value[k], R + {dst})
    {
      Grow(dst.v[k], xs.value[k], R, R + {dst});
    }
    R := R + {dst};
  }

  // ----- Table metadata -----

  datatype PartitionField = PartitionField(
    fieldID: Box?<int64>, name: Box?<string>, sourceID: Box?<int64>, transform: Box?<string>)
  {
    ghost predicate Shows(x: Types.PartitionField, S: Objects)
      reads S
    {
      && Holds(fieldID, x.fieldID, S)
      && Holds(name, x.name, S)
      && Holds(sourceID, x.sourceID, S)
      && Holds(transform, x.transform, S)
    }
  }

  ghost predicate ShowsPartitionField(p: Box?<PartitionField>, x: Option<Types.PartitionField>, S: Objects)
    reads S
  {
    if p == null then x.None? else p in S && x.Some? && p.v.Shows(x.value, S)
  }

  lemma GrowPartitionField(p: Box?<PartitionField>, x: Option<Types.PartitionField>, S: Objects, T: Objects)
    requires ShowsPartitionField(p, x, S) && S <= T
    ensures ShowsPartitionField(p, x, T)
  {
  }

  method DeepCopyPartitionField(src: Box?<PartitionField>, ghost x: Option<Types.PartitionField>, ghost S: Objects)
    returns (dst: Box?<PartitionField>, ghost R: Objects)
    requires ShowsPartitionField(src, x, S)
    ensures ShowsPartitionField(dst, x, R) && fresh(R)
  {
    hide Holds;
    if src == null {
      return null, {};
    }
    var fieldID, R1 := CopyPointer(src.v.fieldID, x.value.fieldID, S);
    var name, R2 := CopyPointer(src.v.name, x.value.name, S);
    var sourceID, R3 := CopyPointer(src.v.sourceID, x.value.sourceID, S);
    var transform, R4 := CopyPointer(src.v.transform, x.value.transform, S);
    dst := new Box(src.v.(fieldID := fieldID, name := name, sourceID := sourceID, transform := transform));
    R := {dst} + R1 + R2 + R3 + R4;
    Grow(fieldID, x.value.fieldID, R1, R);
    Grow(name, x.value.name, R2, R);
    Grow(sourceID, x.value.sourceID, R3, R);
    Grow(transform, x.value.transform, R4, R);
  }

  ghost predicate ShowsPartitionFields(
    a: array?<Box?<PartitionField>>, xs: Option<seq<Option<Types.PartitionField>>>, S: Objects)
    reads S
  {
    && (a == null <==> xs.None?)
    && (a != null ==>
          && a in S
          && a.Length == |xs.value|
          && forall i :: 0 <= i < a.Length ==> ShowsPartitionField(a[i], xs.value[i], S))
  }

  lemma GrowPartitionFields(
    a: array?<Box?<PartitionField>>, xs: Option<seq<Option<Types.PartitionField>>>, S: Objects, T: Objects)
    requires ShowsPartitionFields(a, xs, S) && S <= T
    ensures ShowsPartitionFields(a, xs, T)
  {
  }

  method DeepCopyPartitionFields(
    src: array?<Box?<PartitionField>>, ghost xs: Option<seq<Option<Types.PartitionField>>>, ghost S: Objects)
    returns (dst: array?<Box?<PartitionField>>, ghost R: Objects)
    requires ShowsPartitionFields(src, xs, S)
    ensures ShowsPartitionFields(dst, xs, R) && fresh(R)
  {
    hide ShowsPartitionField;
    if src == null {
      return null, {};
    }
    dst := new Box?<PartitionField>[src.Length](_ => null);
    R := {};
    for i := 0 to src.Length
      invariant fresh(R) && dst !in R
      invariant forall j :: 0 <= j < i ==> ShowsPartitionField(dst[j], xs.value[j], R)
    {
      var entry, R1 := DeepCopyPartitionField(src[i], xs.value[i], S);
      dst[i] := entry;
      forall j | 0 <= j < i
        ensures ShowsPartitionField(dst[j], xs.value[j], R + R1)
      {
        GrowPartitionField(dst[j], xs.value[j], R, R + R1);
      }
      GrowPartitionField(entry, xs.value[i], R1, R + R1);
      R := R + R1;
    }
    forall j | 0 <= j < dst.Length
      ensures ShowsPartitionField(dst[j], xs.value[j], R + {dst})
    {
      GrowPartitionField(dst[j], xs.value[j], R, R + {dst});
    }
    R := R + {dst};
  }

  datatype PartitionSpec = PartitionSpec(fields: array?<Box?<PartitionField>>, specID: Box?<int64>) {
    ghost predicate Shows(x: Types.PartitionSpec, S: Objects)
      reads S
    {
      && ShowsPartitionFields(fields, x.fields, S)
      && Holds(specID, x.specID, S)
    }
  }

  ghost predicate ShowsPartitionSpec(p: Box?<PartitionSpec>, x: Option<Types.PartitionSpec>, S: Objects)
    reads S
  {
    if p == null then x.None? else p in S && x.Some? && p.v.Shows(x.value, S)
  }

  lemma GrowPartitionSpec(p: Box?<PartitionSpec>, x: Option<Types.PartitionSpec>, S: Objects, T: Objects)
    requires ShowsPartitionSpec(p, x, S) && S <= T
    ensures ShowsPartitionSpec(p, x, T)
  {
  }

  method DeepCopyPartitionSpec(src: Box?<PartitionSpec>, ghost x: Option<Types.PartitionSpec>, ghost S: Objects)
    returns (dst: Box?<PartitionSpec>, ghost R: Objects)
    requires ShowsPartitionSpec(src, x, S)
    ensures ShowsPartitionSpec(dst, x, R) && fresh(R)
  {
    hide Holds, ShowsPartitionFields;
    if src == null {
      return null, {};
    }
    var fields, R1 := DeepCopyPartitionFields(src.v.fields, x.value.fields, S);
    var specID, R2 := CopyPointer(src.v.specID, x.value.specID, S);
    dst := new Box(src.v.(fields := fields, specID := specID));
    R := {dst} + R1 + R2;
    GrowPartitionFields(fields, x.value.fields, R1, R);
    Grow(specID, x.value.specID, R2, R);
  }

  datatype SchemaField = SchemaField(
    id: Box?<int64>, name: Box?<string>, required: Box?<bool>, fieldType: Box?<string>)
  {
    ghost predicate Shows(x: Types.SchemaField, S: Objects)
      reads S
    {
      && Holds(id, x.id, S)
      && Holds(name, x.name, S)
      && Holds(required, x.required, S)
      && Holds(fieldType, x.fieldType, S)
    }
  }

  ghost predicate ShowsSchemaField(p: Box?<SchemaField>, x: Option<Types.SchemaField>, S: Objects)
    reads S
  {
    if p == null then x.None? else p in S && x.Some? && p.v.Shows(x.value, S)
  }

  lemma GrowSchemaField(p: Box?<SchemaField>, x: Option<Types.SchemaField>, S: Objects, T: Objects)
    requires ShowsSchemaField(p, x, S) && S <= T
    ensures ShowsSchemaField(p, x, T)
  {
  }

  method DeepCopySchemaField(src: Box?<SchemaField>, ghost x: Option<Types.SchemaField>, ghost S: Objects)
    returns (dst: Box?<SchemaField>, ghost R: Objects)
    requires ShowsSchemaField(src, x, S)
    ensures ShowsSchemaField(dst, x, R) && fresh(R)
  {
    hide Holds;
    if src == null {
      return null, {};
    }
    var id, R1 := CopyPointer(src.v.id, x.value.id, S);
    var name, R2 := CopyPointer(src.v.name, x.value.name, S);
    var required, R3 := CopyPointer(src.v.required, x.value.required, S);
    var fieldType, R4 := CopyPointer(src.v.fieldType, x.value.fieldType, S);
    dst := new Box(src.v.(id := id, name := name, required := required, fieldType := fieldType));
    R := {dst} + R1 + R2 + R3 + R4;
    Grow(id, x.value.id, R1, R);
    Grow(name, x.value.name, R2, R);
    Grow(required, x.value.required, R3, R);
    Grow(fieldType, x.value.fieldType, R4, R);
  }

  ghost predicate ShowsSchemaFields(
    a: array?<Box?<SchemaField>>, xs: Option<seq<Option<Types.SchemaField>>>, S: Objects)
    reads S
  {
    && (a == null <==> xs.None?)
    && (a != null ==>
          && a in S
          && a.Length == |xs.value|
          && forall i :: 0 <= i < a.Length ==> ShowsSchemaField(a[i], xs.value[i], S))
  }

  lemma GrowSchemaFields(
    a: array?<Box?<SchemaField>>, xs: Option<seq<Option<Types.SchemaField>>>, S: Objects, T: Objects)
    requires ShowsSchemaFields(a, xs, S) && S <= T
    ensures ShowsSchemaFields(a, xs, T)
  {
  }

  method DeepCopySchemaFields(
    src: array?<Box?<SchemaField>>, ghost xs: Option<seq<Option<Types.SchemaField>>>, ghost S: Objects)
    returns (dst: array?<Box?<SchemaField>>, ghost R: Objects)
    requires ShowsSchemaFields(src, xs, S)
    ensures ShowsSchemaFields(dst, xs, R) && fresh(R)
  {
    hide ShowsSchemaField;
    if src == null {
      return null, {};
    }
    dst := new Box?<SchemaField>[src.Length](_ => null);
    R := {};
    for i := 0 to src.Length
      invariant fresh(R) && dst !in R
      invariant forall j :: 0 <= j < i ==> ShowsSchemaField(dst[j], xs.value[j], R)
    {
      var entry, R1 := DeepCopySchemaField(src[i], xs.value[i], S);
      dst[i] := entry;
      forall j | 0 <= j < i
        ensures ShowsSchemaField(dst[j], xs.value[j], R + R1)
      {
        GrowSchemaField(dst[j], xs.value[j], R, R + R1);
      }
      GrowSchemaField(entry, xs.value[i], R1, R + R1);
      R := R + R1;
    }
    forall j | 0 <= j < dst.Length
      ensures ShowsSchemaField(dst[j], xs.value[j], R + {dst})
    {
      GrowSchemaField(dst[j], xs.value[j], R, R + {dst});
    }
    R := R + {dst};
  }

  datatype Schema = Schema(fields: array?<Box?<SchemaField>>) {
    ghost predicate Shows(x: Types.Schema, S: Objects)
      reads S
    {
      && ShowsSchemaFields(fields, x.fields, S)
    }
  }

  ghost predicate ShowsSchema(p: Box?<Schema>, x: Option<Types.Schema>, S: Objects)
    reads S
  {
    if p == null then x.None? else p in S && x.Some? && p.v.Shows(x.value, S)
  }

  lemma GrowSchema(p: Box?<Schema>, x: Option<Types.Schema>, S: Objects, T: Objects)
    requires ShowsSchema(p, x, S) && S <= T
    ensures ShowsSchema(p, x, T)
  {
  }

  method DeepCopySchema(src: Box?<Schema>, ghost x: Option<Types.Schema>, ghost S: Objects)
    returns (dst: Box?<Schema>, ghost R: Objects)
    requires ShowsSchema(src, x, S)
    ensures ShowsSchema(dst, x, R) && fresh(R)
  {
    hide ShowsSchemaFields;
    if src == null {
      return null, {};
    }
    var fields, R1 := DeepCopySchemaFields(src.v.fields, x.value.fields, S);
    dst := new Box(src.v.(fields := fields));
    R := {dst} + R1;
    GrowSchemaFields(fields, x.value.fields, R1, R);
  }

  datatype SortField = SortField(
    direction: Box?<string>, nullOrder: Box?<string>, sourceID: Box?<int64>, transform: Box?<string>)
  {
    ghost predicate Shows(x: Types.SortField, S: Objects)
      reads S
    {
      && Holds(direction, x.direction, S)
      && Holds(nullOrder, x.nullOrder, S)
      && Holds(sourceID, x.sourceID, S)
      && Holds(transform, x.transform, S)
    }
  }

  ghost predicate ShowsSortField(p: Box?<SortField>, x: Option<Types.SortField>, S: Objects)
    reads S
  {
    if p == null then x.None? else p in S && x.Some? && p.v.Shows(x.value, S)
  }

  lemma GrowSortField(p: Box?<SortField>, x: Option<Types.SortField>, S: Objects, T: Objects)
    requires ShowsSortField(p, x, S) && S <= T
    ensures ShowsSortField(p, x, T)
  {
  }

  method DeepCopySortField(src: Box?<SortField>, ghost x: Option<Types.SortField>, ghost S: Objects)
    returns (dst: Box?<SortField>, ghost R: Objects)
    requires ShowsSortField(src, x, S)
    ensures ShowsSortField(dst, x, R) && fresh(R)
  {
    hide Holds;
    if src == null {
      return null, {};
    }
    var direction, R1 := CopyPointer(src.v.direction, x.value.direction, S);
    var nullOrder, R2 := CopyPointer(src.v.nullOrder, x.value.nullOrder, S);
    var sourceID, R3 := CopyPointer(src.v.sourceID, x.value.sourceID, S);
    var transform, R4 := CopyPointer(src.v.transform, x.value.transform, S);
    dst := new Box(src.v.(
      direction := direction, nullOrder := nullOrder, sourceID := sourceID, transform := transform));
    R := {dst} + R1 + R2 + R3 + R4;
    Grow(direction, x.value.direction, R1, R);
    Grow(nullOrder, x.value.nullOrder, R2, R);
    Grow(sourceID, x.value.sourceID, R3, R);
    Grow(transform, x.value.transform, R4, R);
  }

  ghost predicate ShowsSortFields(a: array?<Box?<SortField>>, xs: Option<seq<Option<Types.SortField>>>, S: Objects)
    reads S
  {
    && (a == null <==> xs.None?)
    && (a != null ==>
          && a in S
          && a.Length == |xs.value|
          && forall i :: 0 <= i < a.Length ==> ShowsSortField(a[i], xs.value[i], S))
  }

  lemma GrowSortFields(a: array?<Box?<SortField>>, xs: Option<seq<Option<Types.SortField>>>, S: Objects, T: Objects)
    requires ShowsSortFields(a, xs, S) && S <= T
    ensures ShowsSortFields(a, xs, T)
  {
  }

  method DeepCopySortFields(
    src: array?<Box?<SortField>>, ghost xs: Option<seq<Option<Types.SortField>>>, ghost S: Objects)
    returns (dst: array?<Box?<SortField>>, ghost R: Objects)
    requires ShowsSortFields(src, xs, S)
    ensures ShowsSortFields(dst, xs, R) && fresh(R)
  {
    hide ShowsSortField;
    if src == null {
      return null, {};
    }
    dst := new Box?<SortField>[src.Length](_ => null);
    R := {};
    for i := 0 to src.Length
      invariant fresh(R) && dst !in R
      invariant forall j :: 0 <= j < i ==> ShowsSortField(dst[j], xs.value[j], R)
    {
      var entry, R1 := DeepCopySortField(src[i], xs.value[i], S);
      dst[i] := entry;
      forall j | 0 <= j < i
        ensures ShowsSortField(dst[j], xs.value[j], R + R1)
      {
        GrowSortField(dst[j], xs.value[j], R, R + R1);
      }
      GrowSortField(entry, xs.value[i], R1, R + R1);
      R := R + R1;
    }
    forall j | 0 <= j < dst.Length
      ensures ShowsSortField(dst[j], xs.value[j], R + {dst})
    {
      GrowSortField(dst[j], xs.value[j], R, R + {dst});
    }
    R := R + {dst};
  }

  datatype SortOrder = SortOrder(fields: array?<Box?<SortField>>, orderID: Box?<int64>) {
    ghost predicate Shows(x: Types.SortOrder, S: Objects)
      reads S
    {
      && ShowsSortFields(fields, x.fields, S)
      && Holds(orderID, x.orderID, S)
    }
  }

  ghost predicate ShowsSortOrder(p: Box?<SortOrder>, x: Option<Types.SortOrder>, S: Objects)
    reads S
  {
    if p == null then x.None? else p in S && x.Some? && p.v.Shows(x.value, S)
  }

  lemma GrowSortOrder(p: Box?<SortOrder>, x: Option<Types.SortOrder>, S: Objects, T: Objects)
    requires ShowsSortOrder(p, x, S) && S <= T
    ensures ShowsSortOrder(p, x, T)
  {
  }

  method DeepCopySortOrder(src: Box?<SortOrder>, ghost x: Option<Types.SortOrder>, ghost S: Objects)
    returns (dst: Box?<SortOrder>, ghost R: Objects)
    requires ShowsSortOrder(src, x, S)
    ensures ShowsSortOrder(dst, x, R) && fresh(R)
  {
    hide Holds, ShowsSortFields;
    if src == null {
      return null, {};
    }
    var fields, R1 := DeepCopySortFields(src.v.fields, x.value.fields, S);
    var orderID, R2 := CopyPointer(src.v.orderID, x.value.orderID, S);
    dst := new Box(src.v.(fields := fields, orderID := orderID));
    R := {dst} + R1 + R2;
    GrowSortFields(fields, x.value.fields, R1, R);
    Grow(orderID, x.value.orderID, R2, R);
  }

  datatype IcebergMetadata = IcebergMetadata(
    partitionSpec: Box?<PartitionSpec>,
    properties: Box?<map<string, Box?<string>>>,
    schema: Box?<Schema>,
    writeOrder: Box?<SortOrder>)
  {
    ghost predicate Shows(x: Types.IcebergMetadata, S: Objects)
      reads S
    {
      && ShowsPartitionSpec(partitionSpec, x.partitionSpec, S)
      && ShowsStrings(properties, x.properties, S)
      && ShowsSchema(schema, x.schema, S)
      && ShowsSortOrder(writeOrder, x.writeOrder, S)
    }
  }

  ghost predicate ShowsIcebergMetadata(p: Box?<IcebergMetadata>, x: Option<Types.IcebergMetadata>, S: Objects)
    reads S
  {
    if p == null then x.None? else p in S && x.Some? && p.v.Shows(x.value, S)
  }

  lemma GrowIcebergMetadata(p: Box?<IcebergMetadata>, x: Option<Types.IcebergMetadata>, S: Objects, T: Objects)
    requires ShowsIcebergMetadata(p, x, S) && S <= T
    ensures ShowsIcebergMetadata(p, x, T)
  {
    hide ShowsPartitionSpec, ShowsSchema, ShowsSortOrder, ShowsStrings;
    if p != null {
      GrowPartitionSpec(p.v.partitionSpec, x.value.partitionSpec, S, T);
      GrowStrings(p.v.properties, x.value.properties, S, T);
      GrowSchema(p.v.schema, x.value.schema, S, T);
      GrowSortOrder(p.v.writeOrder, x.value.writeOrder, S, T);
    }
  }

  method CopyLayout(src: IcebergMetadata, ghost x: Types.IcebergMetadata, ghost S: Objects)
    returns (partitionSpec: Box?<PartitionSpec>, schema: Box?<Schema>, ghost R: Objects)
    requires src.Shows(x, S)
    ensures ShowsPartitionSpec(partitionSpec, x.partitionSpec, R)
    ensures ShowsSchema(schema, x.schema, R)
    ensures fresh(R)
  {
    hide ShowsPartitionSpec, ShowsSchema;
    ghost var R1;
    partitionSpec, R1 := DeepCopyPartitionSpec(src.partitionSpec, x.partitionSpec, S);
    ghost var R2;
    schema, R2 := DeepCopySchema(src.schema, x.schema, S);
    R := R1 + R2;
    GrowPartitionSpec(partitionSpec, x.partitionSpec, R1, R);
    GrowSchema(schema, x.schema, R2, R);
  }

  method CopyOrderAndProperties(src: IcebergMetadata, ghost x: Types.IcebergMetadata, ghost S: Objects)
    returns (writeOrder: Box?<SortOrder>, properties: Box?<map<string, Box?<string>>>, ghost R: Objects)
    requires src.Shows(x, S)
    ensures ShowsSortOrder(writeOrder, x.writeOrder, R)
    ensures ShowsStrings(properties, x.properties, R)
    ensures fresh(R)
  {
    hide ShowsSortOrder, ShowsStrings;
    ghost var R1;
    writeOrder, R1 := DeepCopySortOrder(src.writeOrder, x.writeOrder, S);
    ghost var R2;
    properties, R2 := DeepCopyStrings(src.properties, x.properties, S);
    R := R1 + R2;
    GrowSortOrder(writeOrder, x.writeOrder, R1, R);
    GrowStrings(properties, x.properties, R2, R);
  }

  method DeepCopyIcebergMetadata(src: Box?<IcebergMetadata>, ghost x: Option<Types.IcebergMetadata>, ghost S: Objects)
    returns (dst: Box?<IcebergMetadata>, ghost R: Objects)
    requires ShowsIcebergMetadata(src, x, S)
    ensures ShowsIcebergMetadata(dst, x, R) && fresh(R)
  {
    hide ShowsPartitionSpec, ShowsSchema, ShowsSortOrder, ShowsStrings;
    if src == null {
      return null, {};
    }
    var partitionSpec, schema, R1 := CopyLayout(src.v, x.value, S);
    var writeOrder, properties, R2 := CopyOrderAndProperties(src.v, x.value, S);
    dst := new Box(src.v.(
      partitionSpec := partitionSpec, properties := properties, schema := schema, writeOrder := writeOrder));
    R := {dst} + R1 + R2;
    GrowPartitionSpec(partitionSpec, x.value.partitionSpec, R1, R);
    GrowSchema(schema, x.value.schema, R1, R);
    GrowSortOrder(writeOrder, x.value.writeOrder, R2, R);
    GrowStrings(properties, x.value.properties, R2, R);
  }

  datatype TableMetadata = TableMetadata(iceberg: Box?<IcebergMetadata>) {
    ghost predicate Shows(x: Types.TableMetadata, S: Objects)
      reads S
    {
      && ShowsIcebergMetadata(iceberg, x.iceberg, S)
    }
  }

  ghost predicate ShowsTableMetadata(p: Box?<TableMetadata>, x: Option<Types.TableMetadata>, S: Objects)
    reads S
  {
    if p == null then x.None? else p in S && x.Some? && p.v.Shows(x.value, S)
  }

  lemma GrowTableMetadata(p: Box?<TableMetadata>, x: Option<Types.TableMetadata>, S: Objects, T: Objects)
    requires ShowsTableMetadata(p, x, S) && S <= T
    ensures ShowsTableMetadata(p, x, T)
  {
    hide ShowsIcebergMetadata;
    if p != null {
      GrowIcebergMetadata(p.v.iceberg, x.value.iceberg, S, T);
    }
  }

  method DeepCopyTableMetadata(src: Box?<TableMetadata>, ghost x: Option<Types.TableMetadata>, ghost S: Objects)
    returns (dst: Box?<TableMetadata>, ghost R: Objects)
    requires ShowsTableMetadata(src, x, S)
    ensures ShowsTableMetadata(dst, x, R) && fresh(R)
  {
    hide ShowsIcebergMetadata;
    if src == null {
      return null, {};
    }
    var iceberg, R1 := DeepCopyIcebergMetadata(src.v.iceberg, x.value.iceberg, S);
    dst := new Box(src.v.(iceberg := iceberg));
    R := {dst} + R1;
    GrowIcebergMetadata(iceberg, x.value.iceberg, R1, R);
  }

  datatype TableSpec = TableSpec(
    encryption: Box?<EncryptionConfiguration>,
    format: Box?<string>,
    metadata: Box?<TableMetadata>,
    metadataLocation: Box?<string>,
    name: Box?<string>,
    namespace: Box?<string>,
    namespaceRef: Box?<ReferenceWrapper>,
    storageClass: Box?<StorageClassConfiguration>,
    tableBucketARN: Box?<string>,
    tableBucketRef: Box?<ReferenceWrapper>,
    tags: Box?<map<string, Box?<string>>>)
  {
    ghost predicate Shows(x: Types.TableSpec, S: Objects)
      reads S
    {
      && ShowsEncryption(encryption, x.encryption, S)
      && Holds(format, x.format, S)
      && ShowsTableMetadata(metadata, x.metadata, S)
      && Holds(metadataLocation, x.metadataLocation, S)
      && Holds(name, x.name, S)
      && Holds(namespace, x.namespace, S)
      && ShowsReferenceWrapper(namespaceRef, x.namespaceRef, S)
      && ShowsStorageClass(storageClass, x.storageClass, S)
      && Holds(tableBucketARN, x.tableBucketARN, S)
      && ShowsReferenceWrapper(tableBucketRef, x.tableBucketRef, S)
      && ShowsStrings(tags, x.tags, S)
    }
  }

  ghost predicate ShowsTableSpec(p: Box?<TableSpec>, x: Option<Types.TableSpec>, S: Objects)
    reads S
  {
    if p == null then x.None? else p in S && x.Some? && p.v.Shows(x.value, S)
  }

  lemma GrowSpec(s: TableSpec, x: Types.TableSpec, S: Objects, T: Objects)
    requires s.Shows(x, S) && S <= T
    ensures s.Shows(x, T)
  {
    hide Holds, ShowsEncryption, ShowsReferenceWrapper, ShowsStorageClass, ShowsStrings, ShowsTableMetadata;
    GrowEncryption(s.encryption, x.encryption, S, T);
    Grow(s.format, x.format, S, T);
    GrowTableMetadata(s.metadata, x.metadata, S, T);
    Grow(s.metadataLocation, x.metadataLocation, S, T);
    Grow(s.name, x.name, S, T);
    Grow(s.namespace, x.namespace, S, T);
    GrowReferenceWrapper(s.namespaceRef, x.namespaceRef, S, T);
    GrowStorageClass(s.storageClass, x.storageClass, S, T);
    Grow(s.tableBucketARN, x.tableBucketARN, S, T);
    GrowReferenceWrapper(s.tableBucketRef, x.tableBucketRef, S, T);
    GrowStrings(s.tags, x.tags, S, T);
  }

  lemma GrowTableSpec(p: Box?<TableSpec>, x: Option<Types.TableSpec>, S: Objects, T: Objects)
    requires ShowsTableSpec(p, x, S) && S <= T
    ensures ShowsTableSpec(p, x, T)
  {
    hide TableSpec.Shows;
    if p != null {
      GrowSpec(p.v, x.value, S, T);
    }
  }

  method CopyTexts(src: TableSpec, ghost x: Types.TableSpec, ghost S: Objects)
    returns (
      format: Box?<string>, metadataLocation: Box?<string>, name: Box?<string>, namespace: Box?<string>,
      tableBucketARN: Box?<string>, ghost R: Objects)
    requires src.Shows(x, S)
    ensures Holds(format, x.format, R)
    ensures Holds(metadataLocation, x.metadataLocation, R)
    ensures Holds(name, x.name, R)
    ensures Holds(namespace, x.namespace, R)
    ensures Holds(tableBucketARN, x.tableBucketARN, R)
    ensures fresh(R)
  {
    hide Holds;
    ghost var R1;
    format, R1 := CopyPointer(src.format, x.format, S);
    ghost var R2;
    metadataLocation, R2 := CopyPointer(src.metadataLocation, x.metadataLocation, S);
    ghost var R3;
    name, R3 := CopyPointer(src.name, x.name, S);
    ghost var R4;
    namespace, R4 := CopyPointer(src.namespace, x.namespace, S);
    ghost var R5;
    tableBucketARN, R5 := CopyPointer(src.tableBucketARN, x.tableBucketARN, S);
    R := R1 + R2 + R3 + R4 + R5;
    Grow(format, x.format, R1, R);
    Grow(metadataLocation, x.metadataLocation, R2, R);
    Grow(name, x.name, R3, R);
    Grow(namespace, x.namespace, R4, R);
    Grow(tableBucketARN, x.tableBucketARN, R5, R);
  }

  method CopyReferences(src: TableSpec, ghost x: Types.TableSpec, ghost S: Objects)
    returns (namespaceRef: Box?<ReferenceWrapper>, tableBucketRef: Box?<ReferenceWrapper>, ghost R: Objects)
    requires src.Shows(x, S)
    ensures ShowsReferenceWrapper(namespaceRef, x.namespaceRef, R)
    ensures ShowsReferenceWrapper(tableBucketRef, x.tableBucketRef, R)
    ensures fresh(R)
  {
    hide ShowsReferenceWrapper;
    ghost var R1;
    namespaceRef, R1 := DeepCopyReferenceWrapper(src.namespaceRef, x.namespaceRef, S);
    ghost var R2;
    tableBucketRef, R2 := DeepCopyReferenceWrapper(src.tableBucketRef, x.tableBucketRef, S);
    R := R1 + R2;
    GrowReferenceWrapper(namespaceRef, x.namespaceRef, R1, R);
    GrowReferenceWrapper(tableBucketRef, x.tableBucketRef, R2, R);
  }

  method CopyNested(src: TableSpec, ghost x: Types.TableSpec, ghost S: Objects)
    returns (
      encryption: Box?<EncryptionConfiguration>, metadata: Box?<TableMetadata>,
      storageClass: Box?<StorageClassConfiguration>, tags: Box?<map<string, Box?<string>>>, ghost R: Objects)
    requires src.Shows(x, S)
    ensures ShowsEncryption(encryption, x.encryption, R)
    ensures ShowsTableMetadata(metadata, x.metadata, R)
    ensures ShowsStorageClass(storageClass, x.storageClass, R)
    ensures ShowsStrings(tags, x.tags, R)
    ensures fresh(R)
  {
    hide ShowsEncryption, ShowsStorageClass, ShowsStrings, ShowsTableMetadata;
    ghost var R1;
    encryption, R1 := DeepCopyEncryption(src.encryption, x.encryption, S);
    ghost var R2;
    metadata, R2 := DeepCopyTableMetadata(src.metadata, x.metadata, S);
    ghost var R3;
    storageClass, R3 := DeepCopyStorageClass(src.storageClass, x.storageClass, S);
    ghost var R4;
    tags, R4 := DeepCopyStrings(src.tags, x.tags, S);
    R := R1 + R2 + R3 + R4;
    GrowEncryption(encryption, x.encryption, R1, R);
    GrowTableMetadata(metadata, x.metadata, R2, R);
    GrowStorageClass(storageClass, x.storageClass, R3, R);
    GrowStrings(tags, x.tags, R4, R);
  }

  method CopySpec(src: TableSpec, ghost x: Types.TableSpec, ghost S: Objects)
    returns (spec: TableSpec, ghost R: Objects)
    requires src.Shows(x, S)
    ensures spec.Shows(x, R) && fresh(R)
  {
    hide Holds, ShowsEncryption, ShowsReferenceWrapper, ShowsStorageClass, ShowsStrings, ShowsTableMetadata;
    var format, metadataLocation, name, namespace, tableBucketARN, R1 := CopyTexts(src, x, S);
    var namespaceRef, tableBucketRef, R2 := CopyReferences(src, x, S);
    var encryption, metadata, storageClass, tags, R3 := CopyNested(src, x, S);
    spec := src.(
      encryption := encryption, format := format, metadata := metadata, metadataLocation := metadataLocation,
      name := name, namespace := namespace, namespaceRef := namespaceRef, storageClass := storageClass,
      tableBucketARN := tableBucketARN, tableBucketRef := tableBucketRef, tags := tags);
    R := R1 + R2 + R3;
    Grow(format, x.format, R1, R);
    Grow(metadataLocation, x.metadataLocation, R1, R);
    Grow(name, x.name, R1, R);
    Grow(namespace, x.namespace, R1, R);
    Grow(tableBucketARN, x.tableBucketARN, R1, R);
    GrowReferenceWrapper(namespaceRef, x.namespaceRef, R2, R);
    GrowReferenceWrapper(tableBucketRef, x.tableBucketRef, R2, R);
    GrowEncryption(encryption, x.encryption, R3, R);
    GrowTableMetadata(metadata, x.metadata, R3, R);
    GrowStorageClass(storageClass, x.storageClass, R3, R);
    GrowStrings(tags, x.tags, R3, R);
  }

  method DeepCopyTableSpec(src: Box?<TableSpec>, ghost x: Option<Types.TableSpec>, ghost S: Objects)
    returns (dst: Box?<TableSpec>, ghost R: Objects)
    requires ShowsTableSpec(src, x, S)
    ensures ShowsTableSpec(dst, x, R) && fresh(R)
  {
    hide TableSpec.Shows;
    if src == null {
      return null, {};
    }
    var spec, R1 := CopySpec(src.v, x.value, S);
    dst := new Box(spec);
    R := {dst} + R1;
    GrowSpec(spec, x.value, R1, R);
  }

  // ----- Table buckets -----

  datatype IcebergRemovalSettings = IcebergRemovalSettings(
    nonCurrentDays: Box?<int64>, unreferencedDays: Box?<int64>)
  {
    ghost predicate Shows(x: Types.IcebergRemovalSettings, S: Objects)
      reads S
    {
      && Holds(nonCurrentDays, x.nonCurrentDays, S)
      && Holds(unreferencedDays, x.unreferencedDays, S)
    }
  }

  ghost predicate ShowsRemovalSettings(
    p: Box?<IcebergRemovalSettings>, x: Option<Types.IcebergRemovalSettings>, S: Objects)
    reads S
  {
    if p == null then x.None? else p in S && x.Some? && p.v.Shows(x.value, S)
  }

  lemma GrowRemovalSettings(
    p: Box?<IcebergRemovalSettings>, x: Option<Types.IcebergRemovalSettings>, S: Objects, T: Objects)
    requires ShowsRemovalSettings(p, x, S) && S <= T
    ensures ShowsRemovalSettings(p, x, T)
  {
  }

  method DeepCopyRemovalSettings(
    src: Box?<IcebergRemovalSettings>, ghost x: Option<Types.IcebergRemovalSettings>, ghost S: Objects)
    returns (dst: Box?<IcebergRemovalSettings>, ghost R: Objects)
    requires ShowsRemovalSettings(src, x, S)
    ensures ShowsRemovalSettings(dst, x, R) && fresh(R)
  {
    hide Holds;
    if src == null {
      return null, {};
    }
    var nonCurrentDays, R1 := CopyPointer(src.v.nonCurrentDays, x.value.nonCurrentDays, S);
    var unreferencedDays, R2 := CopyPointer(src.v.unreferencedDays, x.value.unreferencedDays, S);
    dst := new Box(src.v.(nonCurrentDays := nonCurrentDays, unreferencedDays := unreferencedDays));
    R := {dst} + R1 + R2;
    Grow(nonCurrentDays, x.value.nonCurrentDays, R1, R);
    Grow(unreferencedDays, x.value.unreferencedDays, R2, R);
  }

  datatype MaintenanceSettings = MaintenanceSettings(iceberg: Box?<IcebergRemovalSettings>) {
    ghost predicate Shows(x: Types.MaintenanceSettings, S: Objects)
      reads S
    {
      && ShowsRemovalSettings(iceberg, x.iceberg, S)
    }
  }

  ghost predicate ShowsMaintenanceSettings(
    p: Box?<MaintenanceSettings>, x: Option<Types.MaintenanceSettings>, S: Objects)
    reads S
  {
    if p == null then x.None? else p in S && x.Some? && p.v.Shows(x.value, S)
  }

  lemma GrowMaintenanceSettings(
    p: Box?<MaintenanceSettings>, x: Option<Types.MaintenanceSettings>, S: Objects, T: Objects)
    requires ShowsMaintenanceSettings(p, x, S) && S <= T
    ensures ShowsMaintenanceSettings(p, x, T)
  {
  }

  method DeepCopyMaintenanceSettings(
    src: Box?<MaintenanceSettings>, ghost x: Option<Types.MaintenanceSettings>, ghost S: Objects)
    returns (dst: Box?<MaintenanceSettings>, ghost R: Objects)
    requires ShowsMaintenanceSettings(src, x, S)
    ensures ShowsMaintenanceSettings(dst, x, R) && fresh(R)
  {
    hide ShowsRemovalSettings;
    if src == null {
      return null, {};
    }
    var iceberg, R1 := DeepCopyRemovalSettings(src.v.iceberg, x.value.iceberg, S);
    dst := new Box(src.v.(iceberg := iceberg));
    R := {dst} + R1;
    GrowRemovalSettings(iceberg, x.value.iceberg, R1, R);
  }

  datatype MaintenanceValue = MaintenanceValue(settings: Box?<MaintenanceSettings>, status: Box?<string>) {
    ghost predicate Shows(x: Types.MaintenanceValue, S: Objects)
      reads S
    {
      && ShowsMaintenanceSettings(settings, x.settings, S)
      && Holds(status, x.status, S)
    }
  }

  ghost predicate ShowsMaintenanceValue(p: Box?<MaintenanceValue>, x: Option<Types.MaintenanceValue>, S: Objects)
    reads S
  {
    if p == null then x.None? else p in S && x.Some? && p.v.Shows(x.value, S)
  }

  lemma GrowMaintenanceValue(p: Box?<MaintenanceValue>, x: Option<Types.MaintenanceValue>, S: Objects, T: Objects)
    requires ShowsMaintenanceValue(p, x, S) && S <= T
    ensures ShowsMaintenanceValue(p, x, T)
  {
  }

  method DeepCopyMaintenanceValue(
    src: Box?<MaintenanceValue>, ghost x: Option<Types.MaintenanceValue>, ghost S: Objects)
    returns (dst: Box?<MaintenanceValue>, ghost R: Objects)
    requires ShowsMaintenanceValue(src, x, S)
    ensures ShowsMaintenanceValue(dst, x, R) && fresh(R)
  {
    hide Holds, ShowsMaintenanceSettings;
    if src == null {
      return null, {};
    }
    var settings, R1 := DeepCopyMaintenanceSettings(src.v.settings, x.value.settings, S);
    var status, R2 := CopyPointer(src.v.status, x.value.status, S);
    dst := new Box(src.v.(settings := settings, status := status));
    R := {dst} + R1 + R2;
    GrowMaintenanceSettings(settings, x.value.settings, R1, R);
    Grow(status, x.value.status, R2, R);
  }

  ghost predicate ShowsMaintenance(
    m: Box?<map<string, Box?<MaintenanceValue>>>, xs: PtrMap<Types.MaintenanceValue>, S: Objects)
    reads S
  {
    && (m == null <==> xs.None?)
    && (m != null ==>
          && m in S
          && m.v.Keys == xs.value.Keys
          && forall k :: k in m.v ==> ShowsMaintenanceValue(m.v[k], xs.value[k], S))
  }

  lemma GrowMaintenance(
    m: Box?<map<string, Box?<MaintenanceValue>>>, xs: PtrMap<Types.MaintenanceValue>, S: Objects, T: Objects)
    requires ShowsMaintenance(m, xs, S) && S <= T
    ensures ShowsMaintenance(m, xs, T)
  {
  }

  method DeepCopyMaintenance(
    src: Box?<map<string, Box?<MaintenanceValue>>>, ghost xs: PtrMap<Types.MaintenanceValue>, ghost S: Objects)
    returns (dst: Box?<map<string, Box?<MaintenanceValue>>>, ghost R: Objects)
    requires ShowsMaintenance(src, xs, S)
    ensures ShowsMaintenance(dst, xs, R) && fresh(R)
  {
    hide ShowsMaintenanceValue;
    if src == null {
      return null, {};
    }
    dst := new Box(map[]);
    R := {};
    var order := RangeKeys(src.v);
    for i := 0 to |order|
      invariant fresh(R) && dst !in R
      invariant forall k :: k in dst.v <==> k in order[..i]
      invariant forall k :: k in dst.v ==> ShowsMaintenanceValue(dst.v[k], xs.value[k], R)
    {
      var key := order[i];
      var entry, R1 := DeepCopyMaintenanceValue(src.v[key], xs.value[key], S);
      forall k | k in dst.v
        ensures ShowsMaintenanceValue(dst.v[k], xs.value[k], R + R1)
      {
        GrowMaintenanceValue(dst.v[k], xs.value[k], R, R + R1);
      }
      GrowMaintenanceValue(entry, xs.value[key], R1, R + R1);
      dst.v := dst.v[key := entry];
      R := R + R1;
    }
    forall k | k in dst.v
      ensures ShowsMaintenanceValue(dst.v[k], xs.value[k], R + {dst})
    {
      GrowMaintenanceValue(dst.v[k], xs.value[k], R, R + {dst});
    }
    R := R + {dst};
  }

  datatype TableBucketSpec = TableBucketSpec(
    encryption: Box?<EncryptionConfiguration>,
    maintenance: Box?<map<string, Box?<MaintenanceValue>>>,
    name: Box?<string>,
    policy: Box?<string>,
    storageClass: Box?<StorageClassConfiguration>,
    tags: Box?<map<string, Box?<string>>>)
  {
    ghost predicate Shows(x: Types.TableBucketSpec, S: Objects)
      reads S
    {
      && ShowsEncryption(encryption, x.encryption, S)
      && ShowsMaintenance(maintenance, x.maintenance, S)
      && Holds(name, x.name, S)
      && Holds(policy, x.policy, S)
      && ShowsStorageClass(storageClass, x.storageClass, S)
      && ShowsStrings(tags, x.tags, S)
    }
  }

  ghost predicate ShowsTableBucketSpec(p: Box?<TableBucketSpec>, x: Option<Types.TableBucketSpec>, S: Objects)
    reads S
  {
    if p == null then x.None? else p in S && x.Some? && p.v.Shows(x.value, S)
  }

  lemma GrowTableBucketSpec(p: Box?<TableBucketSpec>, x: Option<Types.TableBucketSpec>, S: Objects, T: Objects)
    requires ShowsTableBucketSpec(p, x, S) && S <= T
    ensures ShowsTableBucketSpec(p, x, T)
  {
  }

  method CopyBucketTexts(src: TableBucketSpec, ghost x: Types.TableBucketSpec, ghost S: Objects)
    returns (name: Box?<string>, policy: Box?<string>, ghost R: Objects)
    requires src.Shows(x, S)
    ensures Holds(name, x.name, R)
    ensures Holds(policy, x.policy, R)
    ensures fresh(R)
  {
    hide Holds;
    ghost var R1;
    name, R1 := CopyPointer(src.name, x.name, S);
    ghost var R2;
    policy, R2 := CopyPointer(src.policy, x.policy, S);
    R := R1 + R2;
    Grow(name, x.name, R1, R);
    Grow(policy, x.policy, R2, R);
  }

  method CopyConfigurations(src: TableBucketSpec, ghost x: Types.TableBucketSpec, ghost S: Objects)
    returns (
      encryption: Box?<EncryptionConfiguration>, storageClass: Box?<StorageClassConfiguration>, ghost R: Objects)
    requires src.Shows(x, S)
    ensures ShowsEncryption(encryption, x.encryption, R)
    ensures ShowsStorageClass(storageClass, x.storageClass, R)
    ensures fresh(R)
  {
    hide ShowsEncryption, ShowsStorageClass;
    ghost var R1;
    encryption, R1 := DeepCopyEncryption(src.encryption, x.encryption, S);
    ghost var R2;
    storageClass, R2 := DeepCopyStorageClass(src.storageClass, x.storageClass, S);
    R := R1 + R2;
    GrowEncryption(encryption, x.encryption, R1, R);
    GrowStorageClass(storageClass, x.storageClass, R2, R);
  }

  method CopyMaps(src: TableBucketSpec, ghost x: Types.TableBucketSpec, ghost S: Objects)
    returns (
      maintenance: Box?<map<string, Box?<MaintenanceValue>>>, tags: Box?<map<string, Box?<string>>>,
      ghost R: Objects)
    requires src.Shows(x, S)
    ensures ShowsMaintenance(maintenance, x.maintenance, R)
    ensures ShowsStrings(tags, x.tags, R)
    ensures fresh(R)
  {
    hide ShowsMaintenance, ShowsStrings;
    ghost var R1;
    maintenance, R1 := DeepCopyMaintenance(src.maintenance, x.maintenance, S);
    ghost var R2;
    tags, R2 := DeepCopyStrings(src.tags, x.tags, S);
    R := R1 + R2;
    GrowMaintenance(maintenance, x.maintenance, R1, R);
    GrowStrings(tags, x.tags, R2, R);
  }

  method DeepCopyTableBucketSpec(src: Box?<TableBucketSpec>, ghost x: Option<Types.TableBucketSpec>, ghost S: Objects)
    returns (dst: Box?<TableBucketSpec>, ghost R: Objects)
    requires ShowsTableBucketSpec(src, x, S)
    ensures ShowsTableBucketSpec(dst, x, R) && fresh(R)
  {
    hide Holds, ShowsEncryption, ShowsMaintenance, ShowsStorageClass, ShowsStrings;
    if src == null {
      return null, {};
    }
    var name, policy, R1 := CopyBucketTexts(src.v, x.value, S);
    var encryption, storageClass, R2 := CopyConfigurations(src.v, x.value, S);
    var maintenance, tags, R3 := CopyMaps(src.v, x.value, S);
    dst := new Box(src.v.(
      encryption := encryption, maintenance := maintenance, name := name, policy := policy,
      storageClass := storageClass, tags := tags));
    R := {dst} + R1 + R2 + R3;
    Grow(name, x.value.name, R1, R);
    Grow(policy, x.value.policy, R1, R);
    GrowEncryption(encryption, x.value.encryption, R2, R);
    GrowStorageClass(storageClass, x.value.storageClass, R2, R);
    GrowMaintenance(maintenance, x.value.maintenance, R3, R);
    GrowStrings(tags, x.value.tags, R3, R);
  }

  // ----- Status -----

  datatype ResourceMetadata = ResourceMetadata(
    arn: Box?<string>, ownerAccountID: Box?<string>, partition: Box?<string>, region: Box?<string>)
  {
    ghost predicate Shows(x: Types.ResourceMetadata, S: Objects)
      reads S
    {
      && Holds(arn, x.arn, S)
      && Holds(ownerAccountID, x.ownerAccountID, S)
      && Holds(partition, x.partition, S)
      && Holds(region, x.region, S)
    }
  }

  ghost predicate ShowsResourceMetadata(p: Box?<ResourceMetadata>, x: Option<Types.ResourceMetadata>, S: Objects)
    reads S
  {
    if p == null then x.None? else p in S && x.Some? && p.v.Shows(x.value, S)
  }

  lemma GrowResourceMetadata(p: Box?<ResourceMetadata>, x: Option<Types.ResourceMetadata>, S: Objects, T: Objects)
    requires ShowsResourceMetadata(p, x, S) && S <= T
    ensures ShowsResourceMetadata(p, x, T)
  {
  }

  method DeepCopyResourceMetadata(
    src: Box?<ResourceMetadata>, ghost x: Option<Types.ResourceMetadata>, ghost S: Objects)
    returns (dst: Box?<ResourceMetadata>, ghost R: Objects)
    requires ShowsResourceMetadata(src, x, S)
    ensures ShowsResourceMetadata(dst, x, R) && fresh(R)
  {
    hide Holds;
    if src == null {
      return null, {};
    }
    var arn, R1 := CopyPointer(src.v.arn, x.value.arn, S);
    var ownerAccountID, R2 := CopyPointer(src.v.ownerAccountID, x.value.ownerAccountID, S);
    var partition, R3 := CopyPointer(src.v.partition, x.value.partition, S);
    var region, R4 := CopyPointer(src.v.region, x.value.region, S);
    dst := new Box(src.v.(arn := arn, ownerAccountID := ownerAccountID, partition := partition, region := region));
    R := {dst} + R1 + R2 + R3 + R4;
    Grow(arn, x.value.arn, R1, R);
    Grow(ownerAccountID, x.value.ownerAccountID, R2, R);
    Grow(partition, x.value.partition, R3, R);
    Grow(region, x.value.region, R4, R);
  }

  /** What a condition and the two statuses show, nil entries and all. */
  datatype ShownCondition = ShownCondition(
    kind: ConditionType, status: ConditionStatus,
    lastTransitionTime: Option<int>, message: Option<string>, reason: Option<string>)

  datatype ShownTableStatus = ShownTableStatus(
    metadata: Option<Types.ResourceMetadata>, conditions: Option<seq<Option<ShownCondition>>>,
    createdAt: Option<int>, modifiedAt: Option<int>, namespaceID: Option<string>, tableBucketID: Option<string>,
    tableType: Option<string>, versionToken: Option<string>, warehouseLocation: Option<string>)

  datatype ShownBucketStatus = ShownBucketStatus(
    metadata: Option<Types.ResourceMetadata>, conditions: Option<seq<Option<ShownCondition>>>,
    createdAt: Option<int>, tableBucketID: Option<string>, bucketType: Option<string>)

  datatype Condition = Condition(
    kind: ConditionType, status: ConditionStatus,
    lastTransitionTime: Box?<int>, message: Box?<string>, reason: Box?<string>)
  {
    ghost predicate Shows(x: ShownCondition, S: Objects)
      reads S
    {
      && kind == x.kind
      && status == x.status
      && Holds(lastTransitionTime, x.lastTransitionTime, S)
      && Holds(message, x.message, S)
      && Holds(reason, x.reason, S)
    }
  }

  ghost predicate ShowsCondition(p: Box?<Condition>, x: Option<ShownCondition>, S: Objects)
    reads S
  {
    if p == null then x.None? else p in S && x.Some? && p.v.Shows(x.value, S)
  }

  lemma GrowCondition(p: Box?<Condition>, x: Option<ShownCondition>, S: Objects, T: Objects)
    requires ShowsCondition(p, x, S) && S <= T
    ensures ShowsCondition(p, x, T)
  {
  }

  method DeepCopyCondition(src: Box?<Condition>, ghost x: Option<ShownCondition>, ghost S: Objects)
    returns (dst: Box?<Condition>, ghost R: Objects)
    requires ShowsCondition(src, x, S)
    ensures ShowsCondition(dst, x, R) && fresh(R)
  {
    hide Holds;
    if src == null {
      return null, {};
    }
    var lastTransitionTime, R1 := CopyPointer(src.v.lastTransitionTime, x.value.lastTransitionTime, S);
    var message, R2 := CopyPointer(src.v.message, x.value.message, S);
    var reason, R3 := CopyPointer(src.v.reason, x.value.reason, S);
    dst := new Box(src.v.(lastTransitionTime := lastTransitionTime, message := message, reason := reason));
    R := {dst} + R1 + R2 + R3;
    Grow(lastTransitionTime, x.value.lastTransitionTime, R1, R);
    Grow(message, x.value.message, R2, R);
    Grow(reason, x.value.reason, R3, R);
  }

  ghost predicate ShowsConditions(a: array?<Box?<Condition>>, xs: Option<seq<Option<ShownCondition>>>, S: Objects)
    reads S
  {
    && (a == null <==> xs.None?)
    && (a != null ==>
          && a in S
          && a.Length == |xs.value|
          && forall i :: 0 <= i < a.Length ==> ShowsCondition(a[i], xs.value[i], S))
  }

  lemma GrowConditions(a: array?<Box?<Condition>>, xs: Option<seq<Option<ShownCondition>>>, S: Objects, T: Objects)
    requires ShowsConditions(a, xs, S) && S <= T
    ensures ShowsConditions(a, xs, T)
  {
  }

  method DeepCopyConditions(
    src: array?<Box?<Condition>>, ghost xs: Option<seq<Option<ShownCondition>>>, ghost S: Objects)
    returns (dst: array?<Box?<Condition>>, ghost R: Objects)
    requires ShowsConditions(src, xs, S)
    ensures ShowsConditions(dst, xs, R) && fresh(R)
  {
    hide ShowsCondition;
    if src == null {
      return null, {};
    }
    dst := new Box?<Condition>[src.Length](_ => null);
    R := {};
    for i := 0 to src.Length
      invariant fresh(R) && dst !in R
      invariant forall j :: 0 <= j < i ==> ShowsCondition(dst[j], xs.value[j], R)
    {
      var entry, R1 := DeepCopyCondition(src[i], xs.value[i], S);
      dst[i] := entry;
      forall j | 0 <= j < i
        ensures ShowsCondition(dst[j], xs.value[j], R + R1)
      {
        GrowCondition(dst[j], xs.value[j], R, R + R1);
      }
      GrowCondition(entry, xs.value[i], R1, R + R1);
      R := R + R1;
    }
    forall j | 0 <= j < dst.Length
      ensures ShowsCondition(dst[j], xs.value[j], R + {dst})
    {
      GrowCondition(dst[j], xs.value[j], R, R + {dst});
    }
    R := R + {dst};
  }

  datatype TableStatus = TableStatus(
    metadata: Box?<ResourceMetadata>,
    conditions: array?<Box?<Condition>>,
    createdAt: Box?<int>,
    modifiedAt: Box?<int>,
    namespaceID: Box?<string>,
    tableBucketID: Box?<string>,
    tableType: Box?<string>,
    versionToken: Box?<string>,
    warehouseLocation: Box?<string>)
  {
    ghost predicate Shows(x: ShownTableStatus, S: Objects)
      reads S
    {
      && ShowsResourceMetadata(metadata, x.metadata, S)
      && ShowsConditions(conditions, x.conditions, S)
      && Holds(createdAt, x.createdAt, S)
      && Holds(modifiedAt, x.modifiedAt, S)
      && Holds(namespaceID, x.namespaceID, S)
      && Holds(tableBucketID, x.tableBucketID, S)
      && Holds(tableType, x.tableType, S)
      && Holds(versionToken, x.versionToken, S)
      && Holds(warehouseLocation, x.warehouseLocation, S)
    }
  }

  ghost predicate ShowsTableStatus(p: Box?<TableStatus>, x: Option<ShownTableStatus>, S: Objects)
    reads S
  {
    if p == null then x.None? else p in S && x.Some? && p.v.Shows(x.value, S)
  }

  lemma GrowTableStatus(p: Box?<TableStatus>, x: Option<ShownTableStatus>, S: Objects, T: Objects)
    requires ShowsTableStatus(p, x, S) && S <= T
    ensures ShowsTableStatus(p, x, T)
  {
  }

  method CopyTableTimes(src: TableStatus, ghost x: ShownTableStatus, ghost S: Objects)
    returns (
      metadata: Box?<ResourceMetadata>, conditions: array?<Box?<Condition>>, createdAt: Box?<int>,
      modifiedAt: Box?<int>, ghost R: Objects)
    requires src.Shows(x, S)
    ensures ShowsResourceMetadata(metadata, x.metadata, R)
    ensures ShowsConditions(conditions, x.conditions, R)
    ensures Holds(createdAt, x.createdAt, R)
    ensures Holds(modifiedAt, x.modifiedAt, R)
    ensures fresh(R)
  {
    hide Holds, ShowsConditions, ShowsResourceMetadata;
    ghost var R1;
    metadata, R1 := DeepCopyResourceMetadata(src.metadata, x.metadata, S);
    ghost var R2;
    conditions, R2 := DeepCopyConditions(src.conditions, x.conditions, S);
    ghost var R3;
    createdAt, R3 := CopyPointer(src.createdAt, x.createdAt, S);
    ghost var R4;
    modifiedAt, R4 := CopyPointer(src.modifiedAt, x.modifiedAt, S);
    R := R1 + R2 + R3 + R4;
    GrowResourceMetadata(metadata, x.metadata, R1, R);
    GrowConditions(conditions, x.conditions, R2, R);
    Grow(createdAt, x.createdAt, R3, R);
    Grow(modifiedAt, x.modifiedAt, R4, R);
  }

  method CopyTableIds(src: TableStatus, ghost x: ShownTableStatus, ghost S: Objects)
    returns (
      namespaceID: Box?<string>, tableBucketID: Box?<string>, tableType: Box?<string>, versionToken: Box?<string>,
      warehouseLocation: Box?<string>, ghost R: Objects)
    requires src.Shows(x, S)
    ensures Holds(namespaceID, x.namespaceID, R)
    ensures Holds(tableBucketID, x.tableBucketID, R)
    ensures Holds(tableType, x.tableType, R)
    ensures Holds(versionToken, x.versionToken, R)
    ensures Holds(warehouseLocation, x.warehouseLocation, R)
    ensures fresh(R)
  {
    hide Holds;
    ghost var R1;
    namespaceID, R1 := CopyPointer(src.namespaceID, x.namespaceID, S);
    ghost var R2;
    tableBucketID, R2 := CopyPointer(src.tableBucketID, x.tableBucketID, S);
    ghost var R3;
    tableType, R3 := CopyPointer(src.tableType, x.tableType, S);
    ghost var R4;
    versionToken, R4 := CopyPointer(src.versionToken, x.versionToken, S);
    ghost var R5;
    warehouseLocation, R5 := CopyPointer(src.warehouseLocation, x.warehouseLocation, S);
    R := R1 + R2 + R3 + R4 + R5;
    Grow(namespaceID, x.namespaceID, R1, R);
    Grow(tableBucketID, x.tableBucketID, R2, R);
    Grow(tableType, x.tableType, R3, R);
    Grow(versionToken, x.versionToken, R4, R);
    Grow(warehouseLocation, x.warehouseLocation, R5, R);
  }

  method DeepCopyTableStatus(src: Box?<TableStatus>, ghost x: Option<ShownTableStatus>, ghost S: Objects)
    returns (dst: Box?<TableStatus>, ghost R: Objects)
    requires ShowsTableStatus(src, x, S)
    ensures ShowsTableStatus(dst, x, R) && fresh(R)
  {
    hide Holds, ShowsConditions, ShowsResourceMetadata;
    if src == null {
      return null, {};
    }
    var metadata, conditions, createdAt, modifiedAt, R1 := CopyTableTimes(src.v, x.value, S);
    var namespaceID, tableBucketID, tableType, versionToken, warehouseLocation, R2 := CopyTableIds(src.v, x.value, S);
    dst := new Box(src.v.(
      metadata := metadata, conditions := conditions, createdAt := createdAt, modifiedAt := modifiedAt,
      namespaceID := namespaceID, tableBucketID := tableBucketID, tableType := tableType,
      versionToken := versionToken, warehouseLocation := warehouseLocation));
    R := {dst} + R1 + R2;
    GrowResourceMetadata(metadata, x.value.metadata, R1, R);
    GrowConditions(conditions, x.value.conditions, R1, R);
    Grow(createdAt, x.value.createdAt, R1, R);
    Grow(modifiedAt, x.value.modifiedAt, R1, R);
    Grow(namespaceID, x.value.namespaceID, R2, R);
    Grow(tableBucketID, x.value.tableBucketID, R2, R);
    Grow(tableType, x.value.tableType, R2, R);
    Grow(versionToken, x.value.versionToken, R2, R);
    Grow(warehouseLocation, x.value.warehouseLocation, R2, R);
  }

  datatype TableBucketStatus = TableBucketStatus(
    metadata: Box?<ResourceMetadata>,
    conditions: array?<Box?<Condition>>,
    createdAt: Box?<int>,
    tableBucketID: Box?<string>,
    bucketType: Box?<string>)
  {
    ghost predicate Shows(x: ShownBucketStatus, S: Objects)
      reads S
    {
      && ShowsResourceMetadata(metadata, x.metadata, S)
      && ShowsConditions(conditions, x.conditions, S)
      && Holds(createdAt, x.createdAt, S)
      && Holds(tableBucketID, x.tableBucketID, S)
      && Holds(bucketType, x.bucketType, S)
    }
  }

  ghost predicate ShowsTableBucketStatus(p: Box?<TableBucketStatus>, x: Option<ShownBucketStatus>, S: Objects)
    reads S
  {
    if p == null then x.None? else p in S && x.Some? && p.v.Shows(x.value, S)
  }

  lemma GrowTableBucketStatus(p: Box?<TableBucketStatus>, x: Option<ShownBucketStatus>, S: Objects, T: Objects)
    requires ShowsTableBucketStatus(p, x, S) && S <= T
    ensures ShowsTableBucketStatus(p, x, T)
  {
  }

  method CopyBucketTimes(src: TableBucketStatus, ghost x: ShownBucketStatus, ghost S: Objects)
    returns (
      metadata: Box?<ResourceMetadata>, conditions: array?<Box?<Condition>>, createdAt: Box?<int>, ghost R: Objects)
    requires src.Shows(x, S)
    ensures ShowsResourceMetadata(metadata, x.metadata, R)
    ensures ShowsConditions(conditions, x.conditions, R)
    ensures Holds(createdAt, x.createdAt, R)
    ensures fresh(R)
  {
    hide Holds, ShowsConditions, ShowsResourceMetadata;
    ghost var R1;
    metadata, R1 := DeepCopyResourceMetadata(src.metadata, x.metadata, S);
    ghost var R2;
    conditions, R2 := DeepCopyConditions(src.conditions, x.conditions, S);
    ghost var R3;
    createdAt, R3 := CopyPointer(src.createdAt, x.createdAt, S);
    R := R1 + R2 + R3;
    GrowResourceMetadata(metadata, x.metadata, R1, R);
    GrowConditions(conditions, x.conditions, R2, R);
    Grow(createdAt, x.createdAt, R3, R);
  }

  method CopyBucketIds(src: TableBucketStatus, ghost x: ShownBucketStatus, ghost S: Objects)
    returns (tableBucketID: Box?<string>, bucketType: Box?<string>, ghost R: Objects)
    requires src.Shows(x, S)
    ensures Holds(tableBucketID, x.tableBucketID, R)
    ensures Holds(bucketType, x.bucketType, R)
    ensures fresh(R)
  {
    hide Holds;
    ghost var R1;
    tableBucketID, R1 := CopyPointer(src.tableBucketID, x.tableBucketID, S);
    ghost var R2;
    bucketType, R2 := CopyPointer(src.bucketType, x.bucketType, S);
    R := R1 + R2;
    Grow(tableBucketID, x.tableBucketID, R1, R);
    Grow(bucketType, x.bucketType, R2, R);
  }

  method DeepCopyTableBucketStatus(src: Box?<TableBucketStatus>, ghost x: Option<ShownBucketStatus>, ghost S: Objects)
    returns (dst: Box?<TableBucketStatus>, ghost R: Objects)
    requires ShowsTableBucketStatus(src, x, S)
    ensures ShowsTableBucketStatus(dst, x, R) && fresh(R)
  {
    hide Holds, ShowsConditions, ShowsResourceMetadata;
    if src == null {
      return null, {};
    }
    var metadata, conditions, createdAt, R1 := CopyBucketTimes(src.v, x.value, S);
    var tableBucketID, bucketType, R2 := CopyBucketIds(src.v, x.value, S);
    dst := new Box(src.v.(
      metadata := metadata, conditions := conditions, createdAt := createdAt, tableBucketID := tableBucketID,
      bucketType := bucketType));
    R := {dst} + R1 + R2;
    GrowResourceMetadata(metadata, x.value.metadata, R1, R);
    GrowConditions(conditions, x.value.conditions, R1, R);
    Grow(createdAt, x.value.createdAt, R1, R);
    Grow(tableBucketID, x.value.tableBucketID, R2, R);
    Grow(bucketType, x.value.bucketType, R2, R);
  }
}
