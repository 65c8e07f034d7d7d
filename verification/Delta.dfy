/** The runtime's `ackcompare.Delta`: the list of paths at which two resources differ, asked by
    prefix. The runtime library is not part of the repository. */
module Delta {
  import Types
  type Option<+T> = Types.Option<T>

  datatype Segment =
    | Spec | EncryptionConfiguration | KMSKeyARN | SSEAlgorithm | Name | Policy
    | StorageClassConfiguration | StorageClass | Tags | MaintenanceConfiguration
    | Format | Metadata | Iceberg | PartitionSpec | Fields | SpecID | Properties | Schema
    | WriteOrder | OrderID | MetadataLocation | Namespace | NamespaceRef | TableBucketARN | TableBucketRef

  type Path = seq<Segment>
  type Delta = seq<Path>

  /** `DifferentAt` answers for a path and for everything below it. */
  predicate DifferentAt(delta: Delta, path: Path) {
    exists i :: 0 <= i < |delta| && path <= delta[i]
  }

  function Add(delta: Delta, path: Path): Delta {
    delta + [path]
  }

  function AddIf(delta: Delta, path: Path, differs: bool): (r: Delta)
    ensures Records(delta, r, path, differs)
  {
    if differs then Add(delta, path) else delta
  }

  /** `r` is `delta` with, exactly when `differs`, one or more paths below `field` added. */
  ghost predicate Records(delta: Delta, r: Delta, field: Path, differs: bool) {
    if differs then delta < r && forall i :: |delta| <= i < |r| ==> field <= r[i]
    else r == delta
  }

  lemma RecordsHigher(delta: Delta, r: Delta, path: Path, field: Path, differs: bool)
    requires Records(delta, r, path, differs) && field <= path
    ensures Records(delta, r, field, differs)
  {
  }

  /** Two comparisons below the same field, one after the other. */
  lemma RecordsBoth(d0: Delta, d1: Delta, d2: Delta, field: Path, first: bool, second: bool)
    requires Records(d0, d1, field, first) && Records(d1, d2, field, second)
    ensures Records(d0, d2, field, first || second)
  {
  }

  /** Top-level fields are told apart by their second segment, so recording a difference below
      one of them shows at that field and at no other. */
  lemma RecordedAt(delta: Delta, r: Delta, field: Path, differs: bool)
    requires Records(delta, r, field, differs) && |field| == 2
    ensures forall q: Path :: |q| == 2 ==> (DifferentAt(r, q) <==> DifferentAt(delta, q) || (differs && q == field))
  {
    forall q: Path | |q| == 2
      ensures DifferentAt(r, q) <==> DifferentAt(delta, q) || (differs && q == field)
    {
      if DifferentAt(delta, q) {
        var i :| 0 <= i < |delta| && q <= delta[i];
        assert r[i] == delta[i];
      }
      if differs && q == field {
        assert q <= r[|delta|];
      }
      if DifferentAt(r, q) {
        var i :| 0 <= i < |r| && q <= r[i];
        if i >= |delta| {
          assert q == r[i][..2] == field;
        } else {
          assert q <= delta[i];
        }
      }
    }
  }

  /** The comparison of two pointer fields, as the generated code writes it out for each:
      `HasNilDifference`, or both set and the values differ. */
  method ComparePointers<T(==)>(delta: Delta, path: Path, a: Option<T>, b: Option<T>) returns (r: Delta)
    ensures r == AddIf(delta, path, a != b)
  {
    r := delta;
    if a.Some? != b.Some? {
      r := Add(delta, path);
    } else if a.Some? && b.Some? {
      if a.value != b.value {
        r := Add(delta, path);
      }
    }
  }

  predicate EncryptionDiffers(a: Option<Types.EncryptionConfiguration>, b: Option<Types.EncryptionConfiguration>) {
    a.Some? != b.Some? ||
    (a.Some? && (a.value.kmsKeyARN != b.value.kmsKeyARN || a.value.sseAlgorithm != b.value.sseAlgorithm))
  }

  method CompareEncryption(delta: Delta, path: Path, a: Option<Types.EncryptionConfiguration>,
                           b: Option<Types.EncryptionConfiguration>) returns (r: Delta)
    ensures Records(delta, r, path, EncryptionDiffers(a, b))
  {
    r := delta;
    if a.Some? != b.Some? {
      r := Add(r, path);
    } else if a.Some? && b.Some? {
      r := ComparePointers(r, path + [KMSKeyARN], a.value.kmsKeyARN, b.value.kmsKeyARN);
      r := ComparePointers(r, path + [SSEAlgorithm], a.value.sseAlgorithm, b.value.sseAlgorithm);
    }
  }

  method CompareStorageClass(delta: Delta, path: Path, a: Option<Types.StorageClassConfiguration>,
                             b: Option<Types.StorageClassConfiguration>) returns (r: Delta)
    ensures Records(delta, r, path, a != b)
  {
    r := delta;
    if a.Some? != b.Some? {
      r := Add(r, path);
    } else if a.Some? && b.Some? {
      r := ComparePointers(r, path + [StorageClass], a.value.storageClass, b.value.storageClass);
    }
  }
}
