/** Where the controller relies on deep copies: the update hooks, late initialization and
    EnsureReferences start from copies and then write through pointers, and neither alter nor
    share anything with the objects they were given. */
module ObjectCopies {
  import opened DeepCopy
  import P = BucketPass
  import R = References
  import T = Types

  /** A Table's spec and status, each at its own address inside the object. */
  class Table {
    const spec: Box<TableSpec>
    const status: Box<TableStatus>

    constructor (spec: Box<TableSpec>, status: Box<TableStatus>)
      ensures this.spec == spec && this.status == status
    {
      this.spec, this.status := spec, status;
    }

    ghost predicate Shows(spec: T.TableSpec, status: ShownTableStatus, S: Objects)
      reads S
    {
      this in S && ShowsTableSpec(this.spec, T.Some(spec), S) && ShowsTableStatus(this.status, T.Some(status), S)
    }
  }

  class TableBucket {
    const spec: Box<TableBucketSpec>
    const status: Box<TableBucketStatus>

    constructor (spec: Box<TableBucketSpec>, status: Box<TableBucketStatus>)
      ensures this.spec == spec && this.status == status
    {
      this.spec, this.status := spec, status;
    }

    ghost predicate Shows(spec: T.TableBucketSpec, status: ShownBucketStatus, S: Objects)
      reads S
    {
      && this in S
      && ShowsTableBucketSpec(this.spec, T.Some(spec), S)
      && ShowsTableBucketStatus(this.status, T.Some(status), S)
    }
  }

  method CopyTable(src: Table, ghost x: T.TableSpec, ghost y: ShownTableStatus, ghost S: Objects)
    returns (dst: Table, ghost P: Objects, ghost Q: Objects)
    requires src.Shows(x, y, S)
    ensures fresh(dst) && fresh(P) && fresh(Q) && P !! Q
    ensures ShowsTableSpec(dst.spec, T.Some(x), P) && ShowsTableStatus(dst.status, T.Some(y), Q)
  {
    hide TableSpec.Shows, TableStatus.Shows;
    var spec, status;
    spec, P := DeepCopyTableSpec(src.spec, T.Some(x), S);
    status, Q := DeepCopyTableStatus(src.status, T.Some(y), S);
    dst := new Table(spec, status);
  }

  lemma WholeTable(t: Table, x: T.TableSpec, y: ShownTableStatus, P: Objects, Q: Objects)
    requires ShowsTableSpec(t.spec, T.Some(x), P) && ShowsTableStatus(t.status, T.Some(y), Q)
    ensures t.Shows(x, y, {t} + P + Q)
  {
    hide ShowsTableSpec, ShowsTableStatus;
    GrowTableSpec(t.spec, T.Some(x), P, {t} + P + Q);
    GrowTableStatus(t.status, T.Some(y), Q, {t} + P + Q);
  }

  method CopyTableBucket(src: TableBucket, ghost x: T.TableBucketSpec, ghost y: ShownBucketStatus, ghost S: Objects)
    returns (dst: TableBucket, ghost P: Objects, ghost Q: Objects)
    requires src.Shows(x, y, S)
    ensures fresh(dst) && fresh(P) && fresh(Q) && P !! Q
    ensures ShowsTableBucketSpec(dst.spec, T.Some(x), P) && ShowsTableBucketStatus(dst.status, T.Some(y), Q)
  {
    hide TableBucketSpec.Shows, TableBucketStatus.Shows;
    var spec, status;
    spec, P := DeepCopyTableBucketSpec(src.spec, T.Some(x), S);
    status, Q := DeepCopyTableBucketStatus(src.status, T.Some(y), S);
    dst := new TableBucket(spec, status);
  }

  lemma WholeTableBucket(t: TableBucket, x: T.TableBucketSpec, y: ShownBucketStatus, P: Objects, Q: Objects)
    requires ShowsTableBucketSpec(t.spec, T.Some(x), P) && ShowsTableBucketStatus(t.status, T.Some(y), Q)
    ensures t.Shows(x, y, {t} + P + Q)
  {
    hide ShowsTableBucketSpec, ShowsTableBucketStatus;
    GrowTableBucketSpec(t.spec, T.Some(x), P, {t} + P + Q);
    GrowTableBucketStatus(t.status, T.Some(y), Q, {t} + P + Q);
  }

  /** How customUpdateTable begins: the desired spec with the observed status. The status is
      assigned through the copy's own address. */
  method StartTableUpdate(
    desired: Table, latest: Table, ghost dx: T.TableSpec, ghost dy: ShownTableStatus,
    ghost lx: T.TableSpec, ghost ly: ShownTableStatus, ghost S: Objects)
    returns (ko: Table, ghost Q: Objects)
    requires desired.Shows(dx, dy, S) && latest.Shows(lx, ly, S)
    ensures ko.Shows(dx, ly, Q) && fresh(Q)
    ensures desired.Shows(dx, dy, S) && latest.Shows(lx, ly, S)
  {
    hide TableSpec.Shows, TableStatus.Shows;
    ghost var P, Q1;
    ko, P, Q1 := CopyTable(desired, dx, dy, S);
    var status, Q2 := DeepCopyTableStatus(latest.status, T.Some(ly), S);
    ko.status.v := status.v;
    GrowTableStatus(status, T.Some(ly), Q2, Q1 + Q2);
    WholeTable(ko, dx, ly, P, Q1 + Q2);
    Q := {ko} + P + (Q1 + Q2);
  }

  /** How customUpdateTableBucket begins. */
  method StartTableBucketUpdate(
    desired: TableBucket, latest: TableBucket, ghost dx: T.TableBucketSpec, ghost dy: ShownBucketStatus,
    ghost lx: T.TableBucketSpec, ghost ly: ShownBucketStatus, ghost S: Objects)
    returns (ko: TableBucket, ghost Q: Objects)
    requires desired.Shows(dx, dy, S) && latest.Shows(lx, ly, S)
    ensures ko.Shows(dx, ly, Q) && fresh(Q)
    ensures desired.Shows(dx, dy, S) && latest.Shows(lx, ly, S)
  {
    hide TableBucketSpec.Shows, TableBucketStatus.Shows;
    ghost var P, Q1;
    ko, P, Q1 := CopyTableBucket(desired, dx, dy, S);
    var status, Q2 := DeepCopyTableBucketStatus(latest.status, T.Some(ly), S);
    ko.status.v := status.v;
    GrowTableBucketStatus(status, T.Some(ly), Q2, Q1 + Q2);
    WholeTableBucket(ko, dx, ly, P, Q1 + Q2);
    Q := {ko} + P + (Q1 + Q2);
  }

  /** No field of a spec leads back to a cell that holds a spec. */
  lemma ApartFromCell(s: TableBucketSpec, x: T.TableBucketSpec, S: Objects, c: Box<TableBucketSpec>)
    requires s.Shows(x, S)
    ensures s.Shows(x, S - {c})
  {
  }

  lemma SpecGrows(s: TableBucketSpec, x: T.TableBucketSpec, S: Objects, U: Objects)
    requires s.Shows(x, S) && S <= U
    ensures s.Shows(x, U)
  {
  }

  /** A rewritten spec that avoids its own cell can be put into that cell. */
  lemma PutSpec(c: Box<TableBucketSpec>, x: T.TableBucketSpec, S: Objects)
    requires c.v.Shows(x, S - {c}) && c in S
    ensures ShowsTableBucketSpec(c, T.Some(x), S)
  {
  }

  function Adopt(o: TableBucketSpec, l: TableBucketSpec): TableBucketSpec {
    l.(encryption := if o.encryption != null && l.encryption == null then o.encryption else l.encryption,
       maintenance := if o.maintenance != null && l.maintenance == null then o.maintenance else l.maintenance,
       storageClass := if o.storageClass != null && l.storageClass == null then o.storageClass else l.storageClass)
  }

  lemma AdoptShows(o: TableBucketSpec, ox: T.TableBucketSpec, l: TableBucketSpec, lx: T.TableBucketSpec, S: Objects)
    requires o.Shows(ox, S) && l.Shows(lx, S)
    ensures Adopt(o, l).Shows(P.LateInitialized(ox, lx), S)
  {
  }

  lemma AdoptCopied(
    o: Box<TableBucketSpec>, ox: T.TableBucketSpec, O: Objects,
    l: Box<TableBucketSpec>, lx: T.TableBucketSpec, L: Objects)
    requires ShowsTableBucketSpec(o, T.Some(ox), O) && ShowsTableBucketSpec(l, T.Some(lx), L)
    ensures l in O + L && Adopt(o.v, l.v).Shows(P.LateInitialized(ox, lx), O + L - {l})
  {
    hide TableBucketSpec.Shows, Adopt, P.LateInitialized;
    SpecGrows(o.v, ox, O, O + L);
    SpecGrows(l.v, lx, L, O + L);
    AdoptShows(o.v, ox, l.v, lx, O + L);
    ApartFromCell(Adopt(o.v, l.v), P.LateInitialized(ox, lx), O + L, l);
  }

  method AdoptUnset(observed: TableBucketSpec, latest: TableBucketSpec) returns (spec: TableBucketSpec)
    ensures spec == Adopt(observed, latest)
  {
    spec := latest;
    if observed.encryption != null && spec.encryption == null {
      spec := spec.(encryption := observed.encryption);
    }
    if observed.maintenance != null && spec.maintenance == null {
      spec := spec.(maintenance := observed.maintenance);
    }
    if observed.storageClass != null && spec.storageClass == null {
      spec := spec.(storageClass := observed.storageClass);
    }
  }

  /** lateInitializeFromReadOneOutput: pointers move from one copy to another, so the result is
      the late-initialized spec and shares nothing with the observation or with `latest`. */
  method LateInitialize(
    observed: TableBucket, latest: TableBucket, ghost ox: T.TableBucketSpec, ghost oy: ShownBucketStatus,
    ghost lx: T.TableBucketSpec, ghost ly: ShownBucketStatus, ghost S: Objects)
    returns (ko: TableBucket, ghost Q: Objects)
    requires observed.Shows(ox, oy, S) && latest.Shows(lx, ly, S)
    ensures ko.Shows(P.LateInitialized(ox, lx), ly, Q) && fresh(Q)
    ensures observed.Shows(ox, oy, S) && latest.Shows(lx, ly, S)
  {
    hide TableBucketSpec.Shows, TableBucket.Shows, ShowsTableBucketSpec, ShowsTableBucketStatus, Adopt,
      P.LateInitialized;
    var observedKo, O, O1 := CopyTableBucket(observed, ox, oy, S);
    ghost var L, L1;
    ko, L, L1 := CopyTableBucket(latest, lx, ly, S);
    var spec := AdoptUnset(observedKo.spec.v, ko.spec.v);
    AdoptCopied(observedKo.spec, ox, O, ko.spec, lx, L);
    ko.spec.v := spec;
    PutSpec(ko.spec, P.LateInitialized(ox, lx), O + L);
    WholeTableBucket(ko, P.LateInitialized(ox, lx), ly, O + L, L1);
    Q := {ko} + (O + L) + L1;
  }

  /** Everything a spec shows except its encryption. */
  ghost predicate RestShows(s: TableBucketSpec, x: T.TableBucketSpec, S: Objects)
    reads S
  {
    s.(encryption := null).Shows(x.(encryption := T.None), S)
  }

  /** What one encryption cell shows, apart from its reference. */
  ghost predicate KeyShows(e: EncryptionConfiguration, x: T.EncryptionConfiguration, S: Objects)
    reads S
  {
    e.(kmsKeyRef := null).Shows(x.(kmsKeyRef := T.None), S)
  }

  lemma RestIsApart(
    s: TableBucketSpec, x: T.TableBucketSpec, S: Objects, c: Box<TableBucketSpec>, e: Box<EncryptionConfiguration>)
    requires s.Shows(x, S)
    ensures RestShows(s, x, S - {c, e})
  {
  }

  lemma KeyIsApart(
    k: EncryptionConfiguration, x: T.EncryptionConfiguration, S: Objects,
    c: Box<TableBucketSpec>, e: Box<EncryptionConfiguration>)
    requires k.Shows(x, S)
    ensures KeyShows(k, x, S - {c, e})
  {
  }

  method WriteRef(
    l: Box<TableBucketSpec>, e: Box<EncryptionConfiguration>, declared: Box?<ReferenceWrapper>,
    ghost x: T.TableBucketSpec, ghost k: T.EncryptionConfiguration, ghost ref: T.Option<T.ReferenceWrapper>,
    ghost W: Objects)
    requires l in W && e in W && l.v.encryption == e
    requires RestShows(l.v, x, W - {l, e}) && KeyShows(e.v, k, W - {l, e})
    requires ShowsReferenceWrapper(declared, ref, W - {l, e})
    modifies e
    ensures ShowsTableBucketSpec(l, T.Some(x.(encryption := T.Some(k.(kmsKeyRef := ref)))), W)
  {
    hide TableBucketSpec.Shows, ShowsReferenceWrapper;
    ghost var apart := W - {l, e};
    e.v := e.v.(kmsKeyRef := declared);
    assert e.v.Shows(k.(kmsKeyRef := ref), apart) by {
      hide RestShows;
    }
    PutKey(l, e, x, k.(kmsKeyRef := ref), W);
  }

  lemma PutKey(
    c: Box<TableBucketSpec>, e: Box<EncryptionConfiguration>,
    x: T.TableBucketSpec, k: T.EncryptionConfiguration, S: Objects)
    requires c in S && e in S && c.v.encryption == e
    requires RestShows(c.v, x, S - {c, e}) && e.v.Shows(k, S - {c, e})
    ensures ShowsTableBucketSpec(c, T.Some(x.(encryption := T.Some(k))), S)
  {
  }

  lemma EmptyKeyShows(S: Objects)
    ensures KeyShows(EncryptionConfiguration.EncryptionConfiguration(null, null, null),
                     T.EncryptionConfiguration(T.None, T.None, T.None), S)
  {
  }

  /** An encryption struct with the declared reference and nothing else, for a spec without one. */
  method CreateWithRef(
    l: Box<TableBucketSpec>, declared: Box?<ReferenceWrapper>,
    ghost lx: T.TableBucketSpec, ghost L: Objects, ghost ref: T.Option<T.ReferenceWrapper>, ghost D: Objects)
    returns (ghost W: Objects)
    requires ShowsTableBucketSpec(l, T.Some(lx), L) && l.v.encryption == null
    requires ShowsReferenceWrapper(declared, ref, D) && L !! D
    modifies l
    ensures var k := T.EncryptionConfiguration(T.None, ref, T.None);
            ShowsTableBucketSpec(l, T.Some(lx.(encryption := T.Some(k))), W)
    ensures fresh(W - L - D)
  {
    hide TableBucketSpec.Shows, ShowsReferenceWrapper;
    var e := new Box(EncryptionConfiguration.EncryptionConfiguration(null, null, null));
    W := L + D + {e};
    SpecGrows(l.v, lx, L, W);
    RestIsApart(l.v, lx, W, l, e);
    GrowReferenceWrapper(declared, ref, D, W - {l, e});
    l.v := l.v.(encryption := e);
    EmptyKeyShows(W - {l, e});
    WriteRef(l, e, declared, lx, T.EncryptionConfiguration(T.None, T.None, T.None), ref, W);
  }

  /** The declared reference, written through the copy's own encryption pointer. */
  method WriteThrough(
    l: Box<TableBucketSpec>, e: Box<EncryptionConfiguration>, declared: Box?<ReferenceWrapper>,
    ghost lx: T.TableBucketSpec, ghost L: Objects, ghost ref: T.Option<T.ReferenceWrapper>, ghost D: Objects)
    requires ShowsTableBucketSpec(l, T.Some(lx), L) && l.v.encryption == e
    requires ShowsReferenceWrapper(declared, ref, D) && L !! D
    modifies e
    ensures lx.encryption.Some?
    ensures ShowsTableBucketSpec(l, T.Some(lx.(encryption := T.Some(lx.encryption.value.(kmsKeyRef := ref)))), L + D)
  {
    hide ShowsReferenceWrapper;
    ghost var W, k := L + D, lx.encryption.value;
    SpecGrows(l.v, lx, L, W);
    RestIsApart(l.v, lx, W, l, e);
    KeyIsApart(e.v, k, W, l, e);
    GrowReferenceWrapper(declared, ref, D, W - {l, e});
    hide *;
    WriteRef(l, e, declared, lx, k, ref, W);
  }

  /** The reference `d` declares, unless the copy `l` already has one. */
  method RestoreKeyRef(
    d: Box<TableBucketSpec>, l: Box<TableBucketSpec>, ghost dx: T.TableBucketSpec, ghost D: Objects,
    ghost lx: T.TableBucketSpec, ghost L: Objects)
    returns (ghost W: Objects)
    requires ShowsTableBucketSpec(d, T.Some(dx), D) && ShowsTableBucketSpec(l, T.Some(lx), L) && L !! D
    modifies L
    ensures ShowsTableBucketSpec(l, T.Some(R.Ensured(dx, lx)), W) && fresh(W - L - D)
  {
    W := L;
    if d.v.encryption != null {
      var declared := d.v.encryption.v.kmsKeyRef;
      if declared != null {
        if l.v.encryption == null {
          W := CreateWithRef(l, declared, lx, L, dx.encryption.value.kmsKeyRef, D);
        } else if l.v.encryption.v.kmsKeyRef == null {
          W := L + D;
          WriteThrough(l, l.v.encryption, declared, lx, L, dx.encryption.value.kmsKeyRef, D);
        }
      }
    }
  }

  /** EnsureReferences: the result is the observation with the declared reference restored, and
      although the restoring writes through pointers, the two objects it was given still show what
      they showed and share nothing with it. */
  method EnsureReferences(
    desired: TableBucket, latest: TableBucket, ghost dx: T.TableBucketSpec, ghost dy: ShownBucketStatus,
    ghost lx: T.TableBucketSpec, ghost ly: ShownBucketStatus, ghost S: Objects)
    returns (ko: TableBucket, ghost Q: Objects)
    requires desired.Shows(dx, dy, S) && latest.Shows(lx, ly, S)
    ensures ko.Shows(R.Ensured(dx, lx), ly, Q) && fresh(Q)
    ensures desired.Shows(dx, dy, S) && latest.Shows(lx, ly, S)
  {
    hide TableBucket.Shows, ShowsTableBucketSpec, ShowsTableBucketStatus, R.Ensured;
    var desiredKo, D, D1 := CopyTableBucket(desired, dx, dy, S);
    ghost var L, L1;
    ko, L, L1 := CopyTableBucket(latest, lx, ly, S);
    ghost var W := RestoreKeyRef(desiredKo.spec, ko.spec, dx, D, lx, L);
    WholeTableBucket(ko, R.Ensured(dx, lx), ly, W, L1);
    Q := {ko} + W + L1;
  }

  // ----- An object shows one value only, so equal values mean equal structures -----

  lemma StringsShowOneValue(
    m: Box?<map<string, Box?<string>>>, xs: T.PtrMap<string>, S: Objects, ys: T.PtrMap<string>, U: Objects)
    requires ShowsStrings(m, xs, S) && ShowsStrings(m, ys, U)
    ensures xs == ys
  {
    if m != null {
      assert xs.value == ys.value;
    }
  }

  lemma MaintenanceShowsOneValue(
    m: Box?<map<string, Box?<MaintenanceValue>>>,
    xs: T.PtrMap<T.MaintenanceValue>, S: Objects, ys: T.PtrMap<T.MaintenanceValue>, U: Objects)
    requires ShowsMaintenance(m, xs, S) && ShowsMaintenance(m, ys, U)
    ensures xs == ys
  {
    if m != null {
      assert xs.value == ys.value;
    }
  }

  lemma TableBucketShowsOneValue(
    p: Box<TableBucketSpec>, x: T.TableBucketSpec, S: Objects, y: T.TableBucketSpec, U: Objects)
    requires ShowsTableBucketSpec(p, T.Some(x), S) && ShowsTableBucketSpec(p, T.Some(y), U)
    ensures x == y
  {
    hide ShowsStrings, ShowsMaintenance;
    StringsShowOneValue(p.v.tags, x.tags, S, y.tags, U);
    MaintenanceShowsOneValue(p.v.maintenance, x.maintenance, S, y.maintenance, U);
  }

  lemma LayoutShowsOneValue(s: IcebergMetadata, x: T.IcebergMetadata, S: Objects, y: T.IcebergMetadata, U: Objects)
    requires s.Shows(x, S) && s.Shows(y, U)
    ensures x.partitionSpec == y.partitionSpec && x.schema == y.schema
  {
    if s.partitionSpec != null && s.partitionSpec.v.fields != null {
      assert x.partitionSpec.value.fields.value == y.partitionSpec.value.fields.value;
    }
    if s.schema != null && s.schema.v.fields != null {
      assert x.schema.value.fields.value == y.schema.value.fields.value;
    }
  }

  lemma OrderShowsOneValue(s: IcebergMetadata, x: T.IcebergMetadata, S: Objects, y: T.IcebergMetadata, U: Objects)
    requires s.Shows(x, S) && s.Shows(y, U)
    ensures x.writeOrder == y.writeOrder
  {
    if s.writeOrder != null && s.writeOrder.v.fields != null {
      assert x.writeOrder.value.fields.value == y.writeOrder.value.fields.value;
    }
  }

  lemma MetadataShowsOneValue(
    p: Box?<TableMetadata>, x: T.Option<T.TableMetadata>, S: Objects, y: T.Option<T.TableMetadata>, U: Objects)
    requires ShowsTableMetadata(p, x, S) && ShowsTableMetadata(p, y, U)
    ensures x == y
  {
    hide ShowsPartitionSpec, ShowsSchema, ShowsSortOrder, ShowsStrings;
    if p != null && p.v.iceberg != null {
      var s, a, b := p.v.iceberg.v, x.value.iceberg.value, y.value.iceberg.value;
      LayoutShowsOneValue(s, a, S, b, U);
      OrderShowsOneValue(s, a, S, b, U);
      StringsShowOneValue(s.properties, a.properties, S, b.properties, U);
    }
  }

  lemma TableShowsOneValue(p: Box<TableSpec>, x: T.TableSpec, S: Objects, y: T.TableSpec, U: Objects)
    requires ShowsTableSpec(p, T.Some(x), S) && ShowsTableSpec(p, T.Some(y), U)
    ensures x == y
  {
    hide ShowsTableMetadata, ShowsStrings;
    MetadataShowsOneValue(p.v.metadata, x.metadata, S, y.metadata, U);
    StringsShowOneValue(p.v.tags, x.tags, S, y.tags, U);
  }
}
