/** Cross-resource references: resolving them in place, clearing what was resolved, and
    restoring them onto an observation (pkg/resource/table/references.go and
    pkg/resource/table_bucket/references.go). */
module References {
  import opened Types
  import opened BucketService
  import BucketPass
  import B = BucketManager
  import T = TableManager

  datatype Kind = NamespaceKind | TableBucketKind | KeyKind

  /** A referenced object: its conditions, and the field the reference asks for. */
  datatype Object = Object(conditions: seq<Condition>, target: Option<string>)

  /** The API server, and the runtime's rule for references across namespaces, which yields the
      namespace to look in or an error. */
  datatype Cluster = Cluster(
    get: (Kind, string, string) -> Result<Object>,
    crossNamespace: (string, Option<string>, string) -> Result<string>)

  // ----- The state of a referenced object -----

  predicate Shows(conditions: seq<Condition>, kind: ConditionType) {
    exists i :: 0 <= i < |conditions| && conditions[i].kind == kind && conditions[i].status == StatusTrue
  }

  /** Found, synced, not terminal, and with a value in the field asked for. */
  predicate Usable(o: Object) {
    !Shows(o.conditions, CondTerminal) && Shows(o.conditions, CondSynced) && o.target.Some?
  }

  const TERMINAL_REFERENCE := PlainError("referenced resource is in a terminal condition")
  const UNSYNCED_REFERENCE := PlainError("referenced resource is not synced")
  const INCOMPLETE_REFERENCE := PlainError("referenced resource is missing the target field")
  const EMPTY_REFERENCE := PlainError("provided resource reference is nil or empty")

  function StateError(o: Object): (err: Option<Error>)
    ensures err.None? <==> Usable(o)
  {
    if Shows(o.conditions, CondTerminal) then Some(TERMINAL_REFERENCE)
    else if !Shows(o.conditions, CondSynced) then Some(UNSYNCED_REFERENCE)
    else if o.target.None? then Some(INCOMPLETE_REFERENCE)
    else None
  }

  /** getReferencedResourceState_*: two loops over the conditions and a nil check. */
  method ReferencedState(o: Object) returns (err: Option<Error>)
    ensures err == StateError(o)
  {
    for i := 0 to |o.conditions|
      invariant !Shows(o.conditions[..i], CondTerminal)
    {
      if o.conditions[i].kind == CondTerminal && o.conditions[i].status == StatusTrue {
        return Some(TERMINAL_REFERENCE);
      }
    }
    assert o.conditions[..|o.conditions|] == o.conditions;
    var synced := false;
    for i := 0 to |o.conditions|
      invariant synced <==> Shows(o.conditions[..i], CondSynced)
    {
      assert o.conditions[..i + 1] == o.conditions[..i] + [o.conditions[i]];
      if o.conditions[i].kind == CondSynced && o.conditions[i].status == StatusTrue {
        assert o.conditions[..i + 1][i] == o.conditions[i];
        synced := true;
      }
    }
    if !synced {
      return Some(UNSYNCED_REFERENCE);
    }
    if o.target.None? {
      return Some(INCOMPLETE_REFERENCE);
    }
    return None;
  }

  // ----- One reference field -----

  /** Whether the reference asks for anything, and the value it resolves to. */
  predicate Asks(r: Option<ReferenceWrapper>) {
    r.Some? && r.value.from.Some?
  }

  /** `value` is the target field of a usable object that the reference names. */
  ghost predicate ResolvesTo(c: Cluster, kind: Kind, owner: string, r: Reference, value: string) {
    && r.name.Some? && r.name.value != ""
    && var ns := c.crossNamespace(owner, r.namespace, r.name.value);
    && ns.Ok?
    && var got := c.get(kind, ns.value, r.name.value);
    && got.Ok? && Usable(got.value) && got.value.target == Some(value)
  }

  /** The value of a field after its reference was tried, or the first error met. */
  function Attempt(c: Cluster, kind: Kind, owner: string, r: Option<ReferenceWrapper>, current: Option<string>)
    : Result<Option<string>>
  {
    if !Asks(r) then Ok(current)
    else
      var from := r.value.from.value;
      if from.name.GetOr("") == "" then Err(EMPTY_REFERENCE)
      else
        match c.crossNamespace(owner, from.namespace, from.name.value)
        case Err(e) => Err(e)
        case Ok(ns) =>
          match c.get(kind, ns, from.name.value)
          case Err(e) => Err(e)
          case Ok(o) => if StateError(o).Some? then Err(StateError(o).value) else Ok(o.target)
  }

  /** A reference that asks is resolved exactly when it names a usable object. */
  lemma AttemptResolvesIff(c: Cluster, kind: Kind, owner: string, r: Option<ReferenceWrapper>, current: Option<string>)
    requires Asks(r)
    ensures var a := Attempt(c, kind, owner, r, current);
            && (a.Ok? ==> a.value.Some?)
            && forall v :: ResolvesTo(c, kind, owner, r.value.from.value, v) <==> a == Ok(Some(v))
  {
  }

  /** What a referenced object is turned down for, in this order: a Terminal condition that is
      True, no Synced condition that is True, no value in the field asked for. */
  lemma StateErrorsAre(o: Object)
    ensures var terminal := exists c :: c in o.conditions && c.kind == CondTerminal && c.status == StatusTrue;
            var synced := exists c :: c in o.conditions && c.kind == CondSynced && c.status == StatusTrue;
            StateError(o) ==
            if terminal then Some(PlainError("referenced resource is in a terminal condition"))
            else if !synced then Some(PlainError("referenced resource is not synced"))
            else if o.target.None? then Some(PlainError("referenced resource is missing the target field"))
            else None
  {
    assert Shows(o.conditions, CondTerminal) <==>
      exists c :: c in o.conditions && c.kind == CondTerminal && c.status == StatusTrue;
    assert Shows(o.conditions, CondSynced) <==>
      exists c :: c in o.conditions && c.kind == CondSynced && c.status == StatusTrue;
  }

  /** The field keeps its value when there is no reference or it has no `from`; a reference
      without a name is an error; then the namespace rule decides where to look, the lookup may
      fail, and the object found may be turned down; otherwise the field is the object's target. */
  lemma AttemptsAre(c: Cluster, kind: Kind, owner: string, r: Option<ReferenceWrapper>, current: Option<string>)
    ensures var a := Attempt(c, kind, owner, r, current);
            if r.None? || r.value.from.None? then a == Ok(current)
            else
              var from := r.value.from.value;
              if from.name.None? || from.name.value == "" then
                a == Err(PlainError("provided resource reference is nil or empty"))
              else
                var ns := c.crossNamespace(owner, from.namespace, from.name.value);
                if ns.Err? then a == Err(ns.error)
                else
                  var got := c.get(kind, ns.value, from.name.value);
                  if got.Err? then a == Err(got.error)
                  else if StateError(got.value).Some? then a == Err(StateError(got.value).value)
                  else a == Ok(got.value.target)
  {
  }

  /** The body shared by the resolveReferenceFor* functions, up to the assignment. */
  method ResolveField(c: Cluster, kind: Kind, owner: string, r: Option<ReferenceWrapper>)
    returns (has: bool, value: Option<string>, err: Option<Error>)
    ensures has == Asks(r)
    ensures forall current :: Attempt(c, kind, owner, r, current) ==
              if err.Some? then Err(err.value) else Ok(if has then value else current)
  {
    if r.None? || r.value.from.None? {
      return false, None, None;
    }
    var from := r.value.from.value;
    if from.name.None? || from.name.value == "" {
      return true, None, Some(EMPTY_REFERENCE);
    }
    var ns := c.crossNamespace(owner, from.namespace, from.name.value);
    if ns.Err? {
      return true, None, Some(ns.error);
    }
    var got := c.get(kind, ns.value, from.name.value);
    if got.Err? {
      return true, None, Some(got.error);
    }
    err := ReferencedState(got.value);
    if err.Some? {
      return true, None, err;
    }
    return true, got.value.target, None;
  }

  // ----- Tables -----

  const BOTH_SET := PlainError("a reference and the field it resolves into cannot both be set")
  const NONE_SET := PlainError("a reference or the field it resolves into must be set")

  /** validateReferenceFields */
  function Validate(s: TableSpec): Option<Error> {
    if s.namespaceRef.Some? && s.namespace.Some? then Some(BOTH_SET)
    else if s.namespaceRef.None? && s.namespace.None? then Some(NONE_SET)
    else if s.tableBucketRef.Some? && s.tableBucketARN.Some? then Some(BOTH_SET)
    else if s.tableBucketRef.None? && s.tableBucketARN.None? then Some(NONE_SET)
    else None
  }

  /** A spec is valid exactly when each of the two fields is given in one way: by its value or by
      a reference, not both and not neither; the error says which of the two it is. */
  lemma ValidIff(s: TableSpec)
    ensures Validate(s).None? <==>
      (s.namespace.Some? != s.namespaceRef.Some?) && (s.tableBucketARN.Some? != s.tableBucketRef.Some?)
    ensures Validate(s) == Some(PlainError("a reference and the field it resolves into cannot both be set")) <==>
      (s.namespace.Some? && s.namespaceRef.Some?) ||
      (s.namespace.Some? != s.namespaceRef.Some? && s.tableBucketARN.Some? && s.tableBucketRef.Some?)
    ensures Validate(s) == Some(PlainError("a reference or the field it resolves into must be set")) <==>
      (s.namespace.None? && s.namespaceRef.None?) ||
      (s.namespace.Some? != s.namespaceRef.Some? && s.tableBucketARN.None? && s.tableBucketRef.None?)
  {
    assert "a reference and the field"[12] != "a reference or the field"[12];
    assert BOTH_SET.text[12] != NONE_SET.text[12];
  }

  /** What ResolveReferences leaves of the spec, whether the spec has references, and the error:
      the namespace is tried first, and the bucket only if that worked. */
  function Resolve(c: Cluster, owner: string, s: TableSpec): (TableSpec, bool, Option<Error>) {
    match Attempt(c, NamespaceKind, owner, s.namespaceRef, s.namespace)
    case Err(e) => (s, true, Some(e))
    case Ok(namespace) =>
      var s1 := s.(namespace := namespace);
      match Attempt(c, TableBucketKind, owner, s.tableBucketRef, s.tableBucketARN)
      case Err(e) => (s1, true, Some(e))
      case Ok(arn) => (s1.(tableBucketARN := arn), Asks(s.namespaceRef) || Asks(s.tableBucketRef), Validate(s))
  }

  /** ResolveReferences, in place: despite its comment it hands back the object it was given.
      A validation error does not stop it; it is only returned if nothing else fails. */
  method ResolveTableReferences(c: Cluster, owner: string, ko: T.Resource) returns (has: bool, err: Option<Error>)
    modifies ko`spec
    ensures (ko.spec, has, err) == Resolve(c, owner, old(ko.spec))
  {
    hide Attempt;
    var invalid := Validate(ko.spec);
    var value;
    has, value, err := ResolveField(c, NamespaceKind, owner, ko.spec.namespaceRef);
    FailuresHaveReferences(c, NamespaceKind, owner, ko.spec.namespaceRef, ko.spec.namespace);
    if err.Some? {
      return;
    }
    if has {
      ko.spec := ko.spec.(namespace := value);
    }
    var hasBucket;
    hasBucket, value, err := ResolveField(c, TableBucketKind, owner, ko.spec.tableBucketRef);
    FailuresHaveReferences(c, TableBucketKind, owner, ko.spec.tableBucketRef, ko.spec.tableBucketARN);
    has := has || hasBucket;
    if err.Some? {
      return;
    }
    if hasBucket {
      ko.spec := ko.spec.(tableBucketARN := value);
    }
    err := invalid;
  }

  lemma FailuresHaveReferences(
    c: Cluster, kind: Kind, owner: string, r: Option<ReferenceWrapper>, current: Option<string>)
    ensures Attempt(c, kind, owner, r, current).Err? ==> Asks(r)
    ensures !Asks(r) ==> Attempt(c, kind, owner, r, current) == Ok(current)
  {
  }

  function ClearedTable(s: TableSpec): TableSpec {
    s.(namespace := if s.namespaceRef.Some? then None else s.namespace,
       tableBucketARN := if s.tableBucketRef.Some? then None else s.tableBucketARN)
  }

  method ClearTableReferences(res: T.Resource) returns (r: T.Resource)
    ensures fresh(r) && r.status == res.status && r.spec == ClearedTable(res.spec)
  {
    r := res.DeepCopy();
    if r.spec.namespaceRef.Some? {
      r.spec := r.spec.(namespace := None);
    }
    if r.spec.tableBucketRef.Some? {
      r.spec := r.spec.(tableBucketARN := None);
    }
  }

  /** Clearing undoes resolving, however far it got and whatever the cluster answered, exactly
      when no reference stood beside a value of its own. */
  lemma ClearUndoesResolveIff(c: Cluster, owner: string, s: TableSpec)
    ensures ClearedTable(Resolve(c, owner, s).0) == s <==>
            && (s.namespaceRef.Some? ==> s.namespace.None?)
            && (s.tableBucketRef.Some? ==> s.tableBucketARN.None?)
    ensures Validate(s).None? ==> ClearedTable(Resolve(c, owner, s).0) == s
  {
  }

  /** The reference names a usable object. */
  ghost predicate Resolvable(c: Cluster, kind: Kind, owner: string, r: Option<ReferenceWrapper>) {
    Asks(r) && exists v :: ResolvesTo(c, kind, owner, r.value.from.value, v)
  }

  /** What resolving leaves in one field, and whether it stops there. */
  ghost predicate Resolved(
    c: Cluster, kind: Kind, owner: string, r: Option<ReferenceWrapper>, before: Option<string>, after: Option<string>)
  {
    if Resolvable(c, kind, owner, r) then after.Some? && ResolvesTo(c, kind, owner, r.value.from.value, after.value)
    else after == before
  }

  lemma AttemptLeaves(
    c: Cluster, kind: Kind, owner: string, r: Option<ReferenceWrapper>, current: Option<string>)
    ensures var a := Attempt(c, kind, owner, r, current);
            && (a.Err? <==> Asks(r) && !Resolvable(c, kind, owner, r))
            && Resolved(c, kind, owner, r, current, if a.Ok? then a.value else current)
  {
    if Asks(r) {
      AttemptResolvesIff(c, kind, owner, r, current);
    }
    hide Attempt, ResolvesTo;
  }

  /** However far a resolution gets: a field that was tried holds the target of the usable object
      its reference names, and every other field is as declared. The bucket is tried only if the
      namespace worked; an error is returned exactly when a reference could not be resolved or
      the spec is not valid. */
  lemma ResolvedFieldsAreUsable(c: Cluster, owner: string, s: TableSpec)
    ensures var (after, has, err) := Resolve(c, owner, s);
            var stops := Asks(s.namespaceRef) && !Resolvable(c, NamespaceKind, owner, s.namespaceRef);
            && after.(namespace := s.namespace, tableBucketARN := s.tableBucketARN) == s
            && Resolved(c, NamespaceKind, owner, s.namespaceRef, s.namespace, after.namespace)
            && (if stops then after == s
                else Resolved(c, TableBucketKind, owner, s.tableBucketRef, s.tableBucketARN, after.tableBucketARN))
            && (err.None? <==>
                  && !stops
                  && (Asks(s.tableBucketRef) ==> Resolvable(c, TableBucketKind, owner, s.tableBucketRef))
                  && Validate(s).None?)
            && (has <==> Asks(s.namespaceRef) || Asks(s.tableBucketRef))
  {
    AttemptLeaves(c, NamespaceKind, owner, s.namespaceRef, s.namespace);
    AttemptLeaves(c, TableBucketKind, owner, s.tableBucketRef, s.tableBucketARN);
    FailuresHaveReferences(c, NamespaceKind, owner, s.namespaceRef, s.namespace);
    FailuresHaveReferences(c, TableBucketKind, owner, s.tableBucketRef, s.tableBucketARN);
    hide Attempt, Resolvable, Resolved, Validate;
  }

  // ----- Table buckets: the KMS key -----

  function KeyRef(s: TableBucketSpec): Option<ReferenceWrapper> {
    if s.encryption.Some? then s.encryption.value.kmsKeyRef else None
  }

  function KeyARN(s: TableBucketSpec): Option<string> {
    if s.encryption.Some? then s.encryption.value.kmsKeyARN else None
  }

  function ClearedBucket(s: TableBucketSpec): TableBucketSpec {
    if KeyRef(s).None? then s else s.(encryption := Some(s.encryption.value.(kmsKeyARN := None)))
  }

  /** EnsureReferences: the declared reference, where the observation lost it. */
  function Ensured(desired: TableBucketSpec, latest: TableBucketSpec): TableBucketSpec {
    if KeyRef(desired).None? then latest
    else
      var e := latest.encryption.GetOr(EncryptionConfiguration(None, None, None));
      latest.(encryption := Some(if e.kmsKeyRef.None? then e.(kmsKeyRef := KeyRef(desired)) else e))
  }

  /** Clearing drops exactly the values that stand beside a reference. */
  lemma ClearedAre(t: TableSpec, b: TableBucketSpec)
    ensures ClearedTable(t).namespace == (if t.namespaceRef.Some? then None else t.namespace)
    ensures ClearedTable(t).tableBucketARN == (if t.tableBucketRef.Some? then None else t.tableBucketARN)
    ensures ClearedTable(t).(namespace := t.namespace, tableBucketARN := t.tableBucketARN) == t
    ensures ClearedBucket(b).(encryption := b.encryption) == b
    ensures b.encryption.None? ==> ClearedBucket(b).encryption.None?
    ensures b.encryption.Some? ==>
      && ClearedBucket(b).encryption.Some?
      && ClearedBucket(b).encryption.value.kmsKeyARN ==
         (if b.encryption.value.kmsKeyRef.Some? then None else b.encryption.value.kmsKeyARN)
      && ClearedBucket(b).encryption.value.kmsKeyRef == b.encryption.value.kmsKeyRef
      && ClearedBucket(b).encryption.value.sseAlgorithm == b.encryption.value.sseAlgorithm
  {
  }

  /** Restoring writes the reference only where one is declared and none is observed. */
  lemma EnsuredIs(desired: TableBucketSpec, latest: TableBucketSpec)
    ensures var r := Ensured(desired, latest);
            var declared := if desired.encryption.Some? then desired.encryption.value.kmsKeyRef else None;
            if declared.None? then r == latest
            else
              && r.encryption.Some? && r.(encryption := latest.encryption) == latest
              && var e := r.encryption.value;
                 if latest.encryption.None? then e.kmsKeyRef == declared && e.kmsKeyARN.None? && e.sseAlgorithm.None?
                 else
                   var was := latest.encryption.value;
                   && e.kmsKeyARN == was.kmsKeyARN && e.sseAlgorithm == was.sseAlgorithm
                   && e.kmsKeyRef == if was.kmsKeyRef.Some? then was.kmsKeyRef else declared
  {
  }

  method ClearBucketReferences(res: B.TableBucket) returns (r: B.TableBucket)
    ensures fresh(r) && r.status == res.status && r.spec == ClearedBucket(res.spec)
  {
    r := res.DeepCopy();
    if r.spec.encryption.Some? {
      if r.spec.encryption.value.kmsKeyRef.Some? {
        r.spec := r.spec.(encryption := Some(r.spec.encryption.value.(kmsKeyARN := None)));
      }
    }
  }

  method EnsureReferences(desired: B.TableBucket, latest: B.TableBucket) returns (r: B.TableBucket)
    ensures fresh(r) && r.status == latest.status && r.spec == Ensured(desired.spec, latest.spec)
  {
    var desiredKo := desired.DeepCopy();
    r := latest.DeepCopy();
    if desiredKo.spec.encryption.Some? {
      if desiredKo.spec.encryption.value.kmsKeyRef.Some? {
        if r.spec.encryption.None? {
          r.spec := r.spec.(encryption := Some(EncryptionConfiguration(None, None, None)));
        }
        if r.spec.encryption.value.kmsKeyRef.None? {
          r.spec := r.spec.(encryption :=
            Some(r.spec.encryption.value.(kmsKeyRef := desiredKo.spec.encryption.value.kmsKeyRef)));
        }
      }
    }
  }

  function ResolveBucket(c: Cluster, owner: string, s: TableBucketSpec): (TableBucketSpec, bool, Option<Error>) {
    match Attempt(c, KeyKind, owner, KeyRef(s), KeyARN(s))
    case Err(e) => (s, true, Some(e))
    case Ok(arn) =>
      (if Asks(KeyRef(s)) then s.(encryption := Some(s.encryption.value.(kmsKeyARN := arn))) else s,
       Asks(KeyRef(s)),
       if KeyRef(s).Some? && KeyARN(s).Some? then Some(BOTH_SET) else None)
  }

  method ResolveBucketReferences(c: Cluster, owner: string, ko: B.TableBucket) returns (has: bool, err: Option<Error>)
    modifies ko`spec
    ensures (ko.spec, has, err) == ResolveBucket(c, owner, old(ko.spec))
  {
    hide Attempt;
    var invalid := if KeyRef(ko.spec).Some? && KeyARN(ko.spec).Some? then Some(BOTH_SET) else None;
    var value;
    has, value, err := ResolveField(c, KeyKind, owner, KeyRef(ko.spec));
    FailuresHaveReferences(c, KeyKind, owner, KeyRef(ko.spec), KeyARN(ko.spec));
    if err.Some? {
      return;
    }
    if has {
      ko.spec := ko.spec.(encryption := Some(ko.spec.encryption.value.(kmsKeyARN := value)));
    }
    err := invalid;
  }

  lemma ClearUndoesResolveBucketIff(c: Cluster, owner: string, s: TableBucketSpec)
    ensures ClearedBucket(ResolveBucket(c, owner, s).0) == s <==> !(KeyRef(s).Some? && KeyARN(s).Some?)
    ensures Asks(KeyRef(s)) && ResolveBucket(c, owner, s).2.None? ==>
      && KeyARN(ResolveBucket(c, owner, s).0).Some?
      && ResolvesTo(c, KeyKind, owner, KeyRef(s).value.from.value, KeyARN(ResolveBucket(c, owner, s).0).value)
  {
  }

  /** Only the key ARN can change, and only to what the attempt yields; a failed attempt changes
      nothing and is the error, ahead of the complaint that both fields are set. */
  lemma ResolvedBucketIs(c: Cluster, owner: string, s: TableBucketSpec)
    ensures var (after, has, err) := ResolveBucket(c, owner, s);
            var both := s.encryption.Some? && s.encryption.value.kmsKeyRef.Some? && s.encryption.value.kmsKeyARN.Some?;
            var complaint := PlainError("a reference and the field it resolves into cannot both be set");
            var invalid := if both then Some(complaint) else None;
            if s.encryption.None? || s.encryption.value.kmsKeyRef.None? || s.encryption.value.kmsKeyRef.value.from.None?
            then after == s && !has && err == invalid
            else
              var e := s.encryption.value;
              has &&
              match Attempt(c, KeyKind, owner, e.kmsKeyRef, e.kmsKeyARN)
              case Err(failed) => after == s && err == Some(failed)
              case Ok(arn) => after == s.(encryption := Some(e.(kmsKeyARN := arn))) && err == invalid
  {
    FailuresHaveReferences(c, KeyKind, owner, KeyRef(s), KeyARN(s));
    hide Attempt;
  }

  /** For every state of the service: although the read rebuilds the encryption struct without
      the reference, restoring and clearing keep the declared reference and drop the resolved
      key. Restoring is idempotent and touches no concrete value. */
  lemma DeclaredKeyRefSurvivesReads(desired: TableBucketSpec, b: Bucket)
    requires KeyRef(desired).Some?
    ensures var latest := BucketPass.WithConfigurations(desired, b);
            var stored := ClearedBucket(Ensured(desired, latest));
            && KeyRef(latest).None?
            && KeyRef(stored) == KeyRef(desired) && KeyARN(stored).None?
            && ClearedBucket(latest) == latest
  {
  }

  lemma EnsuringIsIdempotent(desired: TableBucketSpec, latest: TableBucketSpec)
    ensures Ensured(desired, Ensured(desired, latest)) == Ensured(desired, latest)
    ensures KeyRef(latest).Some? || KeyRef(desired).None? ==> Ensured(desired, latest) == latest
    ensures KeyARN(Ensured(desired, latest)) == KeyARN(latest)
    ensures Ensured(desired, latest).(encryption := latest.encryption) == latest
    ensures latest.encryption.Some? ==>
      Ensured(desired, latest).encryption.value.(kmsKeyRef := latest.encryption.value.kmsKeyRef)
      == latest.encryption.value
  {
  }
}
